/** Exactly when each round-lifecycle transaction is accepted, on the fields of the rows it reads. */
module LifecycleAcceptance {
  import opened Options
  import opened Lifecycle
  import opened LifecycleTheorems

  // ----- Creation and transitions -----

  lemma {:induction false} SidesAre(pairs: seq<(nat, nat)>)
    ensures |Sides(pairs)| == 2 * |pairs|
    ensures forall i :: 0 <= i < |pairs| ==> Sides(pairs)[2 * i] == pairs[i].0 && Sides(pairs)[2 * i + 1] == pairs[i].1
  {
    if pairs != [] { SidesAre(pairs[..|pairs| - 1]); }
  }

  /** Nobody plays twice. */
  predicate Disjoint(a: (nat, nat), b: (nat, nat)) {
    a.0 != b.0 && a.0 != b.1 && a.1 != b.0 && a.1 != b.1
  }

  lemma DistinctSidesMean(pairs: seq<(nat, nat)>)
    ensures Distinct(Sides(pairs))
       <==> (forall i :: 0 <= i < |pairs| ==> pairs[i].0 != pairs[i].1)
            && (forall i, j :: 0 <= i < j < |pairs| ==> Disjoint(pairs[i], pairs[j]))
  {
    SidesAre(pairs);
    var sides := Sides(pairs);
    if Distinct(sides) {
      forall i | 0 <= i < |pairs| ensures pairs[i].0 != pairs[i].1 {
        assert sides[2 * i] != sides[2 * i + 1];
      }
      forall i, j | 0 <= i < j < |pairs| ensures Disjoint(pairs[i], pairs[j]) {
        assert sides[2 * i] != sides[2 * j] && sides[2 * i] != sides[2 * j + 1];
        assert sides[2 * i + 1] != sides[2 * j] && sides[2 * i + 1] != sides[2 * j + 1];
      }
    }
    if (forall i :: 0 <= i < |pairs| ==> pairs[i].0 != pairs[i].1) && (forall i, j :: 0 <= i < j < |pairs| ==> Disjoint(pairs[i], pairs[j])) {
      forall x, y | 0 <= x < y < |sides| ensures sides[x] != sides[y] {
        SideOf(pairs, x);
        SideOf(pairs, y);
        if x / 2 < y / 2 { assert Disjoint(pairs[x / 2], pairs[y / 2]); }
      }
    }
  }

  lemma SideOf(pairs: seq<(nat, nat)>, x: nat)
    requires x < 2 * |pairs|
    ensures |Sides(pairs)| == 2 * |pairs| && Sides(pairs)[x] == if x % 2 == 0 then pairs[x / 2].0 else pairs[x / 2].1
  {
    SidesAre(pairs);
    assert x == 2 * (x / 2) + x % 2;
  }

  /** A round is created once, from five pairs of ten different entries, and starts empty at version one. */
  lemma CreateAcceptedIff(t: Tables, r: RoundId, pairs: seq<(nat, nat)>, contextOk: bool)
    ensures CreateRound(t, r, pairs, contextOk).Ok?
       <==> && r !in t.rounds && contextOk && |pairs| == 5
            && (forall i :: 0 <= i < |pairs| ==> pairs[i].0 != pairs[i].1)
            && (forall i, j :: 0 <= i < j < |pairs| ==> Disjoint(pairs[i], pairs[j]))
    ensures CreateRound(t, r, pairs, contextOk).Ok? ==>
              var next := CreateRound(t, r, pairs, contextOk).value;
              && next.rounds == t.rounds[r := Round(Upcoming, 1)] && next.results == t.results
              && |next.matchups| == |t.matchups| + 5 && next.matchups[..|t.matchups|] == t.matchups
              && forall i :: 0 <= i < 5 ==> next.matchups[|t.matchups| + i] == Matchup(r, pairs[i].0, pairs[i].1, None, 1)
  {
    DistinctSidesMean(pairs);
  }

  /** A transition is accepted exactly along upcoming, open, live, review; opening needs its context. */
  lemma MoveAcceptedIff(t: Tables, r: RoundId, target: RoundState, contextOk: bool)
    ensures Transition(t, r, target, contextOk).Ok?
       <==> && r in t.rounds
            && (|| (t.rounds[r].state == Upcoming && target == Open && contextOk)
                || (t.rounds[r].state == Open && target == Live)
                || (t.rounds[r].state == Live && target == Review))
    ensures Transition(t, r, target, contextOk).Ok? ==>
              Transition(t, r, target, contextOk).value.rounds == t.rounds[r := Round(target, t.rounds[r].version + 1)]
  {
  }

  // ----- Results -----

  /** Scores for exactly the round's matchups, each review named still the current one. */
  ghost predicate Covers(t: Tables, r: RoundId, scores: map<MatchupId, Score>, expected: map<MatchupId, nat>) {
    && (forall m: nat :: m in scores <==> m < |t.matchups| && t.matchups[m].round == r)
    && (forall m :: m in scores && m in expected ==> m < |t.matchups| && t.matchups[m].review == expected[m])
  }

  lemma CoversMeans(t: Tables, r: RoundId, scores: map<MatchupId, Score>, expected: map<MatchupId, nat>)
    requires Inv(t) && r in t.rounds
    ensures CheckResults(t, r, scores, expected).Ok? <==> Covers(t, r, scores, expected)
  {
    var ids := Locked(t.matchups, r);
    LockedAre(t.matchups, r);
    assert forall m :: m in Ids(ids) <==> m in ids;
    if Covers(t, r, scores, expected) {
      assert scores.Keys == Ids(ids);
      assert !ReviewMoved(t.matchups, ids, expected);
    }
    if CheckResults(t, r, scores, expected).Ok? {
      forall m: nat ensures m in scores <==> m in ids {
        assert m in scores.Keys <==> m in Ids(ids);
      }
    }
  }

  /** A round is published from review only, on the version of the round and of every review the caller names. */
  lemma PublishAcceptedIff(t: Tables, r: RoundId, scores: map<MatchupId, Score>, expectedRound: Option<nat>, expected: map<MatchupId, nat>)
    requires Inv(t)
    ensures PublishResults(t, r, scores, expectedRound, expected).Ok?
       <==> && r in t.rounds && t.rounds[r].state == Review
            && (expectedRound.Some? ==> t.rounds[r].version == expectedRound.value)
            && Covers(t, r, scores, expected)
  {
    PublishDecides(t, r, scores, expectedRound, expected);
    if r in t.rounds { CoversMeans(t, r, scores, expected); }
  }

  /** A final round is corrected with a reason, on the same guards. */
  lemma CorrectAcceptedIff(t: Tables, r: RoundId, scores: map<MatchupId, Score>, reason: string, expectedRound: Option<nat>, expected: map<MatchupId, nat>)
    requires Inv(t)
    ensures CorrectResults(t, r, scores, reason, expectedRound, expected).Ok?
       <==> && reason != "" && r in t.rounds && t.rounds[r].state == Final
            && (expectedRound.Some? ==> t.rounds[r].version == expectedRound.value)
            && Covers(t, r, scores, expected)
  {
    CorrectDecides(t, r, scores, reason, expectedRound, expected);
    if r in t.rounds { CoversMeans(t, r, scores, expected); }
  }

  /** One matchup of a final round is corrected with a reason, on the review version named, if any. */
  lemma CorrectOneAcceptedIff(t: Tables, m: MatchupId, score: Score, reason: string, expected: Option<nat>)
    requires Inv(t)
    ensures CorrectMatchup(t, m, score, reason, expected).Ok?
       <==> && reason != "" && m < |t.matchups| && t.matchups[m].round in t.rounds && t.rounds[t.matchups[m].round].state == Final
            && (expected.Some? ==> t.matchups[m].review == expected.value)
  {
    DefensiveGuardsNeverFire(t, CorrectOne(m, score, reason, expected));
  }

  /** A ruling is accepted on the review version named, if any, and moves that review on alone. */
  lemma RulingAcceptedIff(t: Tables, m: MatchupId, expected: Option<nat>)
    ensures Judge(t, m, expected).Ok? <==> m < |t.matchups| && (expected.Some? ==> t.matchups[m].review == expected.value)
    ensures Judge(t, m, expected).Ok? ==>
              Judge(t, m, expected).value == t.(matchups := t.matchups[m := t.matchups[m].(review := t.matchups[m].review + 1)])
  {
  }
}
