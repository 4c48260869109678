/** A ruling judged fresh was made on the very ladder it is applied to. */
module LadderFreshness {
  import opened Options
  import opened Ordering
  import opened LadderFold
  import opened LadderRanking
  import opened LadderTheorems
  import opened LadderRulings

  function ReferenceSet(references: seq<Reference>): set<Reference> { set r | r in references }

  /** The staleness test: the two reference lists, as sets. */
  predicate IsFresh(r: Ruling, ladder: Snapshot) {
    ReferenceSet(r.references) == ReferenceSet(ladder.references)
  }

  // ----- The counted results, and the references to them -----

  lemma {:induction false} InputsAre(w: World, n: nat)
    requires ValidWorld(w)
    ensures var inputs := Inputs(w, n);
            && Distinct(inputs)
            && (forall x :: x in inputs <==> 0 <= x.matchup < n && x.matchup in w.counted && x == MatchOf(w, x.matchup))
  {
    if n > 0 {
      InputsAre(w, n - 1);
      var front, inputs := Inputs(w, n - 1), Inputs(w, n);
      if n - 1 in w.counted {
        assert inputs == front + [MatchOf(w, n - 1)];
        assert MatchOf(w, n - 1) !in front;
      }
    }
  }

  lemma SelectedIs(w: World, through: int, x: Match)
    requires ValidWorld(w)
    ensures var selected := Selected(Inputs(w, |w.fixtures|), through);
            var picked := x.matchup in w.counted && x == MatchOf(w, x.matchup) && x.round <= through;
            && (x in selected <==> picked)
            && multiset(selected)[x] == (if picked then 1 else 0)
  {
    var inputs := Inputs(w, |w.fixtures|);
    var selected := Selected(inputs, through);
    InputsAre(w, |w.fixtures|);
    DistinctCounts(inputs, x);
    ThroughCounts(inputs, through, x);
    assert x in selected <==> x in multiset(selected);
  }

  /** Two results of the same matchup and version are the same result, because versions are only appended. */
  lemma SameVersionSameResult(w: World, next: World, m: nat)
    requires ValidWorld(w) && ValidWorld(next) && Extends(w, next)
    requires m in w.counted && m in next.counted && |w.results[m]| == |next.results[m]|
    ensures MatchOf(w, m) == MatchOf(next, m)
  {
    assert w.results[m] <= next.results[m];
    assert w.results[m] == next.results[m];
  }

  lemma ReferenceIs(w: World, through: int, r: Reference)
    requires ValidWorld(w)
    ensures r in ReferenceSet(References(Selected(Inputs(w, |w.fixtures|), through)))
       <==> r.matchup in w.counted && r.version == |w.results[r.matchup]| && w.fixtures[r.matchup].round <= through
  {
    var selected := Selected(Inputs(w, |w.fixtures|), through);
    if r.matchup in w.counted {
      SelectedIs(w, through, MatchOf(w, r.matchup));
      if r.version == |w.results[r.matchup]| && w.fixtures[r.matchup].round <= through {
        var i :| 0 <= i < |selected| && selected[i] == MatchOf(w, r.matchup);
        assert References(selected)[i] == r;
      }
    }
    if r in References(selected) {
      var i :| 0 <= i < |selected| && References(selected)[i] == r;
      SelectedIs(w, through, selected[i]);
    }
  }

  /** Equal references through a round mean equal results through it. */
  lemma SameReferencesSameResults(w: World, next: World, through: int)
    requires ValidWorld(w) && ValidWorld(next) && Extends(w, next)
    requires ReferenceSet(References(Selected(Inputs(w, |w.fixtures|), through)))
          == ReferenceSet(References(Selected(Inputs(next, |next.fixtures|), through)))
    ensures multiset(Selected(Inputs(w, |w.fixtures|), through)) == multiset(Selected(Inputs(next, |next.fixtures|), through))
  {
    var a, b := Selected(Inputs(w, |w.fixtures|), through), Selected(Inputs(next, |next.fixtures|), through);
    forall x ensures multiset(a)[x] == multiset(b)[x] {
      SelectedIs(w, through, x);
      SelectedIs(next, through, x);
      var r := Reference(x.matchup, x.version);
      ReferenceIs(w, through, r);
      ReferenceIs(next, through, r);
      if x in a { SameVersionSameResult(w, next, x.matchup); }
      if x in b { SameVersionSameResult(w, next, x.matchup); }
    }
  }

  // ----- Staleness judges the facts -----

  lemma SameMembersEncoded(references: seq<Reference>)
    ensures ReferenceSet(Encoded(references)) == ReferenceSet(references)
  {
    SameMembers(Encoded(references), references);
  }

  lemma LadderUnchanged(r: Ruling, league: League, w: World, scale: Scale, before: (Id, Id) -> bool)
    requires TotalOrder(before) && ValidWorld(league.world) && MadeOn(r, league, w, scale, before)
    requires LadderOf(league, r.scope.through, scale, before).Some?
    requires IsFresh(r, LadderOf(league, r.scope.through, scale, before).value)
    ensures LadderOf(league.(world := w), r.scope.through, scale, before) == LadderOf(league, r.scope.through, scale, before)
  {
    var made := LadderOf(league.(world := w), r.scope.through, scale, before).value;
    SameMembersEncoded(made.references);
    SameReferencesSameResults(w, league.world, r.scope.through);
    SnapshotFollows(league.entries, league.entries, Inputs(w, |w.fixtures|), Inputs(league.world, |league.world.fixtures|),
                    r.scope.through, scale, before);
  }

  /** In every reachable state a fresh ruling's group is tied on the current ladder, and its order is an order of that group. */
  lemma FreshRulingStillApplies(s: State, i: nat, scale: Scale, before: (Id, Id) -> bool)
    requires TotalOrder(before) && Inv(s, scale, before) && i < |s.rulings|
    requires s.rulings[i].scope.competition in s.leagues
    requires LadderOf(s.leagues[s.rulings[i].scope.competition], s.rulings[i].scope.through, scale, before).Some?
    requires IsFresh(s.rulings[i], LadderOf(s.leagues[s.rulings[i].scope.competition], s.rulings[i].scope.through, scale, before).value)
    ensures var r := s.rulings[i];
            && IsTied(LadderOf(s.leagues[r.scope.competition], r.scope.through, scale, before).value.rows, r.group)
            && Distinct(r.decided) && Members(r.decided) == r.group
  {
    var r := s.rulings[i];
    assert Witnessed(r, s.leagues, scale, before);
    var w :| MadeOn(r, s.leagues[r.scope.competition], w, scale, before);
    LadderUnchanged(r, s.leagues[r.scope.competition], w, scale, before);
  }

  /** The set test that resolves a tie and the encoded test that recognises a repeat never disagree. */
  lemma StalenessTestsAgree(s: State, i: nat, scale: Scale, before: (Id, Id) -> bool)
    requires TotalOrder(before) && Inv(s, scale, before) && i < |s.rulings|
    requires s.rulings[i].scope.competition in s.leagues
    requires LadderOf(s.leagues[s.rulings[i].scope.competition], s.rulings[i].scope.through, scale, before).Some?
    ensures var ladder := LadderOf(s.leagues[s.rulings[i].scope.competition], s.rulings[i].scope.through, scale, before).value;
            IsFresh(s.rulings[i], ladder) <==> s.rulings[i].references == Encoded(ladder.references)
  {
    var r := s.rulings[i];
    var league := s.leagues[r.scope.competition];
    var ladder := LadderOf(league, r.scope.through, scale, before).value;
    SameMembersEncoded(ladder.references);
    if IsFresh(r, ladder) {
      assert Witnessed(r, s.leagues, scale, before);
      var w :| MadeOn(r, league, w, scale, before);
      LadderUnchanged(r, league, w, scale, before);
    }
  }

  lemma ActiveIsFound(rulings: seq<Ruling>, scope: Scope, group: set<Id>, id: nat)
    requires OneActive(rulings) && id < |rulings| && ActiveFor(rulings[id], scope, group)
    ensures FindActive(rulings, scope, group, 0) == Some(id)
  {
    var found := FindActive(rulings, scope, group, 0).value;
    assert ActiveFor(rulings[found], scope, group);
  }

  /** Recording the same order again, with no result changed, writes nothing and names the same ruling. */
  lemma ReRecordingIsNoOp(s: State, scope: Scope, order: seq<Id>, scale: Scale, before: (Id, Id) -> bool)
    requires Inv(s, scale, before) && Record(s.rulings, s.leagues, scope, order, scale, before).Ok?
    ensures var first := Record(s.rulings, s.leagues, scope, order, scale, before).value;
            Record(first.rulings, s.leagues, scope, order, scale, before) == Ok(Recorded(first.rulings, first.id, false))
  {
    var references := Encoded(LadderOf(s.leagues[scope.competition], scope.through, scale, before).value.references);
    DecideKeeps(s.rulings, scope, order, references);
    DecidedIsActive(s.rulings, scope, order, references);
    var first := Decide(s.rulings, scope, order, references);
    ActiveIsFound(first.rulings, scope, Members(order), first.id);
  }

  lemma DecidedIsActive(rulings: seq<Ruling>, scope: Scope, order: seq<Id>, references: seq<Reference>)
    ensures var r := Decide(rulings, scope, order, references);
            && r.id < |r.rulings| && ActiveFor(r.rulings[r.id], scope, Members(order))
            && r.rulings[r.id].decided == order && r.rulings[r.id].references == references
  {
  }
}
