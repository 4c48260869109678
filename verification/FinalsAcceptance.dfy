/** Exactly when each finals transaction is accepted, and what an accepted one writes, in terms of the rows themselves. */
module FinalsAcceptance {
  import opened Options
  import opened FinalsTables
  import opened FinalsInvariant
  import opened FinalsSteps
  import opened FinalsRewind
  import opened FinalsCorrection

  // ----- Creation -----

  lemma CreateAcceptedIff(seeds: seq<Entry>)
    ensures CreateBracket(seeds).Ok? <==> |seeds| == 10 && forall i, j :: 0 <= i < j < 10 ==> seeds[i] != seeds[j]
  {
  }

  // ----- Prerequisite results -----

  /** The slot's active pairing has a matchup with an effective result. */
  ghost predicate Decided(s: State, slot: Slot) {
    exists i :: 0 <= i < |s.pairings| && s.pairings[i].active && s.pairings[i].slot == slot && s.pairings[i].matchup.Some?
                && s.pairings[i].matchup.value < |s.matchups| && s.matchups[s.pairings[i].matchup.value].effective.Some?
  }

  lemma DecidedMeans(s: State, slot: Slot)
    requires Struct(s) && slot != Bye
    ensures ContestAt(s, slot).Ok? <==> Decided(s, slot)
  {
    if i :| 0 <= i < |s.pairings| && s.pairings[i].active && s.pairings[i].slot == slot && s.pairings[i].matchup.Some?
            && s.pairings[i].matchup.value < |s.matchups| && s.matchups[s.pairings[i].matchup.value].effective.Some?
    {
      FindIs(s.pairings, slot, i);
      assert RowOk(s.pairings, i) && MatchupOk(s, s.pairings[i].matchup.value);
    }
  }

  lemma SourceHolds(s: State, slot: Slot, i: nat)
    requires Unique(s.pairings) && MatchupOf(s, slot).Ok?
    requires i < |s.pairings| && s.pairings[i].active && s.pairings[i].slot == slot
    ensures s.pairings[i].matchup == Some(MatchupOf(s, slot).value)
  {
    FindIs(s.pairings, slot, i);
  }

  /** The caller's expected versions, matchup by matchup: each named, and each either left open or still in force. */
  predicate AsExpected(s: State, m: nat, expected: map<nat, Option<nat>>) {
    m in expected && (expected[m].Some? ==> m < |s.matchups| && s.matchups[m].effective == expected[m])
  }

  lemma LockedIff(s: State, week: int, expected: Expected)
    requires Struct(s) && 1 <= week <= 3
    ensures LockedDerivation(s, week, expected).Ok?
       <==> && ContestAt(s, SourceSlots(week).0).Ok? && ContestAt(s, SourceSlots(week).1).Ok?
            && (expected.Some? ==> AsExpected(s, MatchupOf(s, SourceSlots(week).0).value, expected.value)
                                   && AsExpected(s, MatchupOf(s, SourceSlots(week).1).value, expected.value))
  {
  }

  lemma ExpectedMeans(s: State, a: Slot, b: Slot, expected: map<nat, Option<nat>>)
    requires Struct(s) && ContestAt(s, a).Ok? && ContestAt(s, b).Ok?
    ensures AsExpected(s, MatchupOf(s, a).value, expected) && AsExpected(s, MatchupOf(s, b).value, expected)
       <==> forall i :: 0 <= i < |s.pairings| && s.pairings[i].active && s.pairings[i].slot in {a, b} && s.pairings[i].matchup.Some? ==>
              var m := s.pairings[i].matchup.value;
              m in expected && (expected[m].Some? ==> m < |s.matchups| && s.matchups[m].effective == expected[m])
  {
    var i, j := FindActive(s.pairings, a).value, FindActive(s.pairings, b).value;
    assert s.pairings[i].slot in {a, b} && s.pairings[j].slot in {a, b};
    forall k | 0 <= k < |s.pairings| && s.pairings[k].active && s.pairings[k].slot in {a, b} ensures k == i || k == j {
      FindIs(s.pairings, s.pairings[k].slot, k);
    }
  }

  /** Both contests that decide the next week have an effective result. */
  ghost predicate SourcesDecided(s: State, week: int) {
    Decided(s, SourceSlots(week).0) && Decided(s, SourceSlots(week).1)
  }

  /** Every version the caller named for one of them is still the effective one, and both are named. */
  ghost predicate NothingStale(s: State, week: int, expected: Expected) {
    expected.Some? ==>
      forall i :: 0 <= i < |s.pairings| && s.pairings[i].active && s.pairings[i].slot in {SourceSlots(week).0, SourceSlots(week).1}
                  && s.pairings[i].matchup.Some? ==>
        var m := s.pairings[i].matchup.value;
        m in expected.value && (expected.value[m].Some? ==> m < |s.matchups| && s.matchups[m].effective == expected.value[m])
  }

  lemma LockedMeans(s: State, week: int, expected: Expected)
    requires Struct(s) && 1 <= week <= 3
    ensures LockedDerivation(s, week, expected).Ok? <==> SourcesDecided(s, week) && NothingStale(s, week, expected)
  {
    LockedIff(s, week, expected);
    DecidedMeans(s, SourceSlots(week).0);
    DecidedMeans(s, SourceSlots(week).1);
    if ContestAt(s, SourceSlots(week).0).Ok? && ContestAt(s, SourceSlots(week).1).Ok? && expected.Some? {
      ExpectedMeans(s, SourceSlots(week).0, SourceSlots(week).1, expected.value);
    }
  }

  /** Advancing: a week that can be advanced, both prerequisites in, none of them stale, and nothing derived yet. */
  lemma AdvanceAcceptedIff(s: State, week: int, expected: Expected)
    requires Struct(s)
    ensures Advance(s, week, expected).Ok?
       <==> && 1 <= week <= 3 && SourcesDecided(s, week) && NothingStale(s, week, expected)
            && forall i :: 0 <= i < |s.pairings| && s.pairings[i].active ==> s.pairings[i].slot !in TargetSlots(week)
  {
    if 1 <= week <= 3 {
      LockedMeans(s, week, expected);
      AdvanceGuards(s, week, expected);
    }
  }

  lemma AdvanceGuards(s: State, week: int, expected: Expected)
    requires Struct(s) && 1 <= week <= 3
    ensures Advance(s, week, expected).Ok?
       <==> && LockedDerivation(s, week, expected).Ok?
            && forall i :: 0 <= i < |s.pairings| && s.pairings[i].active ==> s.pairings[i].slot !in TargetSlots(week)
  {
    if AnyAdvanced(s, week) {
      var slot :| slot in TargetSlots(week) && FindActive(s.pairings, slot).Some?;
      assert s.pairings[FindActive(s.pairings, slot).value].slot in TargetSlots(week);
    }
  }

  /** A rewind of a settled bracket: accepted under the same guards on its prerequisites, whatever has been started. */
  lemma RewindAcceptedIff(s: State, week: int, expected: Expected)
    requires Inv(s)
    ensures Rewind(s, week, expected).Ok? <==> 1 <= week <= 3 && SourcesDecided(s, week) && NothingStale(s, week, expected)
  {
    if 1 <= week <= 3 {
      LockedMeans(s, week, expected);
      assert Link(s, week);
      RewindGuards(s, week, expected);
    }
  }

  lemma RewindGuards(s: State, week: int, expected: Expected)
    requires Struct(s) && 1 <= week <= 3 && Link(s, week)
    ensures Rewind(s, week, expected).Ok? <==> LockedDerivation(s, week, expected).Ok?
  {
    if LockedDerivation(s, week, expected).Ok? {
      LockedIsDerived(s, week, expected);
      SettledUnblocked(s, week, LockedDerivation(s, week, expected).value);
    }
  }

  lemma LockedIsDerived(s: State, week: int, expected: Expected)
    requires LockedDerivation(s, week, expected).Ok?
    ensures Derive(s, week) == LockedDerivation(s, week, expected)
  {
  }

  lemma SettledUnblocked(s: State, week: int, d: Derivation)
    requires Struct(s) && 1 <= week <= 3 && Link(s, week) && Derive(s, week) == Ok(d)
    ensures !AnyBlocked(s, d)
  {
    SettledWeek(s, week);
  }

  // ----- Publication -----

  /** Publishing: the round is in review, every matchup of the week and no other is signed off, and each sign-off
      was made from the review and calculation now in force. */
  lemma PublishAcceptedIff(s: State, week: int, signoffs: map<nat, Signoff>)
    requires Struct(s)
    ensures Publish(s, week, signoffs).Ok?
       <==> && week in s.rounds && s.rounds[week] == Review
            && (forall m: nat :: m in signoffs <==> m < |s.matchups| && s.matchups[m].week == week)
            && |signoffs| == (if week == 1 || week == 2 then 2 else 1)
            && (forall m :: m in signoffs ==>
                  && s.matchups[m].reviewVersion == signoffs[m].reviewVersion
                  && m in s.play.calculations && s.play.calculations[m] == signoffs[m].calculation)
  {
    assert signoffs.Keys == MatchupsOfWeek(s, week) <==> forall m: nat :: m in signoffs <==> m < |s.matchups| && s.matchups[m].week == week;
    if week == 4 && signoffs.Keys == MatchupsOfWeek(s, week) && |signoffs| == 1 { GrandFinalSigned(s, signoffs); }
  }

  /** The one matchup of week four is the Grand Final's. */
  lemma GrandFinalSigned(s: State, signoffs: map<nat, Signoff>)
    requires Struct(s) && signoffs.Keys == MatchupsOfWeek(s, 4) && |signoffs| == 1
    ensures MatchupOf(s, GrandFinal).Ok? && MatchupOf(s, GrandFinal).value in signoffs
    ensures MatchupOf(s, GrandFinal).value < |s.matchups|
  {
    assert signoffs.Keys != {} by {
      assert |signoffs.Keys| == 1;
    }
    var m :| m in signoffs.Keys;
    assert m in MatchupsOfWeek(s, 4);
    assert MatchupOk(s, m);
  }

  /** ... and then it writes version one of each signed-off matchup, closes the round, and touches no review. */
  lemma PublishWrites(s: State, week: int, signoffs: map<nat, Signoff>)
    requires Publish(s, week, signoffs).Ok?
    ensures var s' := Publish(s, week, signoffs).value;
            && s'.rounds == s.rounds[week := Final]
            && |s'.matchups| == |s.matchups|
            && (forall m :: 0 <= m < |s.matchups| ==>
                  s'.matchups[m] == s.matchups[m].(effective := if m in signoffs then Some(1) else s.matchups[m].effective))
            && (forall m {:trigger Source(m, 1)} :: m in signoffs ==> Source(m, 1) in s'.results && s'.results[Source(m, 1)] == signoffs[m].score)
            && s'.pairings == s.pairings && s'.eliminations == s.eliminations
  {
  }

  // ----- Correction -----

  /** One more version of matchup `m`, now effective, its review moved on; no other result or review is touched. */
  ghost predicate WritesVersion(s: State, s': State, m: nat, next: nat, score: Score)
    requires m < |s.matchups|
  {
    && s'.results == s.results[Source(m, next) := score]
    && |s'.matchups| == |s.matchups|
    && s'.matchups[m].effective == Some(next) && s'.matchups[m].reviewVersion == s.matchups[m].reviewVersion + 1
    && (forall k :: 0 <= k < |s.matchups| && k != m ==>
          s'.matchups[k].effective == s.matchups[k].effective && s'.matchups[k].reviewVersion == s.matchups[k].reviewVersion)
    && s'.rounds == s.rounds && s'.play == s.play
  }

  lemma CorrectionWrites(s: State, m: nat, oldVersion: Option<nat>, signoff: Signoff)
    requires Correct(s, m, oldVersion, signoff).Ok?
    ensures m < |s.matchups| && s.matchups[m].effective.Some?
    ensures WritesVersion(s, Correct(s, m, oldVersion, signoff).value, m, s.matchups[m].effective.value + 1, signoff.score)
  {
    CorrectShape(s, m, oldVersion, signoff);
    var s' := Correct(s, m, oldVersion, signoff).value;
    if s.matchups[m].week < 4 {
      EarlierWrites(s, s', m, oldVersion.value, signoff.score, SourceMatchups(s, s.matchups[m].week).value);
    } else {
      GrandFinalWrites(s, m, oldVersion.value, signoff.score);
    }
  }

  lemma GrandFinalWrites(s: State, m: nat, version: nat, score: Score)
    requires m < |s.matchups|
    ensures WritesVersion(s, CorrectGrandFinal(s, m, version, score), m, version + 1, score)
  {
  }

  lemma EarlierWrites(s: State, s': State, m: nat, version: nat, score: Score, ids: (nat, nat))
    requires m < |s.matchups| && CorrectAndRewind(s, m, version, score, ids) == Ok(s')
    ensures WritesVersion(s, s', m, version + 1, score)
  {
    var s1 := AppendResult(s, m, version + 1, score);
    RewindShape(s1, s.matchups[m].week, ObservedVersions(s1, ids));
    var d := Derive(s1, s.matchups[m].week).value;
    RewoundReviews(s1, d);
    RewoundFrame(s1, d);
  }

  /** Same results, and the same result and review behind every matchup. */
  ghost predicate SameReviews(s: State, s': State) {
    && s'.results == s.results && |s'.matchups| == |s.matchups|
    && (forall k :: 0 <= k < |s.matchups| ==>
          s'.matchups[k].effective == s.matchups[k].effective && s'.matchups[k].reviewVersion == s.matchups[k].reviewVersion)
  }

  /** Superseding rows changes a matchup's participants, never its result or review. */
  lemma RewoundReviews(s: State, d: Derivation)
    ensures SameReviews(s, Rewound(s, d))
  {
    if |d.pairings| > 0 { ReplacedReviews(s, d.pairings[0]); }
    if |d.pairings| > 1 { ReplacedReviews(ReplaceChanged(s, d.pairings[0]), d.pairings[1]); }
  }

  lemma ReplacedReviews(s: State, d: Derived)
    ensures SameReviews(s, ReplaceChanged(s, d))
  {
  }

  // ----- Rows and rounds -----

  /** A pairing is materialised only while it is active and its week's round exists; a second time changes nothing. */
  lemma MaterialiseAcceptedIff(s: State, row: nat)
    requires Struct(s)
    ensures Materialise(s, row).Ok?
       <==> row < |s.pairings| && s.pairings[row].active && s.pairings[row].slot != Bye && WeekOf(s.pairings[row].slot) in s.rounds
    ensures Materialise(s, row).Ok? ==>
              var s' := Materialise(s, row).value;
              if s.pairings[row].matchup.Some? then s' == s
              else s'.pairings == s.pairings[row := s.pairings[row].(matchup := Some(|s.matchups|))]
                   && s'.matchups[..|s.matchups|] == s.matchups && |s'.matchups| == |s.matchups| + 1
                   && s'.matchups[|s.matchups|].effective.None? && s'.matchups[|s.matchups|].reviewVersion == 1
  {
    if row < |s.pairings| { assert RowOk(s.pairings, row); }
  }

  function Progress(r: RoundState): nat {
    match r
    case Upcoming => 0
    case Open => 1
    case Live => 2
    case Review => 3
    case Final => 4
  }

  /** A finals round moves one state at a time, and becomes final only by publication from review. */
  ghost predicate MovesByOne(s: State, s': State, step: Step, week: int)
    requires week in s.rounds
  {
    && week in s'.rounds
    && Progress(s.rounds[week]) <= Progress(s'.rounds[week]) <= Progress(s.rounds[week]) + 1
    && (s'.rounds[week] == Final && s.rounds[week] != Final ==> step.StepPublish? && step.week == week && s.rounds[week] == Review)
  }

  lemma RoundsMoveByOne(s: State, step: Step, week: int)
    requires week in s.rounds
    ensures MovesByOne(s, Apply(s, step), step, week)
  {
    match step
    case StepCreateRound(w) => CreateMoves(s, w, week);
    case StepTransition(w, t) => TransitionMoves(s, w, t, week);
    case StepPublish(w, x) =>
      if Publish(s, w, x).Ok? {
        PublishCloses(s, w, x);
        ClosingMoves(s, Publish(s, w, x).value, w, x, week);
      }
    case StepMaterialise(r) => RowStepRounds(s, step);
    case StepPlay(p) => RowStepRounds(s, step);
    case StepAdvance(w, e) => AdvanceRounds(s, w, e);
    case StepRewind(w, e) => RewindRounds(s, w, e);
    case StepCorrect(m, v, x) => CorrectRounds(s, m, v, x);
  }

  lemma CreateMoves(s: State, w: int, week: int)
    requires week in s.rounds
    ensures MovesByOne(s, Kept(s, CreateRound(s, w)), StepCreateRound(w), week)
  {
  }

  lemma TransitionMoves(s: State, w: int, target: RoundState, week: int)
    requires week in s.rounds
    ensures MovesByOne(s, Kept(s, Transition(s, w, target)), StepTransition(w, target), week)
  {
  }

  lemma ClosingMoves(s: State, s': State, w: int, signoffs: map<nat, Signoff>, week: int)
    requires week in s.rounds && w in s.rounds && s.rounds[w] == Review && s'.rounds == s.rounds[w := Final]
    ensures MovesByOne(s, s', StepPublish(w, signoffs), week)
  {
  }

  lemma PublishCloses(s: State, w: int, signoffs: map<nat, Signoff>)
    requires Publish(s, w, signoffs).Ok?
    ensures Publish(s, w, signoffs).value.rounds == s.rounds[w := Final] && w in s.rounds && s.rounds[w] == Review
  {
  }

  lemma RowStepRounds(s: State, step: Step)
    requires step.StepMaterialise? || step.StepPlay?
    ensures Apply(s, step).rounds == s.rounds
  {
  }

  lemma AdvanceRounds(s: State, week: int, expected: Expected)
    ensures Kept(s, Advance(s, week, expected)).rounds == s.rounds
  {
    if Advance(s, week, expected).Ok? { AdvanceShape(s, week, expected); }
  }

  lemma RewindRounds(s: State, week: int, expected: Expected)
    ensures Kept(s, Rewind(s, week, expected)).rounds == s.rounds
  {
    if Rewind(s, week, expected).Ok? { RewoundRounds(s, week, expected); }
  }

  lemma RewoundRounds(s: State, week: int, expected: Expected)
    requires Rewind(s, week, expected).Ok?
    ensures Rewind(s, week, expected).value.rounds == s.rounds
  {
    RewindShape(s, week, expected);
    RewoundFrame(s, Derive(s, week).value);
  }

  lemma CorrectRounds(s: State, m: nat, oldVersion: Option<nat>, signoff: Signoff)
    ensures Kept(s, Correct(s, m, oldVersion, signoff)).rounds == s.rounds
  {
    if Correct(s, m, oldVersion, signoff).Ok? { CorrectionWrites(s, m, oldVersion, signoff); }
  }

  /** A week's round is created once, and starts upcoming. */
  lemma CreateRoundAcceptedIff(s: State, week: int)
    ensures CreateRound(s, week).Ok? <==> 1 <= week <= 4 && week !in s.rounds
    ensures CreateRound(s, week).Ok? ==> CreateRound(s, week).value == s.(rounds := s.rounds[week := Upcoming])
  {
  }

  /** A transition is accepted exactly along upcoming, open, live, review. */
  lemma TransitionAcceptedIff(s: State, week: int, target: RoundState)
    ensures Transition(s, week, target).Ok?
       <==> week in s.rounds && target != Final && Progress(target) == Progress(s.rounds[week]) + 1
  {
  }
}
