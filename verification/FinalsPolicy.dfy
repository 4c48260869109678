/** The correction policy: finals rounds have all their results, and exactly when a correction is accepted. */
module FinalsPolicy {
  import opened Options
  import opened FinalsTables
  import opened FinalsInvariant
  import opened FinalsSteps
  import opened FinalsRewind
  import opened FinalsCorrection

  // ----- A final round has all its results -----

  predicate IsFinal(s: State, week: int) {
    week in s.rounds && s.rounds[week] == Final
  }

  ghost predicate WeeksComplete(s: State) {
    forall slot: Slot :: slot != Bye && IsFinal(s, WeekOf(slot)) ==> ContestAt(s, slot).Ok?
  }

  /** A finals round is final exactly when every one of its contests is decided. */
  lemma FinalIffDecided(s: State, slot: Slot)
    requires Struct(s) && WeeksComplete(s) && slot != Bye
    ensures IsFinal(s, WeekOf(slot)) <==> ContestAt(s, slot).Ok?
  {
    if ContestAt(s, slot).Ok? {
      var m := ContestAt(s, slot).value.matchup;
      assert MatchupOk(s, m);
      assert RowMatchup(s, FindActive(s.pairings, slot).value);
    }
  }

  lemma CompleteFrame(s: State, s': State)
    requires WeeksComplete(s)
    requires forall w :: IsFinal(s', w) ==> IsFinal(s, w)
    requires forall slot: Slot :: ContestAt(s, slot).Ok? ==> ContestAt(s', slot).Ok?
    ensures WeeksComplete(s')
  {
  }

  /** As many matchups as the week has slots, and none of them shared: every slot is among them. */
  lemma PublishCoversWeek(s: State, week: int, signoffs: map<nat, Signoff>, slot: Slot)
    requires Struct(s) && Publish(s, week, signoffs).Ok? && slot != Bye && WeekOf(slot) == week
    ensures MatchupOf(s, slot).Ok? && MatchupOf(s, slot).value in signoffs
  {
    var ids := MatchupsOfWeek(s, week);
    assert signoffs.Keys == ids;
    if MatchupOf(s, slot).Ok? {
      assert RowMatchup(s, FindActive(s.pairings, slot).value);
    } else {
      forall m | m in ids ensures MatchupOf(s, Partner(slot)) == Ok(m) {
        assert MatchupOk(s, m);
        assert SlotAt(s.matchups[m].week, s.matchups[m].order) != slot;
      }
      var m0 := if MatchupOf(s, Partner(slot)).Ok? then MatchupOf(s, Partner(slot)).value else 0;
      assert ids <= {m0};
      SubsetCount(ids, {m0});
    }
  }

  lemma SubsetCount(a: set<nat>, b: set<nat>)
    requires a <= b
    ensures |a| <= |b|
  {
    if a != {} {
      var x :| x in a;
      SubsetCount(a - {x}, b - {x});
    }
  }

  /** The other contest of the same week, or the slot itself when it is alone. */
  function Partner(slot: Slot): Slot {
    match slot
    case QualifyingFinal => EliminationFinal
    case EliminationFinal => QualifyingFinal
    case SecondSemi => FirstSemi
    case FirstSemi => SecondSemi
    case _ => slot
  }

  lemma PublishRounds(s: State, week: int, signoffs: map<nat, Signoff>)
    requires Publish(s, week, signoffs).Ok?
    ensures Publish(s, week, signoffs).value.rounds == s.rounds[week := Final]
  {
  }

  lemma PublishCompletes(s: State, week: int, signoffs: map<nat, Signoff>)
    requires Struct(s) && WeeksComplete(s) && Publish(s, week, signoffs).Ok?
    ensures WeeksComplete(Publish(s, week, signoffs).value)
  {
    var s' := Publish(s, week, signoffs).value;
    PublishDoes(s, week, signoffs);
    PublishRounds(s, week, signoffs);
    forall slot: Slot | slot != Bye && IsFinal(s', WeekOf(slot)) ensures ContestAt(s', slot).Ok? {
      if WeekOf(slot) == week {
        PublishCoversWeek(s, week, signoffs, slot);
        PublishedContest(s, s', signoffs.Keys, slot, MatchupOf(s, slot).value);
      } else {
        assert IsFinal(s, WeekOf(slot));
        PublishContest(s, s', signoffs.Keys, slot);
      }
    }
  }

  lemma AppendCompletes(s: State, slot: Slot, m: nat, version: nat, score: Score)
    requires Struct(s) && WeeksComplete(s) && Correctable(s, slot, m, version)
    ensures WeeksComplete(AppendResult(s, m, version + 1, score))
  {
    var s1 := AppendResult(s, m, version + 1, score);
    forall other: Slot | ContestAt(s, other).Ok? ensures ContestAt(s1, other).Ok? {
      AppendContest(s, slot, m, version, score, other);
      CorrectedContest(s, slot, m, version, score);
    }
    CompleteFrame(s, s1);
  }

  lemma ResettleCompletes(s: State, slot: Slot, m: nat, version: nat, score: Score, d: Derivation)
    requires Inv(s) && WeeksComplete(s) && Correctable(s, slot, m, version) && slot != GrandFinal
    requires Derive(AppendResult(s, m, version + 1, score), WeekOf(slot)) == Ok(d)
    requires !AnyBlocked(AppendResult(s, m, version + 1, score), d)
    ensures WeeksComplete(Rewound(AppendResult(s, m, version + 1, score), d))
  {
    var s1 := AppendResult(s, m, version + 1, score);
    AppendCompletes(s, slot, m, version, score);
    ResettleCase(s, slot, m, version, score, d);
    if WeakLink(s1, d) { RewoundCompletes(s1, WeekOf(slot), d); }
  }

  lemma RewoundCompletes(s: State, week: int, d: Derivation)
    requires Struct(s) && WeeksComplete(s) && 1 <= week <= 3 && DerivedFor(s, week, d) && d.stage == StageAfter(week)
    requires WeakLink(s, d) && !AnyBlocked(s, d)
    ensures WeeksComplete(Rewound(s, d))
  {
    RewoundKeeps(s, week, d);
    RewoundFrame(s, d);
    ConfinedCompletes(s, Rewound(s, d), week);
  }

  lemma ConfinedCompletes(s: State, s': State, week: int)
    requires WeeksComplete(s) && Confined(s, s', week) && s'.rounds == s.rounds
    ensures WeeksComplete(s')
  {
    forall slot: Slot | ContestAt(s, slot).Ok? ensures ContestAt(s', slot).Ok? {
      assert SameContest(s, s', slot);
    }
    CompleteFrame(s, s');
  }

  lemma CorrectCompletes(s: State, m: nat, oldVersion: Option<nat>, signoff: Signoff)
    requires Inv(s) && WeeksComplete(s) && Correct(s, m, oldVersion, signoff).Ok?
    ensures WeeksComplete(Correct(s, m, oldVersion, signoff).value)
  {
    CorrectShape(s, m, oldVersion, signoff);
    assert MatchupOk(s, m);
    if s.matchups[m].week < 4 {
      CorrectEarlierCompletes(s, m, oldVersion.value, signoff.score, SourceMatchups(s, s.matchups[m].week).value);
    } else {
      CorrectGrandFinalCompletes(s, SlotOf(s, m), m, oldVersion.value, signoff.score);
    }
  }

  lemma CorrectGrandFinalCompletes(s: State, slot: Slot, m: nat, version: nat, score: Score)
    requires Struct(s) && WeeksComplete(s) && Correctable(s, slot, m, version)
    ensures WeeksComplete(CorrectGrandFinal(s, m, version, score))
  {
    AppendCompletes(s, slot, m, version, score);
    PremiersComplete(AppendResult(s, m, version + 1, score), CorrectGrandFinal(s, m, version, score).premiers);
  }

  lemma PremiersComplete(s: State, premiers: seq<Entry>)
    requires WeeksComplete(s)
    ensures WeeksComplete(s.(premiers := premiers))
  {
    forall slot: Slot ensures ContestAt(s.(premiers := premiers), slot) == ContestAt(s, slot) {
      PremiersContest(s, premiers, slot);
    }
    CompleteFrame(s, s.(premiers := premiers));
  }

  lemma CorrectEarlierCompletes(s: State, m: nat, version: nat, score: Score, ids: (nat, nat))
    requires Inv(s) && WeeksComplete(s) && m < |s.matchups| && Correctable(s, SlotOf(s, m), m, version) && s.matchups[m].week < 4
    requires CorrectAndRewind(s, m, version, score, ids).Ok?
    ensures WeeksComplete(CorrectAndRewind(s, m, version, score, ids).value)
  {
    assert MatchupOk(s, m);
    var s1 := AppendResult(s, m, version + 1, score);
    RewindShape(s1, s.matchups[m].week, ObservedVersions(s1, ids));
    ResettleCompletes(s, SlotOf(s, m), m, version, score, Derive(s1, s.matchups[m].week).value);
  }

  lemma SameTablesComplete(s: State, s': State)
    requires WeeksComplete(s) && SameBracketTables(s, s') && forall w :: IsFinal(s', w) ==> IsFinal(s, w)
    ensures WeeksComplete(s')
  {
    forall slot: Slot ensures ContestAt(s', slot) == ContestAt(s, slot) {
      SameTablesContest(s, s', slot);
    }
    CompleteFrame(s, s');
  }

  lemma AdvanceCompletes(s: State, week: int, d: Derivation)
    requires Struct(s) && WeeksComplete(s) && 1 <= week <= 3 && Underived(s, week) && Derive(s, week) == Ok(d)
    ensures WeeksComplete(AdvancedTables(s, d))
  {
    AdvanceTables(s, week, d);
    ConfinedCompletes(s, AdvancedTables(s, d), week);
  }

  lemma MaterialiseCompletes(s: State, row: nat)
    requires Struct(s) && WeeksComplete(s) && Materialise(s, row).Ok?
    ensures WeeksComplete(Materialise(s, row).value)
  {
    MaterialiseStruct(s, row);
    forall slot: Slot | ContestAt(s, slot).Ok? ensures ContestAt(Materialise(s, row).value, slot).Ok? {
      assert SameContest(s, Materialise(s, row).value, slot);
    }
    CompleteFrame(s, Materialise(s, row).value);
  }

  lemma AdvanceStepCompletes(s: State, week: int, expected: Expected)
    requires Inv(s) && WeeksComplete(s) && Advance(s, week, expected).Ok?
    ensures WeeksComplete(Advance(s, week, expected).value)
  {
    AdvanceShape(s, week, expected);
    NotAdvancedYet(s, week);
    AdvanceCompletes(s, week, Derive(s, week).value);
  }

  lemma SmallStepCompletes(s: State, step: Step)
    requires Inv(s) && WeeksComplete(s) && Attempt(s, step).Ok? && (step.StepCreateRound? || step.StepTransition? || step.StepPlay?)
    ensures WeeksComplete(Apply(s, step))
  {
    SmallStepTables(s, step);
    SameTablesComplete(s, Attempt(s, step).value);
  }

  lemma StepCompletes(s: State, step: Step)
    requires Inv(s) && WeeksComplete(s)
    ensures WeeksComplete(Apply(s, step))
  {
    if Attempt(s, step).Ok? {
      match step
      case StepCreateRound(w) => SmallStepCompletes(s, step);
      case StepTransition(w, t) => SmallStepCompletes(s, step);
      case StepMaterialise(r) => MaterialiseCompletes(s, r);
      case StepPlay(p) => SmallStepCompletes(s, step);
      case StepPublish(w, x) => PublishCompletes(s, w, x);
      case StepAdvance(w, e) => AdvanceStepCompletes(s, w, e);
      case StepRewind(w, e) => RewindIsNoOp(s, w, e);
      case StepCorrect(m, v, x) => CorrectCompletes(s, m, v, x);
    }
  }

  lemma {:induction false} RunCompletes(s: State, steps: seq<Step>)
    requires Inv(s) && WeeksComplete(s)
    ensures Inv(Run(s, steps)) && WeeksComplete(Run(s, steps))
    decreases |steps|
  {
    if steps != [] {
      StepKeeps(s, steps[0]);
      StepCompletes(s, steps[0]);
      RunCompletes(Apply(s, steps[0]), steps[1..]);
    }
  }

  // ----- When a correction is accepted -----

  /** The pairings of the next week that a contest's result takes part in deriving. */
  function Dependents(slot: Slot): seq<Slot> {
    match slot
    case QualifyingFinal => [SecondSemi, FirstSemi]
    case EliminationFinal => [FirstSemi]
    case SecondSemi | FirstSemi => [Preliminary]
    case Preliminary => [GrandFinal]
    case _ => []
  }

  /** A pairing of the slot exists and somebody has begun to play it. */
  predicate InPlay(s: State, slot: Slot) {
    var i := FindActive(s.pairings, slot);
    i.Some? && HasPlayState(s, i.value)
  }

  lemma BothSourcesDecided(s: State, slot: Slot, m: nat, version: nat)
    requires Struct(s) && Link(s, 2) && WeeksComplete(s) && Correctable(s, slot, m, version) && slot != GrandFinal
    ensures ContestAt(s, SourceSlots(WeekOf(slot)).0).Ok? && ContestAt(s, SourceSlots(WeekOf(slot)).1).Ok?
  {
    assert MatchupOk(s, m) && RowMatchup(s, FindActive(s.pairings, slot).value);
    assert IsFinal(s, WeekOf(slot));
    if slot == Preliminary {
      assert Derivable(s, 2);
    }
  }

  lemma SourcesLock(s: State, ids: (nat, nat))
    requires ids.0 < |s.matchups| && ids.1 < |s.matchups|
    requires s.matchups[ids.0].effective.Some? && s.matchups[ids.1].effective.Some?
    ensures CompleteExpected(ids, ObservedVersions(s, ids)) && LockSources(s, ids, ObservedVersions(s, ids)).Ok?
  {
  }

  /** With its sources decided and observed, a rewind is refused only by play state. */
  lemma RewindOutcome(s: State, week: int)
    requires 1 <= week <= 3 && |s.seeds| > 0
    requires ContestAt(s, SourceSlots(week).0).Ok? && ContestAt(s, SourceSlots(week).1).Ok?
    ensures SourceMatchups(s, week).Ok? && Derive(s, week).Ok?
    ensures Rewind(s, week, ObservedVersions(s, SourceMatchups(s, week).value)).Ok? <==> !AnyBlocked(s, Derive(s, week).value)
  {
    SourcesLock(s, SourceMatchups(s, week).value);
  }

  lemma AppendPlayState(s: State, slot: Slot, m: nat, version: nat, score: Score, i: nat)
    requires Correctable(s, slot, m, version) && i < |s.pairings|
    ensures HasPlayState(AppendResult(s, m, version + 1, score), i) == HasPlayState(s, i)
  {
  }

  /** After the new version is appended, exactly the dependents of the corrected contest disagree with it. */
  lemma ChangedAreDependents(s: State, slot: Slot, m: nat, version: nat, score: Score, d: Derivation, k: nat)
    requires Struct(s) && Link(s, WeekOf(slot)) && Correctable(s, slot, m, version) && slot != GrandFinal
    requires Derive(AppendResult(s, m, version + 1, score), WeekOf(slot)) == Ok(d) && k < |d.pairings|
    ensures var s1 := AppendResult(s, m, version + 1, score);
            Changed(s1, d.pairings[k])
            <==> d.pairings[k].slot in Dependents(slot) && FindActive(s.pairings, d.pairings[k].slot).Some?
  {
    var week := WeekOf(slot);
    var s1 := AppendResult(s, m, version + 1, score);
    DerivedSlots(s1, week);
    var target := d.pairings[k].slot;
    AppendContest(s, slot, m, version, score, target);
    if FindActive(s.pairings, target).Some? {
      assert target in TargetSlots(week);
      DerivableRow(s, week, k);
      DerivedAgain(s, slot, m, version, score, d, k);
    }
  }

  /** The new version shows in the derived rows that depend on the corrected contest, and in no other. */
  lemma DerivedAgain(s: State, slot: Slot, m: nat, version: nat, score: Score, d: Derivation, k: nat)
    requires Struct(s) && Correctable(s, slot, m, version) && slot != GrandFinal
    requires Derive(s, WeekOf(slot)).Ok? && Derive(AppendResult(s, m, version + 1, score), WeekOf(slot)) == Ok(d) && k < |d.pairings|
    requires k < |Derive(s, WeekOf(slot)).value.pairings|
    ensures var was, now := Derive(s, WeekOf(slot)).value.pairings[k], d.pairings[k];
            if now.slot in Dependents(slot) then
              now.source1.version != was.source1.version
              || (was.source2.Some? && now.source2.Some? && now.source2.value.version != was.source2.value.version)
            else now == was
  {
    AppendContest(s, slot, m, version, score, SourceSlots(WeekOf(slot)).0);
    AppendContest(s, slot, m, version, score, SourceSlots(WeekOf(slot)).1);
    CorrectedContest(s, slot, m, version, score);
  }

  lemma DerivableRow(s: State, week: int, k: nat)
    requires 1 <= week <= 3 && Derivable(s, week) && k < |TargetSlots(week)|
    ensures k < |Derive(s, week).value.pairings| && RowMatches(s, Derive(s, week).value.pairings[k])
    ensures Derive(s, week).value.pairings[k].slot == TargetSlots(week)[k]
  {
    DerivedSlots(s, week);
  }

  lemma BlockedRow(s: State, slot: Slot, m: nat, version: nat, score: Score, d: Derivation, k: nat)
    requires Struct(s) && Link(s, WeekOf(slot)) && Correctable(s, slot, m, version) && slot != GrandFinal
    requires Derive(AppendResult(s, m, version + 1, score), WeekOf(slot)) == Ok(d) && k < |d.pairings|
    ensures Blocked(AppendResult(s, m, version + 1, score), d.pairings[k])
       <==> d.pairings[k].slot in Dependents(slot) && InPlay(s, d.pairings[k].slot)
  {
    ChangedAreDependents(s, slot, m, version, score, d, k);
    AppendContest(s, slot, m, version, score, d.pairings[k].slot);
    var i := FindActive(s.pairings, d.pairings[k].slot);
    if i.Some? { AppendPlayState(s, slot, m, version, score, i.value); }
  }

  lemma BlockedIffInPlay(s: State, slot: Slot, m: nat, version: nat, score: Score, d: Derivation)
    requires Struct(s) && Link(s, WeekOf(slot)) && Correctable(s, slot, m, version) && slot != GrandFinal
    requires Derive(AppendResult(s, m, version + 1, score), WeekOf(slot)) == Ok(d)
    ensures AnyBlocked(AppendResult(s, m, version + 1, score), d)
       <==> exists i :: 0 <= i < |s.pairings| && s.pairings[i].active && s.pairings[i].slot in Dependents(slot)
                        && var p := s.pairings[i];
                           || (WeekOf(p.slot), p.home) in s.play.lineups
                           || (p.away.Some? && (WeekOf(p.slot), p.away.value) in s.play.lineups)
                           || WeekOf(p.slot) in s.play.activations
                           || (p.matchup.Some? && (p.matchup.value in s.play.rulings || p.matchup.value in s.play.calculations))
                           || (p.matchup.Some? && p.matchup.value < |s.matchups| && s.matchups[p.matchup.value].effective.Some?)
  {
    DependentsBlock(s, slot, m, version, score, d);
    StartedMeans(s, Dependents(slot));
  }

  /** Somebody has begun to play one of these slots: in terms of the five tables that record it. */
  lemma StartedMeans(s: State, slots: seq<Slot>)
    requires Unique(s.pairings)
    ensures (exists t :: t in slots && InPlay(s, t))
       <==> exists i :: 0 <= i < |s.pairings| && s.pairings[i].active && s.pairings[i].slot in slots
                        && var p := s.pairings[i];
                           || (WeekOf(p.slot), p.home) in s.play.lineups
                           || (p.away.Some? && (WeekOf(p.slot), p.away.value) in s.play.lineups)
                           || WeekOf(p.slot) in s.play.activations
                           || (p.matchup.Some? && (p.matchup.value in s.play.rulings || p.matchup.value in s.play.calculations))
                           || (p.matchup.Some? && p.matchup.value < |s.matchups| && s.matchups[p.matchup.value].effective.Some?)
  {
    if t :| t in slots && InPlay(s, t) {
      var i := FindActive(s.pairings, t).value;
      assert s.pairings[i].active && s.pairings[i].slot in slots && HasPlayState(s, i);
    }
    forall i | 0 <= i < |s.pairings| && s.pairings[i].active ensures FindActive(s.pairings, s.pairings[i].slot) == Some(i) {
      FindIs(s.pairings, s.pairings[i].slot, i);
    }
    if i :| 0 <= i < |s.pairings| && s.pairings[i].active && s.pairings[i].slot in slots && HasPlayState(s, i) {
      assert InPlay(s, s.pairings[i].slot);
    }
  }

  lemma DependentsBlock(s: State, slot: Slot, m: nat, version: nat, score: Score, d: Derivation)
    requires Struct(s) && Link(s, WeekOf(slot)) && Correctable(s, slot, m, version) && slot != GrandFinal
    requires Derive(AppendResult(s, m, version + 1, score), WeekOf(slot)) == Ok(d)
    ensures AnyBlocked(AppendResult(s, m, version + 1, score), d) <==> exists t :: t in Dependents(slot) && InPlay(s, t)
  {
    var s1 := AppendResult(s, m, version + 1, score);
    DerivedSlots(s1, WeekOf(slot));
    forall k | 0 <= k < |d.pairings|
      ensures Blocked(s1, d.pairings[k]) <==> d.pairings[k].slot in Dependents(slot) && InPlay(s, d.pairings[k].slot)
    {
      BlockedRow(s, slot, m, version, score, d, k);
    }
    if t :| t in Dependents(slot) && InPlay(s, t) {
      var k := if TargetSlots(WeekOf(slot))[0] == t then 0 else 1;
      assert d.pairings[k].slot == t;
    }
  }

  /**
   The correction policy, in full: a correction is accepted exactly when it was
   assembled from the result, review and calculation now in force, and nobody
   has begun to play a pairing that its contest helped to derive: no lineup by
   either side, no activation in its week, no ruling, calculation or result.
   */
  lemma CorrectionAcceptedIff(s: State, m: nat, oldVersion: Option<nat>, signoff: Signoff)
    requires Inv(s) && WeeksComplete(s) && m < |s.matchups|
    ensures Correct(s, m, oldVersion, signoff).Ok?
       <==> && oldVersion.Some? && s.matchups[m].effective == oldVersion
            && s.matchups[m].reviewVersion == signoff.reviewVersion
            && m in s.play.calculations && s.play.calculations[m] == signoff.calculation
            && forall i :: 0 <= i < |s.pairings| && s.pairings[i].active && s.pairings[i].slot in Dependents(SlotOf(s, m)) ==>
                 var p := s.pairings[i];
                 && (WeekOf(p.slot), p.home) !in s.play.lineups
                 && (p.away.Some? ==> (WeekOf(p.slot), p.away.value) !in s.play.lineups)
                 && WeekOf(p.slot) !in s.play.activations
                 && (p.matchup.Some? ==> p.matchup.value !in s.play.rulings && p.matchup.value !in s.play.calculations)
                 && (p.matchup.Some? && p.matchup.value < |s.matchups| ==> s.matchups[p.matchup.value].effective.None?)
  {
    CorrectionDecided(s, m, oldVersion, signoff);
    StartedMeans(s, Dependents(SlotOf(s, m)));
  }

  lemma CorrectionDecided(s: State, m: nat, oldVersion: Option<nat>, signoff: Signoff)
    requires Inv(s) && WeeksComplete(s) && m < |s.matchups|
    ensures Correct(s, m, oldVersion, signoff).Ok?
       <==> && oldVersion.Some? && s.matchups[m].effective == oldVersion
            && SnapshotCurrent(s, m, signoff.reviewVersion, signoff.calculation)
            && !(exists t :: t in Dependents(SlotOf(s, m)) && InPlay(s, t))
  {
    assert MatchupOk(s, m);
    var slot := SlotOf(s, m);
    if oldVersion.Some? && s.matchups[m].effective == oldVersion && SnapshotCurrent(s, m, signoff.reviewVersion, signoff.calculation) {
      if slot != GrandFinal {
        CurrentCorrectionOutcome(s, slot, m, oldVersion.value, signoff.score);
        CurrentCorrection(s, m, oldVersion.value, signoff);
      } else {
        CurrentGrandFinal(s, m, oldVersion.value, signoff);
      }
    } else {
      StaleCorrection(s, m, oldVersion, signoff);
    }
  }

  lemma CurrentGrandFinal(s: State, m: nat, version: nat, signoff: Signoff)
    requires m < |s.matchups| && s.matchups[m].effective == Some(version)
    requires SnapshotCurrent(s, m, signoff.reviewVersion, signoff.calculation)
    requires MatchupOf(s, SlotOf(s, m)) == Ok(m) && s.matchups[m].week >= 4
    ensures Correct(s, m, Some(version), signoff).Ok?
  {
  }

  lemma StaleCorrection(s: State, m: nat, oldVersion: Option<nat>, signoff: Signoff)
    requires m < |s.matchups|
    requires oldVersion.None? || s.matchups[m].effective != oldVersion || !SnapshotCurrent(s, m, signoff.reviewVersion, signoff.calculation)
    ensures Correct(s, m, oldVersion, signoff).Err?
  {
  }

  lemma CurrentCorrection(s: State, m: nat, version: nat, signoff: Signoff)
    requires m < |s.matchups| && s.matchups[m].effective == Some(version)
    requires SnapshotCurrent(s, m, signoff.reviewVersion, signoff.calculation)
    requires MatchupOf(s, SlotOf(s, m)) == Ok(m) && s.matchups[m].week < 4 && SourceMatchups(s, s.matchups[m].week).Ok?
    ensures Correct(s, m, Some(version), signoff)
         == CorrectAndRewind(s, m, version, signoff.score, SourceMatchups(s, s.matchups[m].week).value)
  {
  }

  lemma CurrentCorrectionOutcome(s: State, slot: Slot, m: nat, version: nat, score: Score)
    requires Inv(s) && WeeksComplete(s) && Correctable(s, slot, m, version) && slot != GrandFinal
    requires s.matchups[m].week == WeekOf(slot)
    ensures SourceMatchups(s, WeekOf(slot)).Ok?
    ensures CorrectAndRewind(s, m, version, score, SourceMatchups(s, WeekOf(slot)).value).Ok?
       <==> forall t :: t in Dependents(slot) ==> !InPlay(s, t)
  {
    var week := WeekOf(slot);
    var s1 := AppendResult(s, m, version + 1, score);
    SourcesStayDecided(s, slot, m, version, score);
    RewindOutcome(s1, week);
    assert Link(s, week);
    DependentsBlock(s, slot, m, version, score, Derive(s1, week).value);
  }

  lemma SourcesStayDecided(s: State, slot: Slot, m: nat, version: nat, score: Score)
    requires Struct(s) && Link(s, 2) && WeeksComplete(s) && Correctable(s, slot, m, version) && slot != GrandFinal
    ensures var s1 := AppendResult(s, m, version + 1, score);
            && ContestAt(s1, SourceSlots(WeekOf(slot)).0).Ok? && ContestAt(s1, SourceSlots(WeekOf(slot)).1).Ok?
            && SourceMatchups(s, WeekOf(slot)).Ok? && SourceMatchups(s1, WeekOf(slot)) == SourceMatchups(s, WeekOf(slot))
  {
    BothSourcesDecided(s, slot, m, version);
    CorrectionFeeders(s, slot, m, version, score, SourceSlots(WeekOf(slot)).0);
    CorrectionFeeders(s, slot, m, version, score, SourceSlots(WeekOf(slot)).1);
    AppendContest(s, slot, m, version, score, SourceSlots(WeekOf(slot)).0);
    AppendContest(s, slot, m, version, score, SourceSlots(WeekOf(slot)).1);
  }
}
