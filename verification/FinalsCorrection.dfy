/** Rewinding a settled bracket changes nothing; correcting a result re-settles it or is refused. */
module FinalsCorrection {
  import opened Options
  import opened FinalsTables
  import opened FinalsInvariant
  import opened FinalsSteps
  import opened FinalsRewind

  // ----- A rewind of a settled bracket -----

  lemma DerivableUnchanged(s: State, week: int)
    requires 1 <= week <= 3 && Derivable(s, week)
    ensures !ChangeNeeded(s, Derive(s, week).value)
  {
    var d := Derive(s, week).value;
    forall k | 0 <= k < |d.pairings| ensures !Changed(s, d.pairings[k]) {
      assert RowMatches(s, d.pairings[k]);
    }
  }

  lemma UnderivedUnchanged(s: State, week: int, d: Derivation)
    requires 1 <= week <= 3 && Underived(s, week) && DerivedFor(s, week, d) && d.stage == StageAfter(week)
    ensures !ChangeNeeded(s, d)
  {
    forall k | 0 <= k < |d.pairings| ensures !Changed(s, d.pairings[k]) {
      assert d.pairings[k].slot in TargetSlots(week);
    }
  }

  lemma UnchangedRewound(s: State, d: Derivation)
    requires !ChangeNeeded(s, d)
    ensures Rewound(s, d) == s && !AnyBlocked(s, d)
  {
  }

  /** In a settled bracket a rewind derives just the rows it finds: whatever it is asked, it changes nothing. */
  lemma RewindIsNoOp(s: State, week: int, expected: Expected)
    requires Inv(s) && Rewind(s, week, expected).Ok?
    ensures Rewind(s, week, expected).value == s
    ensures Derive(s, week).Ok? && !ChangeNeeded(s, Derive(s, week).value)
  {
    RewindShape(s, week, expected);
    SettledRewound(s, week);
  }

  lemma SettledRewound(s: State, week: int)
    requires Inv(s) && 1 <= week <= 3 && Derive(s, week).Ok?
    ensures Rewound(s, Derive(s, week).value) == s && !ChangeNeeded(s, Derive(s, week).value)
  {
    assert Link(s, week);
    SettledWeek(s, week);
    UnchangedRewound(s, Derive(s, week).value);
  }

  /** A linked week already is what its derivation says. */
  lemma SettledWeek(s: State, week: int)
    requires Struct(s) && 1 <= week <= 3 && Link(s, week) && Derive(s, week).Ok?
    ensures !ChangeNeeded(s, Derive(s, week).value)
  {
    DerivedSlots(s, week);
    DerivedSeeded(s, week);
    if Underived(s, week) { UnderivedUnchanged(s, week, Derive(s, week).value); } else { DerivableUnchanged(s, week); }
  }

  lemma RewindShape(s: State, week: int, expected: Expected)
    requires Rewind(s, week, expected).Ok?
    ensures 1 <= week <= 3 && Derive(s, week).Ok?
    ensures !AnyBlocked(s, Derive(s, week).value)
    ensures Rewind(s, week, expected).value == Rewound(s, Derive(s, week).value)
  {
  }

  // ----- Appending a corrected version -----

  lemma HeldOnce(s: State, a: Slot, b: Slot)
    requires Struct(s) && MatchupOf(s, a).Ok? && MatchupOf(s, b) == MatchupOf(s, a)
    ensures a == b
  {
    var i, j := FindActive(s.pairings, a).value, FindActive(s.pairings, b).value;
    assert RowMatchup(s, i) && RowMatchup(s, j) && RowOk(s.pairings, i) && RowOk(s.pairings, j);
    SlotAtOrder(a);
    SlotAtOrder(b);
  }

  ghost predicate Correctable(s: State, slot: Slot, m: nat, version: nat) {
    && slot != Bye && MatchupOf(s, slot) == Ok(m) && m < |s.matchups|
    && s.matchups[m].effective == Some(version)
  }

  lemma AppendStruct(s: State, slot: Slot, m: nat, version: nat, score: Score)
    requires Struct(s) && Correctable(s, slot, m, version)
    ensures Struct(AppendResult(s, m, version + 1, score))
  {
    var s' := AppendResult(s, m, version + 1, score);
    forall k | 0 <= k < |s'.matchups| ensures MatchupOk(s', k) {
      assert MatchupOk(s, k);
    }
    forall i | 0 <= i < |s'.pairings| ensures RowMatchup(s', i) && Seeded(s', i) {
      assert RowMatchup(s, i) && Seeded(s, i);
    }
    forall r | r in s'.results ensures ResultOk(s', r) {
      if r in s.results { assert ResultOk(s, r); }
    }
  }

  lemma AppendContest(s: State, slot: Slot, m: nat, version: nat, score: Score, other: Slot)
    requires Struct(s) && Correctable(s, slot, m, version)
    ensures var s' := AppendResult(s, m, version + 1, score);
            && SameRow(s, s', other)
            && MatchupOf(s', other) == MatchupOf(s, other)
            && (other != slot ==> ContestAt(s', other) == ContestAt(s, other))
  {
    if MatchupOf(s, other) == Ok(m) { HeldOnce(s, slot, other); }
  }

  lemma CorrectedContest(s: State, slot: Slot, m: nat, version: nat, score: Score)
    requires Struct(s) && Correctable(s, slot, m, version)
    ensures ContestAt(s, slot).Ok?
    ensures var c := ContestAt(s, slot).value;
            && c.matchup == m && c.version == version
            && ContestAt(AppendResult(s, m, version + 1, score), slot) == Ok(c.(version := version + 1, score := score))
  {
    assert MatchupOk(s, m);
    var i := FindActive(s.pairings, slot).value;
    assert RowOk(s.pairings, i) && RowMatchup(s, i);
    assert Source(m, version) in s.results;
  }

  // ----- Re-settling -----

  /** Two states whose contests differ at most in version and score derive from the same matchups and rows. */
  ghost predicate SameFeeders(s: State, s': State, slot: Slot) {
    ContestAt(s, slot).Ok? && ContestAt(s', slot).Ok?
    && ContestAt(s, slot).value.row == ContestAt(s', slot).value.row
    && ContestAt(s, slot).value.matchup == ContestAt(s', slot).value.matchup
  }

  lemma DerivableWeak(s: State, s': State, week: int, d: Derivation)
    requires 1 <= week <= 3 && Derivable(s, week) && s'.eliminations == s.eliminations
    requires SameFeeders(s, s', SourceSlots(week).0) && SameFeeders(s, s', SourceSlots(week).1)
    requires forall slot: Slot :: SameRow(s, s', slot)
    requires Derive(s', week) == Ok(d)
    ensures WeakLink(s', d)
  {
    var d0 := Derive(s, week).value;
    DerivedSlots(s, week);
    DerivedSlots(s', week);
    forall k | 0 <= k < |d.pairings| ensures WeakRow(s', d.pairings[k]) {
      assert RowMatches(s, d0.pairings[k]);
      assert SameRow(s, s', d.pairings[k].slot);
    }
  }

  /** A Grand Final cannot exist while the Preliminary Final is unplayed. */
  lemma NoGrandFinalYet(s: State)
    requires Link(s, 3) && ContestAt(s, Preliminary).Err?
    ensures Underived(s, 3)
  {
  }

  /** Correcting the Second Semi once the Preliminary Final is played is refused: the Preliminary's sources moved. */
  lemma PlayedPreliminaryBlocks(s: State, d: Derivation)
    requires ContestAt(s, Preliminary).Ok? && Derive(s, 2) == Ok(d)
    requires var p := s.pairings[FindActive(s.pairings, Preliminary).value];
             p.source1.None? || p.source1.value.version != d.pairings[0].source1.version
    ensures AnyBlocked(s, d)
  {
    assert Blocked(s, d.pairings[0]);
  }

  /** Besides its own week a contest feeds no other, but for the Second Semi, which also feeds the Grand Final. */
  lemma CorrectionOtherLinks(s: State, slot: Slot, m: nat, version: nat, score: Score, w: int)
    requires Struct(s) && 1 <= w <= 3 && Link(s, w) && Correctable(s, slot, m, version) && w != WeekOf(slot)
    requires slot == SecondSemi && w == 3 ==> ContestAt(s, Preliminary).Err?
    ensures Link(AppendResult(s, m, version + 1, score), w)
  {
    if slot == SecondSemi && w == 3 {
      AppendContest(s, slot, m, version, score, GrandFinal);
      NoGrandFinalYet(s);
      assert Underived(AppendResult(s, m, version + 1, score), 3);
    } else {
      CorrectionUnrelatedLink(s, slot, m, version, score, w);
    }
  }

  /** A week that the corrected contest does not feed is derived as before. */
  lemma CorrectionUnrelatedLink(s: State, slot: Slot, m: nat, version: nat, score: Score, w: int)
    requires Struct(s) && Link(s, w) && Correctable(s, slot, m, version) && 1 <= w <= 3
    requires slot != SourceSlots(w).0 && slot != SourceSlots(w).1
    ensures Link(AppendResult(s, m, version + 1, score), w)
  {
    var s1 := AppendResult(s, m, version + 1, score);
    AppendContest(s, slot, m, version, score, SourceSlots(w).0);
    AppendContest(s, slot, m, version, score, SourceSlots(w).1);
    forall target | target in TargetSlots(w) ensures SameRow(s, s1, target) {
      AppendContest(s, slot, m, version, score, target);
    }
    LinkFrame(s, s1, w);
  }

  lemma CorrectionBase(s: State, slot: Slot, m: nat, version: nat, score: Score)
    requires Inv(s) && Correctable(s, slot, m, version) && slot != GrandFinal
    ensures Base(AppendResult(s, m, version + 1, score)) && PremierOk(AppendResult(s, m, version + 1, score))
  {
    AppendContest(s, slot, m, version, score, Bye);
    AppendContest(s, slot, m, version, score, QualifyingFinal);
    AppendContest(s, slot, m, version, score, EliminationFinal);
    AppendContest(s, slot, m, version, score, GrandFinal);
  }

  lemma CorrectionFeeders(s: State, slot: Slot, m: nat, version: nat, score: Score, other: Slot)
    requires Struct(s) && Correctable(s, slot, m, version) && ContestAt(s, other).Ok?
    ensures SameFeeders(s, AppendResult(s, m, version + 1, score), other)
  {
    AppendContest(s, slot, m, version, score, other);
    CorrectedContest(s, slot, m, version, score);
  }

  /** The week below a corrected contest is either not derived yet, or was derived from the same two matchups. */
  lemma ResettleCase(s: State, slot: Slot, m: nat, version: nat, score: Score, d: Derivation)
    requires Inv(s) && Correctable(s, slot, m, version) && slot != GrandFinal
    requires Derive(AppendResult(s, m, version + 1, score), WeekOf(slot)) == Ok(d)
    ensures Struct(AppendResult(s, m, version + 1, score))
    ensures DerivedFor(AppendResult(s, m, version + 1, score), WeekOf(slot), d) && d.stage == StageAfter(WeekOf(slot))
    ensures var s1 := AppendResult(s, m, version + 1, score);
            (Underived(s1, WeekOf(slot)) && Rewound(s1, d) == s1) || WeakLink(s1, d)
  {
    var week := WeekOf(slot);
    var s1 := AppendResult(s, m, version + 1, score);
    AppendStruct(s, slot, m, version, score);
    forall other: Slot ensures SameRow(s, s1, other) {
      AppendContest(s, slot, m, version, score, other);
    }
    DerivedSlots(s1, week);
    DerivedSeeded(s1, week);
    assert Link(s, week);
    if Underived(s, week) {
      forall target | target in TargetSlots(week) ensures FindActive(s1.pairings, target).None? {
        assert SameRow(s, s1, target);
      }
      UnderivedUnchanged(s1, week, d);
      UnchangedRewound(s1, d);
    } else {
      CorrectionFeeders(s, slot, m, version, score, SourceSlots(week).0);
      CorrectionFeeders(s, slot, m, version, score, SourceSlots(week).1);
      DerivableWeak(s, s1, week, d);
    }
  }

  lemma CorrectionResettles(s: State, slot: Slot, m: nat, version: nat, score: Score, d: Derivation)
    requires Inv(s) && Correctable(s, slot, m, version) && slot != GrandFinal
    requires Derive(AppendResult(s, m, version + 1, score), WeekOf(slot)) == Ok(d)
    requires !AnyBlocked(AppendResult(s, m, version + 1, score), d)
    requires slot == SecondSemi ==> ContestAt(s, Preliminary).Err?
    ensures Inv(Rewound(AppendResult(s, m, version + 1, score), d))
  {
    var week := WeekOf(slot);
    var s1 := AppendResult(s, m, version + 1, score);
    CorrectionBase(s, slot, m, version, score);
    CorrectionLinks(s, slot, m, version, score);
    ResettleCase(s, slot, m, version, score, d);
    RewindSettles(s1, week, d);
  }

  lemma RewindSettles(s: State, week: int, d: Derivation)
    requires Struct(s) && Base(s) && PremierOk(s) && 1 <= week <= 3 && Derive(s, week) == Ok(d)
    requires DerivedFor(s, week, d) && d.stage == StageAfter(week) && !AnyBlocked(s, d)
    requires (Underived(s, week) && Rewound(s, d) == s) || WeakLink(s, d)
    requires forall w :: 1 <= w <= 3 && w != week ==> Link(s, w)
    ensures Inv(Rewound(s, d))
  {
    if WeakLink(s, d) { RewoundSettles(s, week, d); } else { AlreadySettled(s, week); }
  }

  lemma CorrectionLinks(s: State, slot: Slot, m: nat, version: nat, score: Score)
    requires Inv(s) && Correctable(s, slot, m, version)
    requires slot == SecondSemi ==> ContestAt(s, Preliminary).Err?
    ensures var s1 := AppendResult(s, m, version + 1, score);
            forall w :: 1 <= w <= 3 && w != WeekOf(slot) ==> Link(s1, w)
  {
    var s1 := AppendResult(s, m, version + 1, score);
    AllLinks(s);
    forall w | 1 <= w <= 3 && w != WeekOf(slot) ensures Link(s1, w) {
      CorrectionOtherLinks(s, slot, m, version, score, w);
    }
  }

  lemma AlreadySettled(s: State, week: int)
    requires Struct(s) && Base(s) && PremierOk(s) && 1 <= week <= 3 && Underived(s, week)
    requires forall w :: 1 <= w <= 3 && w != week ==> Link(s, w)
    ensures Inv(s)
  {
    assert Link(s, week);
  }

  /** Rewinding the one week that is out of step settles the bracket. */
  lemma RewoundSettles(s: State, week: int, d: Derivation)
    requires Struct(s) && Base(s) && PremierOk(s) && 1 <= week <= 3 && Derive(s, week) == Ok(d)
    requires DerivedFor(s, week, d) && d.stage == StageAfter(week) && WeakLink(s, d) && !AnyBlocked(s, d)
    requires forall w :: 1 <= w <= 3 && w != week ==> Link(s, w)
    ensures Inv(Rewound(s, d))
  {
    RewoundKeeps(s, week, d);
    DerivationPlaced(s, Rewound(s, d), week, d);
  }

  lemma SecondSemiSafe(s: State, m: nat, version: nat, score: Score, d: Derivation)
    requires Inv(s) && Correctable(s, SecondSemi, m, version)
    requires Derive(AppendResult(s, m, version + 1, score), 2) == Ok(d)
    requires !AnyBlocked(AppendResult(s, m, version + 1, score), d)
    ensures ContestAt(s, Preliminary).Err?
  {
    var s1 := AppendResult(s, m, version + 1, score);
    if ContestAt(s, Preliminary).Ok? {
      assert Derivable(s, 2);
      var d0 := Derive(s, 2).value;
      assert RowMatches(s, d0.pairings[0]);
      AppendContest(s, SecondSemi, m, version, score, Preliminary);
      CorrectedContest(s, SecondSemi, m, version, score);
      PlayedPreliminaryBlocks(s1, d);
      assert false;
    }
  }

  /** The slot a matchup belongs to. */
  function SlotOf(s: State, m: nat): Slot
    requires m < |s.matchups|
  {
    SlotAt(s.matchups[m].week, s.matchups[m].order)
  }

  lemma CorrectShape(s: State, m: nat, oldVersion: Option<nat>, signoff: Signoff)
    requires Correct(s, m, oldVersion, signoff).Ok?
    ensures m < |s.matchups| && oldVersion.Some? && s.matchups[m].effective == oldVersion
    ensures MatchupOf(s, SlotOf(s, m)) == Ok(m)
    ensures s.matchups[m].week < 4 ==>
              SourceMatchups(s, s.matchups[m].week).Ok?
              && Correct(s, m, oldVersion, signoff)
                 == CorrectAndRewind(s, m, oldVersion.value, signoff.score, SourceMatchups(s, s.matchups[m].week).value)
    ensures s.matchups[m].week >= 4 ==>
              Correct(s, m, oldVersion, signoff).value == CorrectGrandFinal(s, m, oldVersion.value, signoff.score)
  {
  }

  lemma CorrectedEarlier(s: State, m: nat, version: nat, score: Score, ids: (nat, nat))
    requires Inv(s) && m < |s.matchups| && Correctable(s, SlotOf(s, m), m, version) && s.matchups[m].week < 4
    requires CorrectAndRewind(s, m, version, score, ids).Ok?
    ensures Inv(CorrectAndRewind(s, m, version, score, ids).value)
  {
    assert MatchupOk(s, m);
    var slot, week := SlotOf(s, m), s.matchups[m].week;
    var s1 := AppendResult(s, m, version + 1, score);
    RewindShape(s1, week, ObservedVersions(s1, ids));
    var d := Derive(s1, week).value;
    if slot == SecondSemi { SecondSemiSafe(s, m, version, score, d); }
    CorrectionResettles(s, slot, m, version, score, d);
  }

  lemma PremiersContest(s: State, premiers: seq<Entry>, slot: Slot)
    ensures ContestAt(s.(premiers := premiers), slot) == ContestAt(s, slot)
    ensures SameRow(s, s.(premiers := premiers), slot)
  {
  }

  lemma GrandFinalPremierAppended(s: State, m: nat, version: nat, score: Score, premier: Entry)
    requires Struct(s) && PremierOk(s) && Correctable(s, GrandFinal, m, version)
    requires premier == Premier(s.seeds, s.matchups[m].home, s.matchups[m].away, score)
    ensures PremierOk(AppendResult(s, m, version + 1, score).(premiers := s.premiers + [premier]))
  {
    CorrectedContest(s, GrandFinal, m, version, score);
    ContestSeeded(s, GrandFinal);
    assert MatchupOk(s, m);
    SlotAtOrder(GrandFinal);
    HeldOnce(s, GrandFinal, SlotOf(s, m));
    var c := ContestAt(s, GrandFinal).value;
    PremierIsWinner(s.seeds, c.home, c.away, score);
    PremiersContest(AppendResult(s, m, version + 1, score), s.premiers + [premier], GrandFinal);
  }

  lemma CorrectedGrandFinal(s: State, m: nat, version: nat, score: Score)
    requires Inv(s) && Correctable(s, GrandFinal, m, version)
    ensures Inv(CorrectGrandFinal(s, m, version, score))
  {
    var premier := Premier(s.seeds, s.matchups[m].home, s.matchups[m].away, score);
    var s1 := AppendResult(s, m, version + 1, score);
    AppendStruct(s, GrandFinal, m, version, score);
    PremiersStruct(s1, s.premiers + [premier]);
    forall other: Slot
      ensures SameRow(s, s1.(premiers := s.premiers + [premier]), other)
      ensures other != GrandFinal ==> SameContest(s, s1.(premiers := s.premiers + [premier]), other)
    {
      AppendContest(s, GrandFinal, m, version, score, other);
      PremiersContest(s1, s.premiers + [premier], other);
    }
    GrandFinalPremierAppended(s, m, version, score, premier);
    GrandFinalOnlyKeeps(s, s1.(premiers := s.premiers + [premier]));
  }

  /** Nothing is derived from the Grand Final. */
  lemma GrandFinalOnlyKeeps(s: State, s': State)
    requires Inv(s) && Struct(s') && s'.seeds == s.seeds && s'.eliminations == s.eliminations && PremierOk(s')
    requires forall slot: Slot :: SameRow(s, s', slot) && (slot != GrandFinal ==> SameContest(s, s', slot))
    ensures Inv(s')
  {
    assert SameRow(s, s', Bye) && SameRow(s, s', QualifyingFinal) && SameRow(s, s', EliminationFinal);
    LinkFrame(s, s', 1);
    LinkFrame(s, s', 2);
    LinkFrame(s, s', 3);
  }

  lemma PremiersStruct(s: State, premiers: seq<Entry>)
    requires Struct(s)
    ensures Struct(s.(premiers := premiers))
  {
    var s' := s.(premiers := premiers);
    forall m | 0 <= m < |s'.matchups| ensures MatchupOk(s', m) {
      assert MatchupOk(s, m);
    }
    forall i | 0 <= i < |s'.pairings| ensures RowMatchup(s', i) && Seeded(s', i) {
      assert RowMatchup(s, i) && Seeded(s, i);
    }
    forall r | r in s'.results ensures ResultOk(s', r) {
      assert ResultOk(s, r);
    }
  }

  lemma CorrectKeeps(s: State, m: nat, oldVersion: Option<nat>, signoff: Signoff)
    requires Inv(s) && Correct(s, m, oldVersion, signoff).Ok?
    ensures Inv(Correct(s, m, oldVersion, signoff).value)
  {
    CorrectShape(s, m, oldVersion, signoff);
    assert MatchupOk(s, m);
    if s.matchups[m].week < 4 {
      CorrectedEarlier(s, m, oldVersion.value, signoff.score, SourceMatchups(s, s.matchups[m].week).value);
    } else {
      CorrectedGrandFinal(s, m, oldVersion.value, signoff.score);
    }
  }

  // ----- Every transaction, every run -----

  lemma SmallStepKeeps(s: State, step: Step)
    requires Inv(s) && Attempt(s, step).Ok? && (step.StepCreateRound? || step.StepTransition? || step.StepPlay?)
    ensures Inv(Attempt(s, step).value)
  {
    SmallStepTables(s, step);
    SameTablesKeep(s, Attempt(s, step).value);
  }

  lemma StepKeeps(s: State, step: Step)
    requires Inv(s)
    ensures Inv(Apply(s, step))
  {
    if Attempt(s, step).Ok? {
      match step
      case StepCreateRound(w) => SmallStepKeeps(s, step);
      case StepTransition(w, t) => SmallStepKeeps(s, step);
      case StepMaterialise(r) => MaterialiseKeeps(s, r);
      case StepPlay(p) => SmallStepKeeps(s, step);
      case StepPublish(w, x) => PublishKeeps(s, w, x);
      case StepAdvance(w, e) => AdvanceKeeps(s, w, e);
      case StepRewind(w, e) => RewindIsNoOp(s, w, e);
      case StepCorrect(m, v, x) =>
        CorrectKeeps(s, m, v, x);
    }
  }

  /** Any interleaving of accepted and refused transactions keeps the bracket settled. */
  lemma {:induction false} RunKeeps(s: State, steps: seq<Step>)
    requires Inv(s)
    ensures Inv(Run(s, steps))
    decreases |steps|
  {
    if steps != [] {
      StepKeeps(s, steps[0]);
      RunKeeps(Apply(s, steps[0]), steps[1..]);
    }
  }
}
