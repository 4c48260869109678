/** What the tables remember: current sources, stable matchups, chains of superseded rows, unrewritten history. */
module FinalsHistory {
  import opened Options
  import opened FinalsTables
  import opened FinalsInvariant
  import opened FinalsSteps
  import opened FinalsRewind
  import opened FinalsCorrection

  // ----- Sources are current -----

  ghost predicate Current(s: State, source: Option<Source>) {
    source.Some? ==> source.value.matchup < |s.matchups|
                     && s.matchups[source.value.matchup].effective == Some(source.value.version)
  }

  /**
   Every active pairing was derived from the versions in force now, although a
   correction reconciles only the next week: the Second Semi also feeds the
   Grand Final two weeks on.
   */
  lemma SourcesAreCurrent(s: State, i: nat)
    requires Inv(s) && i < |s.pairings| && s.pairings[i].active
    ensures Current(s, s.pairings[i].source1) && Current(s, s.pairings[i].source2)
    ensures WeekOf(s.pairings[i].slot) > 1 ==> s.pairings[i].source1.Some?
  {
    var slot := s.pairings[i].slot;
    FindIs(s.pairings, slot, i);
    if WeekOf(slot) > 1 {
      var week := WeekOf(slot) - 1;
      assert Link(s, week);
      assert slot in TargetSlots(week);
      DerivableSources(s, week, slot);
    }
  }

  lemma DerivableSources(s: State, week: int, slot: Slot)
    requires 1 <= week <= 3 && Derivable(s, week) && slot in TargetSlots(week) && FindActive(s.pairings, slot).Some?
    ensures var p := s.pairings[FindActive(s.pairings, slot).value];
            p.source1.Some? && Current(s, p.source1) && Current(s, p.source2)
  {
    var d := Derive(s, week).value;
    DerivedSlots(s, week);
    var k :| 0 <= k < |TargetSlots(week)| && TargetSlots(week)[k] == slot;
    assert RowMatches(s, d.pairings[k]);
    ContestCurrent(s, SourceSlots(week).0);
    ContestCurrent(s, SourceSlots(week).1);
  }

  lemma ContestCurrent(s: State, slot: Slot)
    requires ContestAt(s, slot).Ok?
    ensures Current(s, Some(SourceOf(ContestAt(s, slot).value)))
  {
  }

  // ----- Superseded rows -----

  /** Follow the supersede pointers of a slot. */
  ghost function ChainEnd(rows: seq<Pairing>, i: nat): (r: nat)
    requires i < |rows| && forall k :: 0 <= k < |rows| ==> RowOk(rows, k)
    ensures r < |rows| && rows[r].active && rows[r].slot == rows[i].slot
    decreases |rows| - i
  {
    assert RowOk(rows, i);
    if rows[i].active then i else ChainEnd(rows, rows[i].supersededBy.value)
  }

  /** Every row's pointers lead, without a cycle, to the one active row of its slot. */
  lemma ChainsEndAtTheActiveRow(s: State, i: nat)
    requires Struct(s) && i < |s.pairings|
    ensures FindActive(s.pairings, s.pairings[i].slot) == Some(ChainEnd(s.pairings, i))
  {
    FindIs(s.pairings, s.pairings[i].slot, ChainEnd(s.pairings, i));
  }

  /** No matchup is held by two rows, and a held one has its row's participants. */
  lemma MatchupsHeldOnce(s: State, i: nat, j: nat)
    requires Struct(s) && i < |s.pairings| && j < |s.pairings|
    requires s.pairings[i].matchup.Some? && s.pairings[j].matchup == s.pairings[i].matchup
    ensures i == j
    ensures s.pairings[i].matchup.value < |s.matchups|
    ensures var k := s.matchups[s.pairings[i].matchup.value];
            s.pairings[i].home == k.home && s.pairings[i].away == Some(k.away)
  {
    assert RowOk(s.pairings, i) && RowOk(s.pairings, j) && RowMatchup(s, i) && RowMatchup(s, j);
    SlotAtOrder(s.pairings[i].slot);
    SlotAtOrder(s.pairings[j].slot);
    FindIs(s.pairings, s.pairings[i].slot, i);
    FindIs(s.pairings, s.pairings[j].slot, j);
    assert MatchupOk(s, s.pairings[i].matchup.value);
  }

  // ----- Nothing is rewritten -----

  ghost predicate PairingKept(p: Pairing, q: Pairing) {
    && q.slot == p.slot && q.home == p.home && q.away == p.away && q.source1 == p.source1 && q.source2 == p.source2
    && (!p.active ==> q == p)
  }

  ghost predicate PairingsKept(s: State, s': State) {
    && |s.pairings| <= |s'.pairings|
    && (forall i :: 0 <= i < |s.pairings| ==> PairingKept(s.pairings[i], s'.pairings[i]))
  }

  ghost predicate ResultsKept(s: State, s': State) {
    forall r :: r in s.results ==> r in s'.results && s'.results[r] == s.results[r]
  }

  ghost predicate MatchupsKept(s: State, s': State) {
    forall slot: Slot :: MatchupOf(s, slot).Ok? ==> MatchupOf(s', slot) == MatchupOf(s, slot)
  }

  /**
   Pairings keep their participants and sources and a superseded one is frozen;
   a result version is never rewritten; a slot keeps its matchup for good.
   */
  ghost predicate Remembers(s: State, s': State) {
    PairingsKept(s, s') && ResultsKept(s, s') && MatchupsKept(s, s')
  }

  lemma RemembersItself(s: State)
    ensures Remembers(s, s)
  {
  }

  lemma RemembersTransitive(s: State, s1: State, s': State)
    requires Remembers(s, s1) && Remembers(s1, s')
    ensures Remembers(s, s')
  {
    forall i | 0 <= i < |s.pairings| ensures PairingKept(s.pairings[i], s'.pairings[i]) {
      assert PairingKept(s.pairings[i], s1.pairings[i]) && PairingKept(s1.pairings[i], s'.pairings[i]);
    }
  }

  lemma MaterialiseRemembers(s: State, row: nat)
    requires Struct(s) && Materialise(s, row).Ok?
    ensures Remembers(s, Materialise(s, row).value)
  {
    var s' := Materialise(s, row).value;
    if s' != s {
      forall slot: Slot | MatchupOf(s, slot).Ok? ensures MatchupOf(s', slot) == MatchupOf(s, slot) {
        FindAfterUpdate(s.pairings, row, s'.pairings[row], slot);
        FindIs(s.pairings, s.pairings[row].slot, row);
      }
    }
  }

  lemma InsertAllRemembers(s: State, ds: seq<Derived>)
    requires forall k :: 0 <= k < |ds| ==> FindActive(s.pairings, ds[k].slot).None?
    ensures MatchupsKept(s, s.(pairings := InsertAll(s.pairings, ds)))
    decreases |ds|
  {
    var s' := s.(pairings := InsertAll(s.pairings, ds));
    forall slot: Slot | MatchupOf(s, slot).Ok? ensures MatchupOf(s', slot) == MatchupOf(s, slot) {
      InsertAllFinds(s.pairings, ds, slot);
    }
  }

  lemma {:induction false} InsertAllFinds(rows: seq<Pairing>, ds: seq<Derived>, slot: Slot)
    requires forall k :: 0 <= k < |ds| ==> ds[k].slot != slot
    ensures FindActive(InsertAll(rows, ds), slot) == FindActive(rows, slot)
    decreases |ds|
  {
    if ds == [] {
      assert InsertAll(rows, ds) == rows;
    } else {
      var n := |ds| - 1;
      InsertAllFinds(rows, ds[..n], slot);
      assert InsertAll(rows, ds) == InsertAll(rows, ds[..n]) + [RowFor(ds[n], None)];
      FindAfterAppend(InsertAll(rows, ds[..n]), RowFor(ds[n], None), slot);
    }
  }

  lemma AdvanceRemembers(s: State, week: int, d: Derivation)
    requires 1 <= week <= 3 && Underived(s, week) && Derive(s, week) == Ok(d)
    ensures Remembers(s, AdvancedTables(s, d))
  {
    DerivedSlots(s, week);
    forall k | 0 <= k < |d.pairings| ensures FindActive(s.pairings, d.pairings[k].slot).None? {
      assert d.pairings[k].slot in TargetSlots(week);
    }
    InsertAllRemembers(s, d.pairings);
    var s' := AdvancedTables(s, d);
    forall slot: Slot | MatchupOf(s, slot).Ok? ensures MatchupOf(s', slot) == MatchupOf(s, slot) {
      assert MatchupOf(s.(pairings := InsertAll(s.pairings, d.pairings)), slot) == MatchupOf(s, slot);
    }
  }

  lemma ReplaceRemembers(s: State, d: Derived)
    requires Struct(s)
    ensures Remembers(s, Replace(s, d))
  {
    if FindActive(s.pairings, d.slot).Some? {
      forall slot: Slot | MatchupOf(s, slot).Ok? ensures MatchupOf(Replace(s, d), slot) == MatchupOf(s, slot) {
        ReplaceFinds(s, d, slot);
      }
    }
  }

  lemma ReplaceChangedRemembers(s: State, d: Derived)
    requires Struct(s)
    ensures Remembers(s, ReplaceChanged(s, d))
  {
    if Changed(s, d) { ReplaceRemembers(s, d); }
  }

  lemma RewoundPairingsRemember(s: State, week: int, d: Derivation)
    requires Struct(s) && 1 <= week <= 3 && DerivedFor(s, week, d) && WeakLink(s, d) && !AnyBlocked(s, d)
    ensures Remembers(s, RewoundPairings(s, d))
  {
    var a := d.pairings[0];
    assert WeakRow(s, a) && !Blocked(s, a);
    if Changed(s, a) { NotBlockedUnplayed(s, a); }
    ReplaceChangedKeeps(s, week, a);
    ReplaceChangedRemembers(s, a);
    if week == 1 {
      ReplaceChangedRemembers(ReplaceChanged(s, a), d.pairings[1]);
      RemembersTransitive(s, ReplaceChanged(s, a), RewoundPairings(s, d));
    }
  }

  lemma RewoundRemembers(s: State, week: int, d: Derivation)
    requires Struct(s) && 1 <= week <= 3 && DerivedFor(s, week, d) && WeakLink(s, d) && !AnyBlocked(s, d)
    ensures Remembers(s, Rewound(s, d))
  {
    RewoundPairingsRemember(s, week, d);
    EliminationRemembers(s, RewoundPairings(s, d), d);
  }

  lemma EliminationRemembers(s: State, s2: State, d: Derivation)
    requires Remembers(s, s2)
    ensures Remembers(s, ReplaceElimination(s2, d))
  {
    var s' := ReplaceElimination(s2, d);
    forall slot: Slot ensures MatchupOf(s', slot) == MatchupOf(s2, slot) {}
  }

  lemma AppendRemembers(s: State, slot: Slot, m: nat, version: nat, score: Score)
    requires Struct(s) && Correctable(s, slot, m, version)
    ensures Remembers(s, AppendResult(s, m, version + 1, score))
  {
    var s' := AppendResult(s, m, version + 1, score);
    forall r | r in s.results ensures r in s'.results && s'.results[r] == s.results[r] {
      assert ResultOk(s, r);
    }
    forall other: Slot ensures MatchupOf(s', other) == MatchupOf(s, other) {
      AppendContest(s, slot, m, version, score, other);
    }
  }

  lemma PublishRemembers(s: State, week: int, signoffs: map<nat, Signoff>)
    requires Struct(s) && Publish(s, week, signoffs).Ok?
    ensures Remembers(s, Publish(s, week, signoffs).value)
  {
    PublishDoes(s, week, signoffs);
    PublishKeepsResults(s, Publish(s, week, signoffs).value, signoffs.Keys);
  }

  lemma PublishKeepsResults(s: State, s': State, ids: set<nat>)
    requires Struct(s) && PublishEffects(s, s', ids)
    ensures Remembers(s, s')
  {
    forall r | r in s.results ensures r in s'.results && s'.results[r] == s.results[r] {
      assert ResultOk(s, r);
    }
    forall slot: Slot ensures MatchupOf(s', slot) == MatchupOf(s, slot) {}
  }

  /** The rewind inside an accepted correction, from the week it reconciles. */
  lemma ResettleRemembers(s: State, slot: Slot, m: nat, version: nat, score: Score, d: Derivation)
    requires Inv(s) && Correctable(s, slot, m, version) && slot != GrandFinal
    requires Derive(AppendResult(s, m, version + 1, score), WeekOf(slot)) == Ok(d)
    requires !AnyBlocked(AppendResult(s, m, version + 1, score), d)
    ensures Remembers(AppendResult(s, m, version + 1, score), Rewound(AppendResult(s, m, version + 1, score), d))
  {
    ResettleCase(s, slot, m, version, score, d);
    var s1 := AppendResult(s, m, version + 1, score);
    if WeakLink(s1, d) { RewoundRemembers(s1, WeekOf(slot), d); } else { RemembersItself(s1); }
  }

  lemma CorrectEarlierRemembers(s: State, m: nat, version: nat, score: Score, ids: (nat, nat))
    requires Inv(s) && m < |s.matchups| && Correctable(s, SlotOf(s, m), m, version) && s.matchups[m].week < 4
    requires CorrectAndRewind(s, m, version, score, ids).Ok?
    ensures Remembers(s, CorrectAndRewind(s, m, version, score, ids).value)
  {
    assert MatchupOk(s, m);
    var slot, week := SlotOf(s, m), s.matchups[m].week;
    var s1 := AppendResult(s, m, version + 1, score);
    RewindShape(s1, week, ObservedVersions(s1, ids));
    var d := Derive(s1, week).value;
    AppendRemembers(s, slot, m, version, score);
    ResettleRemembers(s, slot, m, version, score, d);
    RemembersTransitive(s, s1, Rewound(s1, d));
  }

  lemma CorrectRemembers(s: State, m: nat, oldVersion: Option<nat>, signoff: Signoff)
    requires Inv(s) && Correct(s, m, oldVersion, signoff).Ok?
    ensures Remembers(s, Correct(s, m, oldVersion, signoff).value)
  {
    CorrectShape(s, m, oldVersion, signoff);
    assert MatchupOk(s, m);
    if s.matchups[m].week < 4 {
      CorrectEarlierRemembers(s, m, oldVersion.value, signoff.score, SourceMatchups(s, s.matchups[m].week).value);
    } else {
      AppendRemembers(s, SlotOf(s, m), m, oldVersion.value, signoff.score);
      PremiersRemember(s, AppendResult(s, m, oldVersion.value + 1, signoff.score),
                       CorrectGrandFinal(s, m, oldVersion.value, signoff.score).premiers);
    }
  }

  lemma PremiersRemember(s: State, s1: State, premiers: seq<Entry>)
    requires Remembers(s, s1)
    ensures Remembers(s, s1.(premiers := premiers))
  {
    forall slot: Slot ensures MatchupOf(s1.(premiers := premiers), slot) == MatchupOf(s1, slot) {}
  }

  lemma SameTablesRemember(s: State, s': State)
    requires SameBracketTables(s, s')
    ensures Remembers(s, s')
  {
  }

  lemma SmallStepRemembers(s: State, step: Step)
    requires Inv(s) && Attempt(s, step).Ok? && (step.StepCreateRound? || step.StepTransition? || step.StepPlay?)
    ensures Remembers(s, Apply(s, step))
  {
    SmallStepTables(s, step);
    SameTablesRemember(s, Attempt(s, step).value);
  }

  lemma AdvanceStepRemembers(s: State, week: int, expected: Expected)
    requires Inv(s) && Advance(s, week, expected).Ok?
    ensures Remembers(s, Advance(s, week, expected).value)
  {
    AdvanceShape(s, week, expected);
    NotAdvancedYet(s, week);
    AdvanceRemembers(s, week, Derive(s, week).value);
  }

  lemma StepRemembers(s: State, step: Step)
    requires Inv(s)
    ensures Remembers(s, Apply(s, step))
  {
    if Attempt(s, step).Ok? {
      match step
      case StepCreateRound(w) => SmallStepRemembers(s, step);
      case StepTransition(w, t) => SmallStepRemembers(s, step);
      case StepMaterialise(r) => MaterialiseRemembers(s, r);
      case StepPlay(p) => SmallStepRemembers(s, step);
      case StepPublish(w, x) => PublishRemembers(s, w, x);
      case StepAdvance(w, e) => AdvanceStepRemembers(s, w, e);
      case StepRewind(w, e) => RewindIsNoOp(s, w, e);
      case StepCorrect(m, v, x) => CorrectRemembers(s, m, v, x);
    }
  }

  /**
   Over any run. In particular the matchup of a slot, once set, never changes,
   so a transaction may read it before it begins.
   */
  lemma {:induction false} RunRemembers(s: State, steps: seq<Step>)
    requires Inv(s)
    ensures Remembers(s, Run(s, steps))
    decreases |steps|
  {
    if steps != [] {
      StepKeeps(s, steps[0]);
      StepRemembers(s, steps[0]);
      RunRemembers(Apply(s, steps[0]), steps[1..]);
      RemembersTransitive(s, Apply(s, steps[0]), Run(s, steps));
    }
  }
}
