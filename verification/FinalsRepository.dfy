/**
 The finals repository: the tables are fields, each method is one transaction
 that updates them in place, and each is proved to do exactly what the
 corresponding function of FinalsTables says.
 */
module FinalsRepository {
  import opened Options
  import opened FinalsTables
  import opened FinalsInvariant
  import opened FinalsSteps
  import opened FinalsCorrection

  /** What a rewind reports: the slots that would change, those of them already in play, and the elimination. */
  datatype Report = Report(changed: seq<Slot>, blocked: seq<Slot>, eliminationChanged: bool)

  class FinalsBracket {
    const seeds: seq<Entry>
    var pairings: seq<Pairing>
    var eliminations: seq<Elimination>
    var matchups: seq<Matchup>
    var results: map<Source, Score>
    var rounds: map<int, RoundState>
    var play: Play
    var premiers: seq<Entry>

    function Tables(): State
      reads this
    {
      State(seeds, pairings, eliminations, matchups, results, rounds, play, premiers)
    }

    /** Ten distinct seeds: five paired or byed in week one, five out. */
    constructor (seedOrder: seq<Entry>)
      requires CreateBracket(seedOrder).Ok?
      ensures Tables() == CreateBracket(seedOrder).value && Inv(Tables())
    {
      seeds := seedOrder;
      pairings := [FreshRow(Bye, seedOrder[0], None),
                   FreshRow(QualifyingFinal, seedOrder[1], Some(seedOrder[2])),
                   FreshRow(EliminationFinal, seedOrder[3], Some(seedOrder[4]))];
      eliminations, matchups, results, rounds, premiers := [], [], map[], map[], [];
      play := Play({}, {}, {}, map[]);
      new;
      for position := 5 to 10
        invariant |eliminations| == position - 5
        invariant forall i :: 0 <= i < position - 5 ==> eliminations[i] == Elimination(PreFinals, seedOrder[5 + i], None, true, None)
        invariant seeds == seedOrder
        invariant pairings == CreateBracket(seedOrder).value.pairings
        invariant matchups == [] && results == map[] && rounds == map[] && premiers == [] && play == Play({}, {}, {}, map[])
      {
        eliminations := eliminations + [Elimination(PreFinals, seedOrder[position], None, true, None)];
      }
      assert eliminations == CreateBracket(seedOrder).value.eliminations;
      CreatedKeeps(seedOrder);
    }

    method CreateWeekRound(week: int) returns (r: Result<(), Refusal>)
      modifies this
      ensures Tables() == Kept(old(Tables()), CreateRound(old(Tables()), week))
      ensures r.Ok? == CreateRound(old(Tables()), week).Ok?
      ensures r.Err? ==> r.error == CreateRound(old(Tables()), week).error
    {
      if !(1 <= week <= 4) { return Err(BadWeek); }
      if week in rounds { return Err(RoundExists); }
      rounds := rounds[week := Upcoming];
      return Ok(());
    }

    method TransitionRound(week: int, target: RoundState) returns (r: Result<(), Refusal>)
      modifies this
      ensures Tables() == Kept(old(Tables()), Transition(old(Tables()), week, target))
      ensures r.Ok? == Transition(old(Tables()), week, target).Ok?
      ensures r.Err? ==> r.error == Transition(old(Tables()), week, target).error
    {
      if week !in rounds { return Err(NoSuchRow); }
      if !LegalTransition(rounds[week], target) { return Err(IllegalTransition); }
      rounds := rounds[week := target];
      return Ok(());
    }

    /** Realise one pairing row as a matchup; a row superseded meanwhile is refused. */
    method MaterialisePairing(row: nat) returns (r: Result<(), Refusal>)
      modifies this
      ensures Tables() == Kept(old(Tables()), Materialise(old(Tables()), row))
      ensures r.Ok? == Materialise(old(Tables()), row).Ok?
      ensures r.Err? ==> r.error == Materialise(old(Tables()), row).error
    {
      if row >= |pairings| || pairings[row].slot == Bye || pairings[row].away.None? { return Err(NoSuchRow); }
      var p := pairings[row];
      if WeekOf(p.slot) !in rounds { return Err(NoSuchRow); }
      if !p.active { return Err(SupersededConcurrently); }
      if p.matchup.Some? { return Ok(()); }
      var id := |matchups|;
      matchups := matchups + [Matchup(WeekOf(p.slot), OrderOf(p.slot), p.home, p.away.value, None, 1)];
      pairings := pairings[row := p.(matchup := Some(id))];
      return Ok(());
    }

    /**
     Open a week: several transactions, listed in `steps`. On success every
     active match of the week is materialised and its round has been opened.
     */
    method OpenFinalsWeek(week: int) returns (r: Result<(), Refusal>, ghost steps: seq<Step>)
      modifies this
      ensures Tables() == Run(old(Tables()), steps)
      ensures forall i :: 0 <= i < |steps| ==> Opens(steps[i], old(pairings), week)
      ensures r.Ok? ==> week in rounds && rounds[week] != Upcoming
      ensures r.Ok? ==> AllMaterialised(pairings, week, |pairings|)
    {
      steps := [];
      if !(exists i :: 0 <= i < |pairings| && pairings[i].active && WeekOf(pairings[i].slot) == week) {
        return Err(NoPairingYet), steps;
      }
      if week !in rounds {
        RunCreates(old(Tables()), steps, week);
        r := CreateWeekRound(week);
        steps := steps + [StepCreateRound(week)];
        if r.Err? { return; }
      }
      ghost var materialised: seq<Step>;
      r, materialised := MaterialiseWeek(week);
      RunConcat(old(Tables()), steps, materialised);
      steps := steps + materialised;
      if r.Ok? && rounds[week] == Upcoming {
        r := TransitionRound(week, Open);
        RunTransitions(old(Tables()), steps, week, Open);
        steps := steps + [StepTransition(week, Open)];
      }
    }

    /** Every active match of the week, one transaction each. */
    method MaterialiseWeek(week: int) returns (r: Result<(), Refusal>, ghost steps: seq<Step>)
      requires week in rounds
      modifies this
      ensures Tables() == Run(old(Tables()), steps) && rounds == old(rounds)
      ensures forall i :: 0 <= i < |steps| ==> Opens(steps[i], old(pairings), week)
      ensures r.Ok? ==> AllMaterialised(pairings, week, |pairings|)
    {
      steps := [];
      var row := 0;
      while row < |pairings|
        invariant 0 <= row <= |pairings|
        invariant Tables() == Run(old(Tables()), steps) && rounds == old(rounds)
        invariant AllMaterialised(pairings, week, row)
        invariant SameSlots(old(pairings), pairings)
        invariant forall i :: 0 <= i < |steps| ==> Opens(steps[i], old(pairings), week)
        decreases |pairings| - row
      {
        var p := pairings[row];
        if p.active && WeekOf(p.slot) == week && p.slot != Bye && p.matchup.None? {
          MaterialiseRow(Tables(), row);
          RunMaterialises(old(Tables()), steps, row);
          r := MaterialisePairing(row);
          steps := steps + [StepMaterialise(row)];
          if r.Err? { return; }
        }
        row := row + 1;
      }
      r := Ok(());
    }

    /** Advance every target pairing and the elimination of one week, or nothing. */
    method AdvanceBracket(week: int, expected: Expected) returns (r: Result<(), Refusal>)
      modifies this
      ensures Tables() == Kept(old(Tables()), Advance(old(Tables()), week, expected))
      ensures r.Ok? == Advance(old(Tables()), week, expected).Ok?
      ensures r.Err? ==> r.error == Advance(old(Tables()), week, expected).error
    {
      if !(1 <= week <= 3) { return Err(BadWeek); }
      var ids := SourceMatchups(Tables(), week);
      if ids.Err? { return Err(ids.error); }
      if !CompleteExpected(ids.value, expected) { return Err(MissingExpectedVersion); }
      var advanced := AnyTargetActive(week);
      if advanced { return Err(AlreadyAdvanced); }
      var locked := LockSources(Tables(), ids.value, expected);
      if locked.Err? { return Err(locked.error); }
      var derived := Derive(Tables(), week);
      if derived.Err? { return Err(derived.error); }
      InsertDerived(derived.value);
      return Ok(());
    }

    method AnyTargetActive(week: int) returns (found: bool)
      requires 1 <= week <= 3
      ensures found == AnyAdvanced(Tables(), week)
    {
      var slots := TargetSlots(week);
      for k := 0 to |slots|
        invariant forall j :: 0 <= j < k ==> FindActive(pairings, slots[j]).None?
      {
        if FindActive(pairings, slots[k]).Some? { return true; }
      }
      return false;
    }

    /** Every derived row, then the elimination. */
    method InsertDerived(d: Derivation)
      modifies this`pairings, this`eliminations
      ensures Tables() == AdvancedTables(old(Tables()), d)
    {
      ghost var rows := pairings;
      for k := 0 to |d.pairings|
        invariant pairings == InsertAll(rows, d.pairings[..k])
        invariant eliminations == old(eliminations)
      {
        assert InsertAll(rows, d.pairings[..k + 1]) == InsertAll(rows, d.pairings[..k]) + [RowFor(d.pairings[k], None)];
        pairings := pairings + [RowFor(d.pairings[k], None)];
      }
      assert d.pairings[..|d.pairings|] == d.pairings;
      eliminations := eliminations + [Elimination(d.stage, d.eliminated, Some(d.sourcePairing), true, None)];
    }

    /**
     Publish a whole week at version 1 and make its round final, or nothing. The
     sign-offs were assembled from a review read earlier and are compared again.
     */
    method PublishFinalsRound(week: int, signoffs: map<nat, Signoff>) returns (r: Result<(), Refusal>)
      modifies this
      ensures Tables() == Kept(old(Tables()), Publish(old(Tables()), week, signoffs))
      ensures r.Ok? == Publish(old(Tables()), week, signoffs).Ok?
      ensures r.Err? ==> r.error == Publish(old(Tables()), week, signoffs).error
    {
      if week !in rounds { return Err(NoSuchRow); }
      if signoffs.Keys != MatchupsOfWeek(Tables(), week) || |signoffs| != ExpectedMatchCount(week) { return Err(NotReady); }
      if rounds[week] != Review { return Err(NotInReview); }
      for m := 0 to |matchups|
        invariant forall k :: 0 <= k < m && k in signoffs ==>
                    SnapshotCurrent(Tables(), k, signoffs[k].reviewVersion, signoffs[k].calculation)
      {
        if m in signoffs && !SnapshotCurrent(Tables(), m, signoffs[m].reviewVersion, signoffs[m].calculation) {
          return Err(StaleSnapshot);
        }
      }
      var grandFinal: Result<nat, Refusal> := if week == 4 then MatchupOf(Tables(), GrandFinal) else Ok(0);
      if grandFinal.Err? { return Err(grandFinal.error); }
      if week == 4 && (grandFinal.value !in signoffs || grandFinal.value >= |matchups|) { return Err(NoSuchRow); }
      WriteResults(week, signoffs);
      if week == 4 {
        var m := grandFinal.value;
        premiers := premiers + [Premier(seeds, matchups[m].home, matchups[m].away, signoffs[m].score)];
      }
      return Ok(());
    }

    /** Insert every first version, in matchup order, then close the round. */
    method WriteResults(week: int, signoffs: map<nat, Signoff>)
      requires forall m :: m in signoffs ==> m < |matchups|
      modifies this
      ensures Tables() == PublishedTables(old(Tables()), week, signoffs)
    {
      ghost var s := Tables();
      for m := 0 to |matchups|
        invariant Tables() == s.(matchups := matchups, results := results)
        invariant MatchupsUpTo(matchups, s.matchups, signoffs, m)
        invariant ResultsUpTo(results, s.results, signoffs, m)
      {
        ResultsNext(results, s.results, signoffs, m);
        MatchupsNext(matchups, s.matchups, signoffs, m);
        if m in signoffs {
          results := results[Source(m, 1) := signoffs[m].score];
          matchups := matchups[m := matchups[m].(effective := Some(1))];
        }
      }
      ResultsAll(results, s.results, signoffs, |matchups|);
      MatchupsAll(matchups, s.matchups, signoffs);
      rounds := rounds[week := Final];
    }

    /**
     Correct one published result: append a version and, in the same
     transaction, reconcile the next week. Any refusal rolls both back.
     */
    method CorrectFinalsResult(m: nat, oldVersion: Option<nat>, signoff: Signoff) returns (r: Result<(), Refusal>)
      modifies this
      ensures Tables() == Kept(old(Tables()), Correct(old(Tables()), m, oldVersion, signoff))
      ensures r.Ok? == Correct(old(Tables()), m, oldVersion, signoff).Ok?
      ensures r.Err? ==> r.error == Correct(old(Tables()), m, oldVersion, signoff).error
    {
      if m >= |matchups| { return Err(NoSuchRow); }
      var week := matchups[m].week;
      if MatchupOf(Tables(), SlotAt(week, matchups[m].order)) != Ok(m) { return Err(NoSuchRow); }
      if oldVersion.None? { return Err(NotPublished); }
      var ids: Result<(nat, nat), Refusal> := if week < 4 then SourceMatchups(Tables(), week) else Ok((m, m));
      if ids.Err? { return Err(ids.error); }
      if matchups[m].effective != oldVersion
         || !SnapshotCurrent(Tables(), m, signoff.reviewVersion, signoff.calculation) { return Err(StaleSnapshot); }
      if week < 4 {
        r := AppendAndReconcile(m, oldVersion.value, signoff.score, ids.value);
      } else {
        AppendVersion(m, oldVersion.value + 1, signoff.score);
        premiers := premiers + [Premier(seeds, matchups[m].home, matchups[m].away, signoff.score)];
        r := Ok(());
      }
    }

    method AppendVersion(m: nat, version: nat, score: Score)
      requires m < |matchups|
      modifies this
      ensures Tables() == AppendResult(old(Tables()), m, version, score)
    {
      results := results[Source(m, version) := score];
      matchups := matchups[m := matchups[m].(effective := Some(version), reviewVersion := matchups[m].reviewVersion + 1)];
    }

    method AppendAndReconcile(m: nat, version: nat, score: Score, ids: (nat, nat)) returns (r: Result<(), Refusal>)
      requires m < |matchups|
      modifies this
      ensures Tables() == Kept(old(Tables()), CorrectAndRewind(old(Tables()), m, version, score, ids))
      ensures r.Ok? == CorrectAndRewind(old(Tables()), m, version, score, ids).Ok?
      ensures r.Err? ==> r.error == CorrectAndRewind(old(Tables()), m, version, score, ids).error
    {
      var week := matchups[m].week;
      var priorResults, priorMatchups := results, matchups;
      ghost var s := Tables();
      AppendVersion(m, version + 1, score);
      var expected := ObservedVersions(Tables(), ids);
      CorrectAndRewindIs(s, m, version, score, ids);
      RewindOutcomeIs(Tables(), week, expected);
      var rewound := RewindBracket(week, expected, true);
      match rewound
      case Ok(_) =>
        r := Ok(());
      case Err(refusal) =>
        results, matchups := priorResults, priorMatchups;
        r := Err(refusal);
    }

    /** Supersede one slot's row and hand its matchup over: vacate, repoint, insert, link. */
    method ReplacePairing(d: Derived)
      requires FindActive(pairings, d.slot).Some?
      modifies this
      ensures Tables() == Replace(old(Tables()), d)
    {
      var row := FindActive(pairings, d.slot).value;
      var held := pairings[row].matchup;
      pairings := pairings[row := pairings[row].(active := false, matchup := None)];
      if held.Some? && held.value < |matchups| {
        matchups := matchups[held.value := matchups[held.value].(home := d.home, away := d.away)];
      }
      var id := |pairings|;
      pairings := pairings + [RowFor(d, held)];
      pairings := pairings[row := pairings[row].(supersededBy := Some(id))];
      assert pairings == Replace(old(Tables()), d).pairings;
    }

    method SupersedeElimination(d: Derivation)
      requires FindElimination(eliminations, d.stage).Some?
      modifies this
      ensures Tables() == ReplaceElimination(old(Tables()), d)
    {
      var row := FindElimination(eliminations, d.stage).value;
      eliminations := eliminations[row := eliminations[row].(active := false)];
      var id := |eliminations|;
      eliminations := eliminations + [Elimination(d.stage, d.eliminated, Some(d.sourcePairing), true, None)];
      eliminations := eliminations[row := eliminations[row].(supersededBy := Some(id))];
      assert eliminations == ReplaceElimination(old(Tables()), d).eliminations;
    }

    /** The slots a derivation disagrees with, and those of them already in play. */
    method Inspect(d: Derivation) returns (report: Report)
      ensures report.eliminationChanged == EliminationChanged(Tables(), d)
      ensures report.changed == ChangedSlots(Tables(), d.pairings)
      ensures report.blocked == BlockedSlots(Tables(), d.pairings)
    {
      var changed, blocked: seq<Slot> := [], [];
      for k := 0 to |d.pairings|
        invariant changed == ChangedSlots(Tables(), d.pairings[..k])
        invariant blocked == BlockedSlots(Tables(), d.pairings[..k])
      {
        assert d.pairings[..k + 1][..k] == d.pairings[..k];
        if Changed(Tables(), d.pairings[k]) {
          changed := changed + [d.pairings[k].slot];
          if HasPlayState(Tables(), FindActive(pairings, d.pairings[k].slot).value) {
            blocked := blocked + [d.pairings[k].slot];
          }
        }
      }
      assert d.pairings[..|d.pairings|] == d.pairings;
      report := Report(changed, blocked, EliminationChanged(Tables(), d));
    }

    /** Read and lock the two prerequisite results and derive the next week from them. */
    method LockAndDerive(week: int, expected: Expected) returns (r: Result<Derivation, Refusal>)
      ensures r == LockedDerivation(Tables(), week, expected)
    {
      if !(1 <= week <= 3) { return Err(BadWeek); }
      var ids := SourceMatchups(Tables(), week);
      if ids.Err? { return Err(ids.error); }
      if !CompleteExpected(ids.value, expected) { return Err(MissingExpectedVersion); }
      var locked := LockSources(Tables(), ids.value, expected);
      if locked.Err? { return Err(locked.error); }
      return Derive(Tables(), week);
    }

    /**
     Re-derive one week from the results now in force. With `apply` false only
     the report is made; with it, every change is written or, if any is
     blocked, none.
     */
    method RewindBracket(week: int, expected: Expected, apply: bool) returns (r: Result<Report, Refusal>)
      modifies this
      ensures Tables() == if apply then Kept(old(Tables()), Rewind(old(Tables()), week, expected)) else old(Tables())
      ensures r == RewindReport(old(Tables()), week, expected, apply)
    {
      var derived := LockAndDerive(week, expected);
      if derived.Err? { return Err(derived.error); }
      var d := derived.value;
      var report := Inspect(d);
      BlockedSlotsEmpty(Tables(), d.pairings);
      RewindCases(Tables(), week, expected);
      if !apply { return Ok(report); }
      if report.blocked != [] { return Err(DownstreamPlayState); }
      WriteRewind(d, report.eliminationChanged);
      return Ok(report);
    }

    /** The writes of an accepted rewind. */
    method WriteRewind(d: Derivation, eliminationChanged: bool)
      requires |d.pairings| <= 2 && eliminationChanged == EliminationChanged(Tables(), d)
      modifies this
      ensures Tables() == Rewound(old(Tables()), d)
    {
      ghost var s := Tables();
      for k := 0 to |d.pairings|
        invariant Tables() == Rewriting(s, d.pairings, k)
        invariant eliminations == s.eliminations
      {
        if Changed(Tables(), d.pairings[k]) { ReplacePairing(d.pairings[k]); }
      }
      RewritingIs(s, d);
      if eliminationChanged { SupersedeElimination(d); }
    }
  }

  /** What opening a week may do: create its round, materialise one of its active pairings, open its round. */
  predicate Opens(step: Step, rows: seq<Pairing>, week: int) {
    || step == StepCreateRound(week)
    || (step.StepMaterialise? && step.row < |rows| && rows[step.row].active && WeekOf(rows[step.row].slot) == week)
    || step == StepTransition(week, Open)
  }

  predicate SameSlots(rows: seq<Pairing>, rows': seq<Pairing>) {
    |rows'| == |rows| && forall i :: 0 <= i < |rows| ==> rows'[i].active == rows[i].active && rows'[i].slot == rows[i].slot
  }

  function Rewriting(s: State, ds: seq<Derived>, k: nat): (s': State)
    requires k <= |ds|
    ensures s'.eliminations == s.eliminations
  {
    if k == 0 then s else ReplaceChanged(Rewriting(s, ds, k - 1), ds[k - 1])
  }

  lemma RewritingIs(s: State, d: Derivation)
    requires |d.pairings| <= 2
    ensures Rewriting(s, d.pairings, |d.pairings|) == RewoundPairings(s, d)
  {
    assert Rewriting(s, d.pairings, 0) == s;
    if |d.pairings| > 0 { assert Rewriting(s, d.pairings, 1) == ReplaceChanged(s, d.pairings[0]); }
  }

  function ChangedSlots(s: State, ds: seq<Derived>): seq<Slot> {
    if ds == [] then []
    else ChangedSlots(s, ds[..|ds| - 1]) + if Changed(s, ds[|ds| - 1]) then [ds[|ds| - 1].slot] else []
  }

  function BlockedSlots(s: State, ds: seq<Derived>): seq<Slot> {
    if ds == [] then []
    else BlockedSlots(s, ds[..|ds| - 1]) + if Blocked(s, ds[|ds| - 1]) then [ds[|ds| - 1].slot] else []
  }

  lemma {:induction false} BlockedSlotsEmpty(s: State, ds: seq<Derived>)
    ensures BlockedSlots(s, ds) == [] <==> forall k :: 0 <= k < |ds| ==> !Blocked(s, ds[k])
    ensures ChangedSlots(s, ds) == [] <==> forall k :: 0 <= k < |ds| ==> !Changed(s, ds[k])
  {
    if ds != [] {
      var n := |ds| - 1;
      BlockedSlotsEmpty(s, ds[..n]);
      forall k | 0 <= k < n ensures ds[..n][k] == ds[k] {}
    }
  }

  function ReportOf(s: State, d: Derivation): Report {
    Report(ChangedSlots(s, d.pairings), BlockedSlots(s, d.pairings), EliminationChanged(s, d))
  }

  /** A preview never fails on play state: it reports it; applying does fail. */
  function RewindReport(s: State, week: int, expected: Expected, apply: bool): Result<Report, Refusal> {
    ReconcileReport(s, LockedDerivation(s, week, expected), apply)
  }

  function ReconcileReport(s: State, derived: Result<Derivation, Refusal>, apply: bool): Result<Report, Refusal> {
    var d :- derived;
    if apply && BlockedSlots(s, d.pairings) != [] then Err(DownstreamPlayState) else Ok(ReportOf(s, d))
  }

  lemma RewindCases(s: State, week: int, expected: Expected)
    requires LockedDerivation(s, week, expected).Ok?
    ensures var d := LockedDerivation(s, week, expected).value;
            && |d.pairings| <= 2
            && Kept(s, Rewind(s, week, expected)) == (if AnyBlocked(s, d) then s else Rewound(s, d))
            && (AnyBlocked(s, d) <==> BlockedSlots(s, d.pairings) != [])
  {
    BlockedSlotsEmpty(s, LockedDerivation(s, week, expected).value.pairings);
  }

  lemma RewindOutcomeIs(s: State, week: int, expected: Expected)
    ensures RewindReport(s, week, expected, true).Ok? == Rewind(s, week, expected).Ok?
    ensures Rewind(s, week, expected).Err? ==> RewindReport(s, week, expected, true) == Err(Rewind(s, week, expected).error)
  {
    SameOutcome(s, LockedDerivation(s, week, expected));
  }

  lemma SameOutcome(s: State, derived: Result<Derivation, Refusal>)
    ensures var report, rewound := ReconcileReport(s, derived, true), Reconcile(s, derived);
            (report.Ok? <==> rewound.Ok?) && (rewound.Err? ==> report == Err(rewound.error))
  {
    if derived.Ok? { BlockedSlotsEmpty(s, derived.value.pairings); }
  }

  lemma CorrectAndRewindIs(s: State, m: nat, version: nat, score: Score, ids: (nat, nat))
    requires m < |s.matchups|
    ensures var s1 := AppendResult(s, m, version + 1, score);
            && CorrectAndRewind(s, m, version, score, ids) == Rewind(s1, s.matchups[m].week, ObservedVersions(s1, ids))
            && s1 == s.(results := s1.results, matchups := s1.matchups)
  {
  }

  // ----- Publishing matchup by matchup -----

  predicate Reached(signoffs: map<nat, Signoff>, m: nat, x: Source) {
    x.version == 1 && x.matchup < m && x.matchup in signoffs
  }

  ghost predicate ResultsUpTo(r: map<Source, Score>, base: map<Source, Score>, signoffs: map<nat, Signoff>, m: nat) {
    && (forall x :: x in r <==> x in base || Reached(signoffs, m, x))
    && (forall x :: x in r ==> r[x] == if Reached(signoffs, m, x) then signoffs[x.matchup].score else base[x])
  }

  lemma ResultsNext(r: map<Source, Score>, base: map<Source, Score>, signoffs: map<nat, Signoff>, m: nat)
    requires ResultsUpTo(r, base, signoffs, m)
    ensures ResultsUpTo(if m in signoffs then r[Source(m, 1) := signoffs[m].score] else r, base, signoffs, m + 1)
  {
    var r' := if m in signoffs then r[Source(m, 1) := signoffs[m].score] else r;
    forall x: Source
      ensures Reached(signoffs, m + 1, x) <==> Reached(signoffs, m, x) || (m in signoffs && x == Source(m, 1))
    {
      if x.matchup == m && x.version == 1 { assert x == Source(m, 1); }
    }
  }

  lemma ResultsAll(r: map<Source, Score>, base: map<Source, Score>, signoffs: map<nat, Signoff>, n: nat)
    requires ResultsUpTo(r, base, signoffs, n) && forall m :: m in signoffs ==> m < n
    ensures r == FirstResults(base, signoffs)
  {
    var f := FirstResults(base, signoffs);
    forall x | x in f ensures x in r && r[x] == f[x] {
      if x.matchup in signoffs && x.version == 1 {
        assert x == Source(x.matchup, 1);
        assert Reached(signoffs, n, x);
      }
    }
    forall x | x in r ensures x in f {
      assert x in base || Reached(signoffs, n, x);
    }
  }

  ghost predicate MatchupsUpTo(ms: seq<Matchup>, base: seq<Matchup>, signoffs: map<nat, Signoff>, m: nat) {
    && |ms| == |base|
    && (forall k :: 0 <= k < |base| ==> ms[k] == if k in signoffs && k < m then base[k].(effective := Some(1)) else base[k])
  }

  lemma MatchupsAll(ms: seq<Matchup>, base: seq<Matchup>, signoffs: map<nat, Signoff>)
    requires MatchupsUpTo(ms, base, signoffs, |base|)
    ensures ms == Published(base, signoffs.Keys)
  {
  }

  /** One more matchup looked at. */
  lemma MatchupsNext(ms: seq<Matchup>, base: seq<Matchup>, signoffs: map<nat, Signoff>, m: nat)
    requires m < |base| && MatchupsUpTo(ms, base, signoffs, m)
    ensures MatchupsUpTo(if m in signoffs then ms[m := ms[m].(effective := Some(1))] else ms, base, signoffs, m + 1)
  {
  }

  /** In a settled bracket a rewind, previewed or applied, has nothing to report. */
  lemma SettledReport(s: State, week: int, expected: Expected, apply: bool)
    requires Inv(s) && RewindReport(s, week, expected, apply).Ok?
    ensures RewindReport(s, week, expected, apply).value == Report([], [], false)
  {
    AllLinks(s);
    LinkedReport(s, week, expected, apply);
  }

  lemma LinkedReport(s: State, week: int, expected: Expected, apply: bool)
    requires Struct(s) && (forall w :: 1 <= w <= 3 ==> Link(s, w)) && RewindReport(s, week, expected, apply).Ok?
    ensures RewindReport(s, week, expected, apply).value == Report([], [], false)
  {
    SettledWeek(s, week);
    BlockedSlotsEmpty(s, LockedDerivation(s, week, expected).value.pairings);
  }

  // ----- Opening a week -----

  predicate AllMaterialised(rows: seq<Pairing>, week: int, upTo: nat)
    requires upTo <= |rows|
  {
    forall i :: 0 <= i < upTo ==>
      (rows[i].active && WeekOf(rows[i].slot) == week && rows[i].slot != Bye ==> rows[i].matchup.Some?)
  }

  lemma MaterialiseRow(s: State, row: nat)
    requires row < |s.pairings|
    ensures var s' := Kept(s, Materialise(s, row));
            && s'.rounds == s.rounds && SameSlots(s.pairings, s'.pairings)
            && (forall i :: 0 <= i < |s.pairings| && i != row ==> s'.pairings[i] == s.pairings[i])
            && (Materialise(s, row).Ok? ==> s'.pairings[row].matchup.Some?)
  {
  }

  lemma RunCreates(s: State, steps: seq<Step>, week: int)
    ensures Run(s, steps + [StepCreateRound(week)]) == Kept(Run(s, steps), CreateRound(Run(s, steps), week))
  {
    RunExtend(s, steps, StepCreateRound(week));
  }

  lemma RunMaterialises(s: State, steps: seq<Step>, row: nat)
    ensures Run(s, steps + [StepMaterialise(row)]) == Kept(Run(s, steps), Materialise(Run(s, steps), row))
  {
    RunExtend(s, steps, StepMaterialise(row));
  }

  lemma RunTransitions(s: State, steps: seq<Step>, week: int, target: RoundState)
    ensures Run(s, steps + [StepTransition(week, target)]) == Kept(Run(s, steps), Transition(Run(s, steps), week, target))
  {
    RunExtend(s, steps, StepTransition(week, target));
  }

  lemma {:induction false} RunConcat(s: State, a: seq<Step>, b: seq<Step>)
    ensures Run(s, a + b) == Run(Run(s, a), b)
    decreases |a|
  {
    if a == [] {
      assert a + b == b;
    } else {
      assert (a + b)[1..] == a[1..] + b;
      RunConcat(Apply(s, a[0]), a[1..], b);
    }
  }

  lemma RunExtend(s: State, steps: seq<Step>, step: Step)
    ensures Run(s, steps + [step]) == Apply(Run(s, steps), step)
  {
    RunConcat(s, steps, [step]);
    assert [step][1..] == [];
  }
}
