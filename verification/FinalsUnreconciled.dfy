/**
 The generic correction of competition_lifecycle.py used on a finals matchup:
 it appends the version and stops, where the finals correction goes on to
 reconcile the next week.
 */
module FinalsUnreconciled {
  import opened Options
  import opened FinalsTables
  import opened FinalsInvariant
  import opened FinalsSteps
  import opened FinalsCorrection
  import opened FinalsTheorems
  import opened FinalsConservation
  import opened FinalsPolicy

  // ----- When appending alone is enough -----

  /** A row derived from the corrected contest still names the version that was replaced. */
  lemma DependentOutdated(s: State, slot: Slot, m: nat, version: nat, score: Score, t: Slot)
    requires Struct(s) && Link(s, WeekOf(slot)) && Correctable(s, slot, m, version)
    requires t in Dependents(slot) && FindActive(s.pairings, t).Some?
    ensures !Link(AppendResult(s, m, version + 1, score), WeekOf(slot))
  {
    var week := WeekOf(slot);
    var s1 := AppendResult(s, m, version + 1, score);
    assert t in TargetSlots(week);
    AppendContest(s, slot, m, version, score, t);
    if Derive(s1, week).Ok? {
      var k := if TargetSlots(week)[0] == t then 0 else 1;
      DerivedSlots(s1, week);
      ChangedAreDependents(s, slot, m, version, score, Derive(s1, week).value, k);
      ChangedUnlinks(s1, week, k);
    }
  }

  lemma ChangedUnlinks(s: State, week: int, k: nat)
    requires Derive(s, week).Ok? && k < |Derive(s, week).value.pairings| && Changed(s, Derive(s, week).value.pairings[k])
    ensures !Derivable(s, week)
  {
    assert !RowMatches(s, Derive(s, week).value.pairings[k]);
  }

  lemma WithoutDependents(s: State, slot: Slot, m: nat, version: nat, score: Score)
    requires Struct(s) && Link(s, WeekOf(slot)) && Correctable(s, slot, m, version) && slot != GrandFinal
    requires forall t :: t in Dependents(slot) ==> FindActive(s.pairings, t).None?
    ensures Link(AppendResult(s, m, version + 1, score), WeekOf(slot))
  {
    var week := WeekOf(slot);
    var s1 := AppendResult(s, m, version + 1, score);
    var k := |TargetSlots(week)| - 1;
    assert TargetSlots(week)[k] in Dependents(slot);
    if Derivable(s, week) {
      DerivableRow(s, week, k);
      assert false;
    }
    forall t | t in TargetSlots(week) ensures FindActive(s1.pairings, t).None? {
      AppendContest(s, slot, m, version, score, t);
    }
    assert Underived(s1, week);
  }

  lemma PremierOutnumbered(s: State, m: nat, version: nat, score: Score)
    requires Struct(s) && PremierOk(s) && Correctable(s, GrandFinal, m, version)
    ensures !PremierOk(AppendResult(s, m, version + 1, score))
  {
    CorrectedContest(s, GrandFinal, m, version, score);
  }

  /**
   Appending a version without reconciling keeps the bracket settled exactly
   when no pairing has been derived from the corrected contest yet; of the
   Grand Final, never, since its premier is not recorded.
   */
  lemma UnreconciledCorrectionKeepsIff(s: State, slot: Slot, m: nat, version: nat, score: Score)
    requires Inv(s) && Correctable(s, slot, m, version)
    ensures Inv(AppendResult(s, m, version + 1, score))
       <==> slot != GrandFinal && forall t :: t in Dependents(slot) ==> FindActive(s.pairings, t).None?
  {
    var s1 := AppendResult(s, m, version + 1, score);
    if slot == GrandFinal {
      PremierOutnumbered(s, m, version, score);
    } else if t :| t in Dependents(slot) && FindActive(s.pairings, t).Some? {
      DependentOutdated(s, slot, m, version, score, t);
    } else {
      UnreconciledKeeps(s, slot, m, version, score);
    }
  }

  lemma UnreconciledKeeps(s: State, slot: Slot, m: nat, version: nat, score: Score)
    requires Inv(s) && Correctable(s, slot, m, version) && slot != GrandFinal
    requires forall t :: t in Dependents(slot) ==> FindActive(s.pairings, t).None?
    ensures Inv(AppendResult(s, m, version + 1, score))
  {
    var s1 := AppendResult(s, m, version + 1, score);
    if slot == SecondSemi { assert Preliminary in Dependents(slot); }
    AppendStruct(s, slot, m, version, score);
    CorrectionBase(s, slot, m, version, score);
    forall w | 1 <= w <= 3 ensures Link(s1, w) {
      if w == WeekOf(slot) {
        WithoutDependents(s, slot, m, version, score);
      } else {
        CorrectionOtherLinks(s, slot, m, version, score, w);
      }
    }
  }

  // ----- An entry paired with itself -----

  /** The Preliminary's home is the loser of the Second Semi, its away neither of that contest's entrants. */
  lemma PreliminaryEntrants(s: State)
    requires |s.seeds| == 10 && Distinct(s.seeds) && Base(s) && Link(s, 1) && Link(s, 2)
    requires ContestAt(s, SecondSemi).Ok? && ContestAt(s, Preliminary).Ok?
    ensures var c, p := ContestAt(s, SecondSemi).value, ContestAt(s, Preliminary).value;
            && c.home != c.away && p.home == Loser(s, c)
            && p.away != c.home && p.away != c.away
  {
    var meets := Rebuild(s.seeds, CurrentScores(s)).meets;
    PreliminaryRows(s);
    RebuiltPreliminary(s.seeds, CurrentScores(s));
    Entrants(s, SecondSemi, meets[SecondSemi]);
    Entrants(s, Preliminary, meets[Preliminary]);
  }

  lemma Entrants(s: State, slot: Slot, meet: (Entry, Entry))
    requires RowPairs(s, slot, meet) && ContestAt(s, slot).Ok?
    ensures (ContestAt(s, slot).value.home, ContestAt(s, slot).value.away) == meet
  {
  }

  lemma PlayedOn(s: State)
    requires Link(s, 1) && Link(s, 2) && ContestAt(s, SecondSemi).Ok? && ContestAt(s, Preliminary).Ok?
    ensures Derivable(s, 1) && Derivable(s, 2)
  {
    assert SecondSemi in TargetSlots(1) && Preliminary in TargetSlots(2);
  }

  lemma PreliminaryRows(s: State)
    requires |s.seeds| == 10 && Base(s) && Link(s, 1) && Link(s, 2)
    requires ContestAt(s, SecondSemi).Ok? && ContestAt(s, Preliminary).Ok?
    ensures var meets := Rebuild(s.seeds, CurrentScores(s)).meets;
            RowPairs(s, SecondSemi, meets[SecondSemi]) && RowPairs(s, Preliminary, meets[Preliminary])
    ensures ContestAt(s, Preliminary).value.home == Loser(s, ContestAt(s, SecondSemi).value)
  {
    PlayedOn(s);
    WeekOnePairs(s);
    WeekTwoPairs(s);
    DerivedPairs(s, 2);
  }

  lemma RebuiltPreliminary(seeds: seq<Entry>, scores: map<Slot, Score>)
    requires |seeds| == 10 && Distinct(seeds)
    ensures var meets := Rebuild(seeds, scores).meets;
            && meets[SecondSemi].0 != meets[SecondSemi].1
            && meets[Preliminary].1 != meets[SecondSemi].0 && meets[Preliminary].1 != meets[SecondSemi].1
  {
    var b := Rebuild(seeds, scores);
    RebuildSplits(seeds, scores);
    DecideSplits(seeds, scores, QualifyingFinal, seeds[1], seeds[2]);
    DecideSplits(seeds, scores, EliminationFinal, seeds[3], seeds[4]);
    DecideSplits(seeds, scores, SecondSemi, b.meets[SecondSemi].0, b.meets[SecondSemi].1);
    DecideSplits(seeds, scores, FirstSemi, b.meets[FirstSemi].0, b.meets[FirstSemi].1);
    DecideSplits(seeds, scores, Preliminary, b.meets[Preliminary].0, b.meets[Preliminary].1);
  }

  /**
   Correct the Second Semi after the Preliminary Final is decided, then
   advance: the Grand Final pairs an entry with itself exactly when the new
   score makes the Second Semi's old loser its winner and that entry, the
   Preliminary's home side, also won the Preliminary.
   */
  lemma UnreconciledCorrectionSelfPairs(s: State, m: nat, version: nat, score: Score)
    requires Inv(s) && Correctable(s, SecondSemi, m, version) && ContestAt(s, Preliminary).Ok? && Underived(s, 3)
    ensures ContestAt(s, SecondSemi).Ok? && Advance(AppendResult(s, m, version + 1, score), 3, None).Ok?
    ensures var c, p := ContestAt(s, SecondSemi).value, ContestAt(s, Preliminary).value;
            var s' := Advance(AppendResult(s, m, version + 1, score), 3, None).value;
            var i := FindActive(s'.pairings, GrandFinal);
            i.Some? && (s'.pairings[i.value].away == Some(s'.pairings[i.value].home)
                        <==> WinnerLoser(s.seeds, c.home, c.away, score).0 == Loser(s, c) && Winner(s, p) == p.home)
  {
    var s1 := AppendResult(s, m, version + 1, score);
    AppendedContests(s, m, version, score);
    UnreconciledAdvance(s1);
    PreliminaryEntrants(s);
    var c, p := ContestAt(s, SecondSemi).value, ContestAt(s, Preliminary).value;
    OnlyTheLoser(s.seeds, c, p, score);
  }

  /** Of the Second Semi's entrants only its loser can also win the Preliminary. */
  lemma OnlyTheLoser(seeds: seq<Entry>, c: Contest, p: Contest, score: Score)
    requires c.home != c.away && p.home == WinnerLoser(seeds, c.home, c.away, c.score).1
    requires p.away != c.home && p.away != c.away
    ensures var winner := WinnerLoser(seeds, p.home, p.away, p.score).0;
            WinnerLoser(seeds, c.home, c.away, score).0 == winner
            <==> WinnerLoser(seeds, c.home, c.away, score).0 == p.home && winner == p.home
  {
  }

  lemma AppendedContests(s: State, m: nat, version: nat, score: Score)
    requires Struct(s) && Correctable(s, SecondSemi, m, version) && Underived(s, 3)
    ensures var s1 := AppendResult(s, m, version + 1, score);
            && Struct(s1) && Underived(s1, 3) && s1.seeds == s.seeds
            && ContestAt(s, SecondSemi).Ok?
            && ContestAt(s1, SecondSemi) == Ok(ContestAt(s, SecondSemi).value.(version := version + 1, score := score))
            && ContestAt(s1, Preliminary) == ContestAt(s, Preliminary)
  {
    AppendContest(s, SecondSemi, m, version, score, Preliminary);
    AppendContest(s, SecondSemi, m, version, score, GrandFinal);
    CorrectedContest(s, SecondSemi, m, version, score);
    AppendStruct(s, SecondSemi, m, version, score);
    assert GrandFinal in TargetSlots(3);
  }

  lemma UnreconciledAdvance(s: State)
    requires Struct(s) && Underived(s, 3) && ContestAt(s, SecondSemi).Ok? && ContestAt(s, Preliminary).Ok?
    ensures Advance(s, 3, None).Ok?
    ensures var i := FindActive(Advance(s, 3, None).value.pairings, GrandFinal);
            i.Some? && var p := Advance(s, 3, None).value.pairings[i.value];
            p.home == Winner(s, ContestAt(s, SecondSemi).value) && p.away == Some(Winner(s, ContestAt(s, Preliminary).value))
  {
    AdvanceAccepted(s);
    var d := Derive(s, 3).value;
    AdvanceTables(s, 3, d);
    assert RowMatches(AdvancedTables(s, d), d.pairings[0]);
  }

  lemma AdvanceAccepted(s: State)
    requires |s.seeds| > 0 && Underived(s, 3) && ContestAt(s, SecondSemi).Ok? && ContestAt(s, Preliminary).Ok?
    ensures Derive(s, 3).Ok? && Advance(s, 3, None) == Ok(AdvancedTables(s, Derive(s, 3).value))
  {
    assert !AnyAdvanced(s, 3);
  }

  // ----- A bracket in which it happens -----

  const SEEDS: seq<Entry> := [0, 1, 2, 3, 4, 5, 6, 7, 8, 9]

  /** Every home side has won by a point. */
  const HOME_WIN := Score(1.0, 0.0)

  const PLAYED_ROWS: seq<Pairing> := [
    FreshRow(Bye, 0, None),
    FreshRow(QualifyingFinal, 1, Some(2)).(matchup := Some(0)),
    FreshRow(EliminationFinal, 3, Some(4)).(matchup := Some(1)),
    RowFor(Derived(SecondSemi, 0, 1, Source(0, 1), None), Some(2)),
    RowFor(Derived(FirstSemi, 2, 3, Source(0, 1), Some(Source(1, 1))), Some(3)),
    RowFor(Derived(Preliminary, 1, 2, Source(2, 1), Some(Source(3, 1))), Some(4))]

  const PLAYED_MATCHUPS: seq<Matchup> := [
    Matchup(1, 1, 1, 2, Some(1), 1), Matchup(1, 2, 3, 4, Some(1), 1),
    Matchup(2, 1, 0, 1, Some(1), 1), Matchup(2, 2, 2, 3, Some(1), 1),
    Matchup(3, 1, 1, 2, Some(1), 1)]

  const PLAYED_ELIMINATIONS: seq<Elimination> := [
    Elimination(PreFinals, 5, None, true, None), Elimination(PreFinals, 6, None, true, None),
    Elimination(PreFinals, 7, None, true, None), Elimination(PreFinals, 8, None, true, None),
    Elimination(PreFinals, 9, None, true, None),
    Elimination(Week1EliminationFinal, 4, Some(2), true, None),
    Elimination(Week2FirstSemiFinal, 3, Some(4), true, None)]

  /** Three weeks played and published, the Grand Final not yet derived. */
  const PLAYED := State(SEEDS, PLAYED_ROWS, PLAYED_ELIMINATIONS, PLAYED_MATCHUPS,
    map[Source(0, 1) := HOME_WIN, Source(1, 1) := HOME_WIN, Source(2, 1) := HOME_WIN, Source(3, 1) := HOME_WIN, Source(4, 1) := HOME_WIN],
    map[1 := Final, 2 := Final, 3 := Final], Play({}, {}, {}, map[]), [])

  lemma PlayedRows()
    ensures Unique(PLAYED_ROWS)
    ensures FindActive(PLAYED_ROWS, Bye) == Some(0) && FindActive(PLAYED_ROWS, QualifyingFinal) == Some(1)
    ensures FindActive(PLAYED_ROWS, EliminationFinal) == Some(2) && FindActive(PLAYED_ROWS, SecondSemi) == Some(3)
    ensures FindActive(PLAYED_ROWS, FirstSemi) == Some(4) && FindActive(PLAYED_ROWS, Preliminary) == Some(5)
    ensures FindActive(PLAYED_ROWS, GrandFinal) == None
  {
    FindIs(PLAYED_ROWS, Bye, 0);
    FindIs(PLAYED_ROWS, QualifyingFinal, 1);
    FindIs(PLAYED_ROWS, EliminationFinal, 2);
    FindIs(PLAYED_ROWS, SecondSemi, 3);
    FindIs(PLAYED_ROWS, FirstSemi, 4);
    FindIs(PLAYED_ROWS, Preliminary, 5);
  }

  lemma PlayedEliminations()
    ensures EliminationsOk(SEEDS, PLAYED_ELIMINATIONS)
    ensures FindElimination(PLAYED_ELIMINATIONS, Week1EliminationFinal) == Some(5)
    ensures FindElimination(PLAYED_ELIMINATIONS, Week2FirstSemiFinal) == Some(6)
    ensures FindElimination(PLAYED_ELIMINATIONS, Week3PreliminaryFinal) == None
  {
    var five := FindElimination(PLAYED_ELIMINATIONS, Week1EliminationFinal);
    var six := FindElimination(PLAYED_ELIMINATIONS, Week2FirstSemiFinal);
    assert PLAYED_ELIMINATIONS[5].stage == Week1EliminationFinal && PLAYED_ELIMINATIONS[6].stage == Week2FirstSemiFinal;
    assert five.Some? && six.Some?;
  }

  lemma ContestIs(s: State, slot: Slot, i: nat, m: nat, home: Entry, away: Entry, score: Score)
    requires FindActive(s.pairings, slot) == Some(i) && i < |s.pairings| && m < |s.matchups|
    requires s.pairings[i].matchup == Some(m) && s.pairings[i].home == home && s.pairings[i].away == Some(away)
    requires s.matchups[m].effective == Some(1) && Source(m, 1) in s.results && s.results[Source(m, 1)] == score
    ensures ContestAt(s, slot) == Ok(Contest(i, m, 1, home, away, score))
  {
  }

  lemma PlayedContests()
    ensures ContestAt(PLAYED, QualifyingFinal) == Ok(Contest(1, 0, 1, 1, 2, HOME_WIN))
    ensures ContestAt(PLAYED, EliminationFinal) == Ok(Contest(2, 1, 1, 3, 4, HOME_WIN))
    ensures ContestAt(PLAYED, SecondSemi) == Ok(Contest(3, 2, 1, 0, 1, HOME_WIN))
    ensures ContestAt(PLAYED, FirstSemi) == Ok(Contest(4, 3, 1, 2, 3, HOME_WIN))
    ensures ContestAt(PLAYED, Preliminary) == Ok(Contest(5, 4, 1, 1, 2, HOME_WIN))
    ensures ContestAt(PLAYED, GrandFinal).Err?
  {
    PlayedRows();
    ContestIs(PLAYED, QualifyingFinal, 1, 0, 1, 2, HOME_WIN);
    ContestIs(PLAYED, EliminationFinal, 2, 1, 3, 4, HOME_WIN);
    ContestIs(PLAYED, SecondSemi, 3, 2, 0, 1, HOME_WIN);
    ContestIs(PLAYED, FirstSemi, 4, 3, 2, 3, HOME_WIN);
    ContestIs(PLAYED, Preliminary, 5, 4, 1, 2, HOME_WIN);
  }

  lemma PlayedStruct()
    ensures Struct(PLAYED)
  {
    PlayedRows();
    PlayedEliminations();
    PlayedMatchups();
    PlayedRowsHold();
    PlayedResults();
  }

  lemma PlayedResults()
    ensures forall r :: r in PLAYED.results ==> ResultOk(PLAYED, r)
  {
  }

  lemma PlayedMatchups()
    ensures forall m :: 0 <= m < |PLAYED.matchups| ==> MatchupOk(PLAYED, m)
  {
    forall m | 0 <= m < |PLAYED.matchups| ensures MatchupOk(PLAYED, m) {
      PlayedRows();
      assert Source(m, 1) in PLAYED.results;
    }
  }

  lemma PlayedRowsHold()
    ensures forall i :: 0 <= i < |PLAYED.pairings| ==> Seeded(PLAYED, i) && RowOk(PLAYED.pairings, i) && RowMatchup(PLAYED, i)
  {
    forall i | 0 <= i < |PLAYED.pairings| ensures Seeded(PLAYED, i) { PlayedSeeded(i); }
  }

  lemma PlayedSeeded(i: nat)
    requires i < |PLAYED_ROWS|
    ensures PLAYED_ROWS[i].home in SEEDS && (PLAYED_ROWS[i].away.Some? ==> PLAYED_ROWS[i].away.value in SEEDS)
  {
    assert SEEDS[PLAYED_ROWS[i].home] == PLAYED_ROWS[i].home;
    if PLAYED_ROWS[i].away.Some? { assert SEEDS[PLAYED_ROWS[i].away.value] == PLAYED_ROWS[i].away.value; }
  }

  lemma PlayedInv()
    ensures Inv(PLAYED) && Underived(PLAYED, 3)
  {
    PlayedStruct();
    PlayedBase();
    PlayedPremier();
    PlayedWeekOne();
    PlayedWeekTwo();
  }

  lemma PlayedBase()
    ensures Base(PLAYED) && Underived(PLAYED, 3)
  {
    PlayedRows();
    PlayedEliminations();
  }

  lemma PlayedPremier()
    ensures PremierOk(PLAYED)
  {
    PlayedContests();
  }

  lemma PlayedDerivations()
    ensures Derive(PLAYED, 1) == Ok(Derivation([Derived(SecondSemi, 0, 1, Source(0, 1), None),
                                                Derived(FirstSemi, 2, 3, Source(0, 1), Some(Source(1, 1)))],
                                               Week1EliminationFinal, 4, 2, FirstSemi))
    ensures Derive(PLAYED, 2) == Ok(Derivation([Derived(Preliminary, 1, 2, Source(2, 1), Some(Source(3, 1)))],
                                               Week2FirstSemiFinal, 3, 4, Preliminary))
  {
    PlayedContests();
  }

  lemma PlayedWeekOne()
    ensures Derivable(PLAYED, 1)
  {
    PlayedDerivations();
    PlayedRows();
    PlayedEliminations();
  }

  lemma PlayedWeekTwo()
    ensures Derivable(PLAYED, 2)
  {
    PlayedDerivations();
    PlayedRows();
    PlayedEliminations();
  }

  /** The loser of the Second Semi won the Preliminary; reversing the Second Semi pairs it with itself. */
  lemma UnreconciledCorrectionCanSelfPair()
    ensures Inv(PLAYED) && Correctable(PLAYED, SecondSemi, 2, 1) && Underived(PLAYED, 3)
    ensures var r := Advance(AppendResult(PLAYED, 2, 2, Score(0.0, 1.0)), 3, None);
            r.Ok? && var i := FindActive(r.value.pairings, GrandFinal);
            i.Some? && r.value.pairings[i.value].away == Some(r.value.pairings[i.value].home)
  {
    PlayedInv();
    PlayedRows();
    PlayedContests();
    UnreconciledCorrectionSelfPairs(PLAYED, 2, 1, Score(0.0, 1.0));
  }
}
