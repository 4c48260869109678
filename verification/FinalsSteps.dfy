/** Each transaction keeps the invariant. */
module FinalsSteps {
  import opened Options
  import opened FinalsTables
  import opened FinalsInvariant

  lemma CreatedKeeps(seeds: seq<Entry>)
    requires CreateBracket(seeds).Ok?
    ensures Inv(CreateBracket(seeds).value)
  {
    CreatedStruct(seeds);
    CreatedBase(seeds);
    assert CreateBracket(seeds).value.premiers == [];
  }

  lemma CreatedStruct(seeds: seq<Entry>)
    requires CreateBracket(seeds).Ok?
    ensures Struct(CreateBracket(seeds).value)
  {
    forall i, j | 0 <= i < j < |seeds| ensures seeds[i] != seeds[j] {}
  }

  lemma CreatedBase(seeds: seq<Entry>)
    requires CreateBracket(seeds).Ok? && Unique(CreateBracket(seeds).value.pairings)
    ensures var s := CreateBracket(seeds).value;
            Base(s) && Underived(s, 1) && Underived(s, 2) && Underived(s, 3)
  {
    var s := CreateBracket(seeds).value;
    FindIs(s.pairings, Bye, 0);
    FindIs(s.pairings, QualifyingFinal, 1);
    FindIs(s.pairings, EliminationFinal, 2);
  }

  /** Round and play-state writes: no bracket table moves, and a final round stays final. */
  ghost predicate SameBracketTables(s: State, s': State) {
    && s'.seeds == s.seeds && s'.pairings == s.pairings && s'.eliminations == s.eliminations
    && s'.matchups == s.matchups && s'.results == s.results && s'.premiers == s.premiers
    && (forall w :: w in s.rounds && s.rounds[w] == Final ==> w in s'.rounds && s'.rounds[w] == Final)
  }

  /** Creating or moving a round, and playing, write none of the bracket's tables. */
  lemma SmallStepTables(s: State, step: Step)
    requires Attempt(s, step).Ok? && (step.StepCreateRound? || step.StepTransition? || step.StepPlay?)
    ensures SameBracketTables(s, Attempt(s, step).value)
    ensures forall w :: w in Attempt(s, step).value.rounds && Attempt(s, step).value.rounds[w] == Final ==>
              w in s.rounds && s.rounds[w] == Final
  {
  }

  lemma SameTablesStruct(s: State, s': State)
    requires Struct(s) && SameBracketTables(s, s')
    ensures Struct(s')
  {
    forall m | 0 <= m < |s'.matchups| ensures MatchupOk(s', m) {
      assert MatchupOk(s, m);
    }
    forall i | 0 <= i < |s'.pairings| ensures RowMatchup(s', i) && Seeded(s', i) {
      assert RowMatchup(s, i) && Seeded(s, i);
    }
    forall r | r in s'.results ensures ResultOk(s', r) {
      assert ResultOk(s, r);
    }
  }

  lemma SameTablesContest(s: State, s': State, slot: Slot)
    requires SameBracketTables(s, s')
    ensures ContestAt(s', slot) == ContestAt(s, slot) && SameRow(s, s', slot)
  {
  }

  lemma SameTablesKeep(s: State, s': State)
    requires Inv(s) && SameBracketTables(s, s')
    ensures Inv(s')
  {
    SameTablesStruct(s, s');
    forall slot: Slot ensures ContestAt(s', slot) == ContestAt(s, slot) && SameRow(s, s', slot) {
      SameTablesContest(s, s', slot);
    }
    LinksFrame(s, s');
  }

  /** All three links at once, for a write that touches no row's participants and no played contest. */
  lemma LinksFrame(s: State, s': State)
    requires Inv(s) && s.seeds == s'.seeds && s.eliminations == s'.eliminations
    requires forall slot: Slot :: SameRow(s, s', slot)
    requires forall slot: Slot :: SameContest(s, s', slot) || ContestAt(s, slot).Err?
    ensures Base(s') && Link(s', 1) && Link(s', 2) && Link(s', 3)
  {
    assert SameRow(s, s', Bye) && SameRow(s, s', QualifyingFinal) && SameRow(s, s', EliminationFinal);
    LinkFrame(s, s', 1);
    LinkFrame(s, s', 2);
    LinkFrame(s, s', 3);
  }

  // ----- Materialise -----

  /** Materialising fills in one row's matchup: every slot keeps its row and its contest. */
  lemma MaterialiseFinds(s: State, row: nat)
    requires Struct(s) && Materialise(s, row).Ok?
    ensures var s' := Materialise(s, row).value;
            && (forall slot: Slot :: FindActive(s'.pairings, slot) == FindActive(s.pairings, slot))
            && (forall slot: Slot :: SameRow(s, s', slot))
            && (forall slot: Slot :: SameContest(s, s', slot))
  {
    var s' := Materialise(s, row).value;
    if s' != s {
      var p := s.pairings[row];
      forall slot: Slot
        ensures FindActive(s'.pairings, slot) == FindActive(s.pairings, slot)
      {
        FindAfterUpdate(s.pairings, row, s'.pairings[row], slot);
        if slot == p.slot { FindIs(s.pairings, slot, row); }
      }
      forall slot: Slot ensures SameContest(s, s', slot) {
        var j := FindActive(s.pairings, slot);
        if j.Some? && j.value != row {
          assert s'.pairings[j.value] == s.pairings[j.value];
          assert RowMatchup(s, j.value);
        }
      }
    }
  }

  lemma MaterialiseStruct(s: State, row: nat)
    requires Struct(s) && Materialise(s, row).Ok?
    ensures var s' := Materialise(s, row).value;
            && Struct(s')
            && (forall slot: Slot :: SameRow(s, s', slot))
            && (forall slot: Slot :: SameContest(s, s', slot))
  {
    var s' := Materialise(s, row).value;
    MaterialiseFinds(s, row);
    if s' != s {
      var p := s.pairings[row];
      FindAfterUpdate(s.pairings, row, s'.pairings[row], p.slot);
      FindIs(s.pairings, p.slot, row);
      forall m | 0 <= m < |s'.matchups| ensures MatchupOk(s', m) {
        if m < |s.matchups| {
          assert MatchupOk(s, m);
          var j := FindActive(s.pairings, SlotAt(s.matchups[m].week, s.matchups[m].order)).value;
          assert j != row;
        }
      }
      forall i | 0 <= i < |s'.pairings| ensures RowMatchup(s', i) && Seeded(s', i) && RowOk(s'.pairings, i) {
        assert RowMatchup(s, i) && Seeded(s, i) && RowOk(s.pairings, i);
      }
      forall r | r in s'.results ensures ResultOk(s', r) {
        assert ResultOk(s, r);
      }
    }
  }

  lemma MaterialiseKeeps(s: State, row: nat)
    requires Inv(s) && Materialise(s, row).Ok?
    ensures Inv(Materialise(s, row).value)
  {
    var s' := Materialise(s, row).value;
    MaterialiseStruct(s, row);
    MaterialiseElse(s, row);
    FramedKeeps(s, s');
  }

  lemma MaterialiseElse(s: State, row: nat)
    requires Materialise(s, row).Ok?
    ensures var s' := Materialise(s, row).value;
            s'.seeds == s.seeds && s'.eliminations == s.eliminations && s'.premiers == s.premiers
  {
  }

  /** A write that touches no row's participants and decides no contest differently. */
  lemma FramedKeeps(s: State, s': State)
    requires Inv(s) && Struct(s') && s'.seeds == s.seeds && s'.eliminations == s.eliminations && s'.premiers == s.premiers
    requires forall slot: Slot :: SameRow(s, s', slot)
    requires forall slot: Slot :: SameContest(s, s', slot)
    ensures Inv(s')
  {
    LinksFrame(s, s');
    assert SameContest(s, s', GrandFinal);
  }

  // ----- Publish -----

  lemma BetterSeededIsWinner(seeds: seq<Entry>, home: Entry, away: Entry)
    requires home in seeds && away in seeds
    ensures BetterSeeded(seeds, home, away) == if Rank(seeds, home) < Rank(seeds, away) then home else away
  {
  }

  /** The premier the review step records is the winner the bracket derives. */
  lemma PremierIsWinner(seeds: seq<Entry>, home: Entry, away: Entry, score: Score)
    requires home in seeds && away in seeds
    ensures Premier(seeds, home, away, score) == WinnerLoser(seeds, home, away, score).0
  {
    BetterSeededIsWinner(seeds, home, away);
  }

  /** Publication, matchup by matchup. */
  ghost predicate PublishEffects(s: State, s': State, ids: set<nat>) {
    && s'.seeds == s.seeds && s'.pairings == s.pairings && s'.eliminations == s.eliminations
    && |s'.matchups| == |s.matchups|
    && (forall m :: 0 <= m < |s.matchups| ==>
          s'.matchups[m] == if m in ids then s.matchups[m].(effective := Some(1)) else s.matchups[m])
    && (forall m {:trigger Source(m, 1)} :: m in ids ==> m < |s.matchups| && Source(m, 1) in s'.results)
    && (forall r :: r in s'.results ==> r in s.results || (r.matchup in ids && r.version == 1))
    && (forall r :: r in s.results ==> r in s'.results)
    && (forall r :: r in s.results && r.matchup !in ids ==> s'.results[r] == s.results[r])
    && (forall w :: w in s.rounds && s.rounds[w] == Final ==> w in s'.rounds && s'.rounds[w] == Final)
    && (forall m :: m in ids ==> m < |s.matchups| && s.matchups[m].effective.None?
                                 && s.matchups[m].week in s'.rounds && s'.rounds[s.matchups[m].week] == Final)
  }

  lemma PublishDoes(s: State, week: int, signoffs: map<nat, Signoff>)
    requires Struct(s) && Publish(s, week, signoffs).Ok?
    ensures PublishEffects(s, Publish(s, week, signoffs).value, signoffs.Keys)
    ensures forall m :: m in signoffs <==> m in MatchupsOfWeek(s, week)
    ensures forall m :: m in signoffs ==> Publish(s, week, signoffs).value.results[Source(m, 1)] == signoffs[m].score
  {
    var s' := Publish(s, week, signoffs).value;
    forall m | m in signoffs ensures m < |s.matchups| && s.matchups[m].effective.None? && s.matchups[m].week == week {
      assert m in MatchupsOfWeek(s, week);
      assert MatchupOk(s, m);
    }
  }

  lemma PublishStruct(s: State, s': State, ids: set<nat>)
    requires Struct(s) && PublishEffects(s, s', ids)
    ensures Struct(s')
  {
    forall m | 0 <= m < |s'.matchups| ensures MatchupOk(s', m) {
      assert MatchupOk(s, m);
    }
    forall i | 0 <= i < |s'.pairings| ensures RowMatchup(s', i) && Seeded(s', i) {
      assert RowMatchup(s, i) && Seeded(s, i);
    }
    forall r | r in s'.results ensures ResultOk(s', r) {
      if r in s.results { assert ResultOk(s, r); }
    }
  }

  lemma PublishContest(s: State, s': State, ids: set<nat>, slot: Slot)
    requires Struct(s) && PublishEffects(s, s', ids)
    ensures SameRow(s, s', slot)
    ensures SameContest(s, s', slot) || ContestAt(s, slot).Err?
    ensures MatchupOf(s, slot).Err? || MatchupOf(s, slot).value !in ids ==> SameContest(s, s', slot)
  {
    var i := FindActive(s.pairings, slot);
    if i.Some? {
      assert RowMatchup(s, i.value);
    }
  }

  lemma PublishKeeps(s: State, week: int, signoffs: map<nat, Signoff>)
    requires Inv(s) && Publish(s, week, signoffs).Ok?
    ensures Inv(Publish(s, week, signoffs).value)
  {
    var s' := Publish(s, week, signoffs).value;
    PublishDoes(s, week, signoffs);
    PublishStruct(s, s', signoffs.Keys);
    forall slot: Slot ensures SameRow(s, s', slot) && (SameContest(s, s', slot) || ContestAt(s, slot).Err?) {
      PublishContest(s, s', signoffs.Keys, slot);
    }
    LinksFrame(s, s');
    PublishPremier(s, week, signoffs);
  }

  /** A newly published slot becomes a contest at version 1 between its matchup's participants. */
  lemma PublishedContest(s: State, s': State, ids: set<nat>, slot: Slot, m: nat)
    requires Struct(s) && PublishEffects(s, s', ids) && MatchupOf(s, slot) == Ok(m) && m in ids
    ensures ContestAt(s, slot).Err?
    ensures Source(m, 1) in s'.results
    ensures ContestAt(s', slot) == Ok(Contest(FindActive(s.pairings, slot).value, m, 1,
                                              s.matchups[m].home, s.matchups[m].away, s'.results[Source(m, 1)]))
    ensures s.matchups[m].home in s.seeds && s.matchups[m].away in s.seeds
  {
    var i := FindActive(s.pairings, slot).value;
    assert MatchupOk(s, m) && Seeded(s, i) && RowMatchup(s, i) && RowOk(s.pairings, i);
    assert slot != Bye;
    SlotAtOrder(slot);
  }

  lemma SlotAtOrder(slot: Slot)
    requires slot != Bye
    ensures SlotAt(WeekOf(slot), OrderOf(slot)) == slot
  {
  }

  lemma PublishEarlierPremier(s: State, s': State, ids: set<nat>)
    requires Struct(s) && PremierOk(s) && PublishEffects(s, s', ids) && s'.premiers == s.premiers
    requires forall m :: m in ids ==> s.matchups[m].week != 4
    ensures PremierOk(s')
  {
    PublishContest(s, s', ids, GrandFinal);
    var m := MatchupOf(s, GrandFinal);
    if m.Ok? {
      assert RowMatchup(s, FindActive(s.pairings, GrandFinal).value);
    }
    assert SameContest(s, s', GrandFinal);
  }

  lemma PublishGrandFinalPremier(s: State, s': State, ids: set<nat>, m: nat)
    requires Struct(s) && PremierOk(s) && PublishEffects(s, s', ids)
    requires MatchupOf(s, GrandFinal) == Ok(m) && m in ids && Source(m, 1) in s'.results
    requires s'.premiers == s.premiers + [Premier(s.seeds, s.matchups[m].home, s.matchups[m].away, s'.results[Source(m, 1)])]
    ensures PremierOk(s')
  {
    PublishedContest(s, s', ids, GrandFinal, m);
    PremierIsWinner(s.seeds, s.matchups[m].home, s.matchups[m].away, s'.results[Source(m, 1)]);
  }

  lemma PublishPremier(s: State, week: int, signoffs: map<nat, Signoff>)
    requires Struct(s) && PremierOk(s) && Publish(s, week, signoffs).Ok?
    ensures PremierOk(Publish(s, week, signoffs).value)
  {
    var s' := Publish(s, week, signoffs).value;
    PublishDoes(s, week, signoffs);
    if week == 4 {
      PublishGrandFinalPremier(s, s', signoffs.Keys, MatchupOf(s, GrandFinal).value);
    } else {
      PublishEarlierPremier(s, s', signoffs.Keys);
    }
  }

  // ----- Inserting and replacing derived rows -----

  lemma InsertFinds(s: State, row: Pairing)
    requires row.active && row.matchup.None? && FindActive(s.pairings, row.slot).None?
    ensures var s' := s.(pairings := s.pairings + [row]);
            && (forall slot: Slot :: FindActive(s'.pairings, slot) == if slot == row.slot then Some(|s.pairings|) else FindActive(s.pairings, slot))
            && (forall slot: Slot :: slot != row.slot ==> SameRow(s, s', slot))
            && (forall slot: Slot :: SameContest(s, s', slot))
  {
    forall slot: Slot { FindAfterAppend(s.pairings, row, slot); }
  }

  lemma InsertStruct(s: State, row: Pairing)
    requires Struct(s) && row.active && row.matchup.None? && row.supersededBy.None? && row.slot != Bye
    requires row.away.Some? && row.home in s.seeds && row.away.value in s.seeds
    requires FindActive(s.pairings, row.slot).None?
    ensures var s' := s.(pairings := s.pairings + [row]);
            && Struct(s')
            && FindActive(s'.pairings, row.slot) == Some(|s.pairings|)
            && (forall slot: Slot :: slot != row.slot ==> SameRow(s, s', slot))
            && (forall slot: Slot :: SameContest(s, s', slot))
  {
    var s' := s.(pairings := s.pairings + [row]);
    InsertFinds(s, row);
    forall m | 0 <= m < |s'.matchups| ensures MatchupOk(s', m) { InsertMatchup(s, row, m); }
    forall i | 0 <= i < |s'.pairings| ensures RowMatchup(s', i) && Seeded(s', i) && RowOk(s'.pairings, i) { InsertRow(s, row, i); }
    forall r | r in s'.results ensures ResultOk(s', r) {
      assert ResultOk(s, r);
    }
  }

  lemma InsertMatchup(s: State, row: Pairing, m: nat)
    requires row.active && row.matchup.None? && FindActive(s.pairings, row.slot).None? && m < |s.matchups| && MatchupOk(s, m)
    ensures MatchupOk(s.(pairings := s.pairings + [row]), m)
  {
    FindAfterAppend(s.pairings, row, SlotAt(s.matchups[m].week, s.matchups[m].order));
  }

  lemma InsertRow(s: State, row: Pairing, i: nat)
    requires row.active && row.matchup.None? && row.supersededBy.None? && row.slot != Bye
    requires row.away.Some? && row.home in s.seeds && row.away.value in s.seeds && i <= |s.pairings|
    requires i < |s.pairings| ==> RowMatchup(s, i) && Seeded(s, i) && RowOk(s.pairings, i)
    ensures var s' := s.(pairings := s.pairings + [row]);
            RowMatchup(s', i) && Seeded(s', i) && RowOk(s'.pairings, i)
  {
  }

  lemma ContestSeeded(s: State, slot: Slot)
    requires Struct(s) && ContestAt(s, slot).Ok?
    ensures var c := ContestAt(s, slot).value;
            && c.home in s.seeds && c.away in s.seeds
            && Winner(s, c) in s.seeds && Loser(s, c) in s.seeds
  {
    assert Seeded(s, ContestAt(s, slot).value.row);
  }

  lemma DerivedSeeded(s: State, week: int)
    requires Struct(s) && 1 <= week <= 3 && Derive(s, week).Ok?
    ensures var d := Derive(s, week).value;
            forall k :: 0 <= k < |d.pairings| ==> d.pairings[k].home in s.seeds && d.pairings[k].away in s.seeds
  {
    ContestSeeded(s, SourceSlots(week).0);
    ContestSeeded(s, SourceSlots(week).1);
  }

  ghost predicate RowPlaced(s: State, d: Derived, matchup: Option<nat>) {
    FindActive(s.pairings, d.slot).Some? && s.pairings[FindActive(s.pairings, d.slot).value] == RowFor(d, matchup)
  }

  /** The rows of a derivation, and its elimination, are the active ones. */
  ghost predicate DerivationIn(s: State, d: Derivation) {
    && (forall k :: 0 <= k < |d.pairings| ==> RowMatches(s, d.pairings[k]))
    && EliminationMatches(s, d)
  }

  /** Only the target slots of one week, and its elimination, may differ; no contest does. */
  ghost predicate Confined(s: State, s': State, week: int) {
    && s'.seeds == s.seeds
    && (forall slot: Slot :: slot !in TargetSlots(week) ==> SameRow(s, s', slot))
    && (forall slot: Slot :: SameContest(s, s', slot))
    && (forall stage: Stage :: stage != StageAfter(week) ==> SameElimination(s, s', stage))
  }

  lemma ConfinedTransitive(s: State, s1: State, s': State, week: int)
    requires Confined(s, s1, week) && Confined(s1, s', week)
    ensures Confined(s, s', week)
  {
    forall slot: Slot ensures SameContest(s, s', slot) && (slot !in TargetSlots(week) ==> SameRow(s, s', slot)) {
      assert SameContest(s, s1, slot) && SameContest(s1, s', slot);
      if slot !in TargetSlots(week) { assert SameRow(s, s1, slot) && SameRow(s1, s', slot); }
    }
    forall stage: Stage | stage != StageAfter(week) ensures SameElimination(s, s', stage) {
      assert SameElimination(s, s1, stage) && SameElimination(s1, s', stage);
    }
  }

  function Inserted(s: State, d: Derived): State {
    s.(pairings := s.pairings + [RowFor(d, None)])
  }

  lemma InsertConfined(s: State, week: int, d: Derived)
    requires Struct(s) && d.slot in TargetSlots(week) && FindActive(s.pairings, d.slot).None?
    requires d.home in s.seeds && d.away in s.seeds
    ensures Struct(Inserted(s, d)) && Confined(s, Inserted(s, d), week) && RowPlaced(Inserted(s, d), d, None)
    ensures forall slot: Slot :: slot != d.slot ==> SameRow(s, Inserted(s, d), slot)
  {
    InsertStruct(s, RowFor(d, None));
  }

  ghost predicate DerivedFor(s: State, week: int, d: Derivation) {
    && |d.pairings| == |TargetSlots(week)|
    && (forall k :: 0 <= k < |d.pairings| ==> d.pairings[k].slot == TargetSlots(week)[k]
                                              && d.pairings[k].home in s.seeds && d.pairings[k].away in s.seeds)
  }

  lemma AllInsertedIs(s: State, d: Derivation)
    ensures |d.pairings| == 1 ==> AllInserted(s, d) == Inserted(s, d.pairings[0])
    ensures |d.pairings| == 2 ==> AllInserted(s, d) == Inserted(Inserted(s, d.pairings[0]), d.pairings[1])
  {
    if |d.pairings| == 1 {
      assert InsertAll(s.pairings, d.pairings) == s.pairings + [RowFor(d.pairings[0], None)];
    } else if |d.pairings| == 2 {
      assert InsertAll(s.pairings, d.pairings) == s.pairings + [RowFor(d.pairings[0], None)] + [RowFor(d.pairings[1], None)];
    }
  }

  lemma InsertAllStruct(s: State, week: int, d: Derivation)
    requires Struct(s) && 1 <= week <= 3 && Underived(s, week) && DerivedFor(s, week, d)
    ensures Struct(AllInserted(s, d)) && Confined(s, AllInserted(s, d), week)
    ensures forall k :: 0 <= k < |d.pairings| ==> RowPlaced(AllInserted(s, d), d.pairings[k], None)
  {
    AllInsertedIs(s, d);
    assert d.pairings[0].slot in TargetSlots(week);
    if week == 1 {
      assert d.pairings[1].slot in TargetSlots(week);
      InsertTwo(s, week, d.pairings[0], d.pairings[1]);
    } else {
      InsertConfined(s, week, d.pairings[0]);
    }
  }

  function AllInserted(s: State, d: Derivation): State {
    s.(pairings := InsertAll(s.pairings, d.pairings))
  }

  lemma InsertTwo(s: State, week: int, a: Derived, b: Derived)
    requires Struct(s) && a.slot in TargetSlots(week) && b.slot in TargetSlots(week) && a.slot != b.slot
    requires FindActive(s.pairings, a.slot).None? && FindActive(s.pairings, b.slot).None?
    requires a.home in s.seeds && a.away in s.seeds && b.home in s.seeds && b.away in s.seeds
    ensures var s' := Inserted(Inserted(s, a), b);
            Struct(s') && Confined(s, s', week) && RowPlaced(s', a, None) && RowPlaced(s', b, None)
  {
    InsertConfined(s, week, a);
    InsertSecond(s, Inserted(s, a), week, a, b);
  }

  lemma InsertSecond(s: State, s1: State, week: int, a: Derived, b: Derived)
    requires Struct(s1) && Confined(s, s1, week) && RowPlaced(s1, a, None) && a.slot != b.slot
    requires b.slot in TargetSlots(week) && FindActive(s.pairings, b.slot).None? && SameRow(s, s1, b.slot)
    requires b.home in s1.seeds && b.away in s1.seeds
    ensures Struct(Inserted(s1, b)) && Confined(s, Inserted(s1, b), week)
    ensures RowPlaced(Inserted(s1, b), a, None) && RowPlaced(Inserted(s1, b), b, None)
  {
    InsertConfined(s1, week, b);
    ConfinedTransitive(s, s1, Inserted(s1, b), week);
    FindAfterAppend(s1.pairings, RowFor(b, None), a.slot);
  }

  lemma AppendEliminationStruct(s: State, row: Elimination)
    requires Struct(s) && row.active && row.stage != PreFinals && FindElimination(s.eliminations, row.stage).None?
    ensures var s' := s.(eliminations := s.eliminations + [row]);
            && Struct(s')
            && FindElimination(s'.eliminations, row.stage) == Some(|s.eliminations|)
            && (forall stage: Stage :: stage != row.stage ==> SameElimination(s, s', stage))
            && (forall slot: Slot :: SameRow(s, s', slot) && ContestAt(s', slot) == ContestAt(s, slot))
  {
    var s' := s.(eliminations := s.eliminations + [row]);
    EliminationOnlyStruct(s, s');
    forall stage: Stage
      ensures FindElimination(s'.eliminations, stage) == if stage == row.stage then Some(|s.eliminations|) else FindElimination(s.eliminations, stage)
    {
      FindEliminationAfterAppend(s.eliminations, row, stage);
    }
  }

  lemma EliminationOnlyStruct(s: State, s': State)
    requires Struct(s) && s' == s.(eliminations := s'.eliminations) && EliminationsOk(s.seeds, s'.eliminations)
    ensures Struct(s')
  {
    forall m | 0 <= m < |s'.matchups| ensures MatchupOk(s', m) {
      assert MatchupOk(s, m);
    }
    forall i | 0 <= i < |s'.pairings| ensures RowMatchup(s', i) && Seeded(s', i) {
      assert RowMatchup(s, i) && Seeded(s, i);
    }
    forall r | r in s'.results ensures ResultOk(s', r) {
      assert ResultOk(s, r);
    }
  }

  function AdvancedTables(s: State, d: Derivation): State {
    s.(pairings := InsertAll(s.pairings, d.pairings),
       eliminations := s.eliminations + [Elimination(d.stage, d.eliminated, Some(d.sourcePairing), true, None)])
  }

  lemma AdvanceTables(s: State, week: int, d: Derivation)
    requires Struct(s) && 1 <= week <= 3 && Underived(s, week) && Derive(s, week) == Ok(d)
    ensures Struct(AdvancedTables(s, d))
    ensures DerivationIn(AdvancedTables(s, d), d)
    ensures Confined(s, AdvancedTables(s, d), week)
  {
    DerivedSlots(s, week);
    DerivedSeeded(s, week);
    InsertAllStruct(s, week, d);
    EliminationAdded(s, AllInserted(s, d), week, d);
  }

  lemma EliminationAdded(s: State, s1: State, week: int, d: Derivation)
    requires Struct(s1) && Confined(s, s1, week) && s1 == AllInserted(s, d) && 1 <= week <= 3
    requires d.stage == StageAfter(week) && FindElimination(s1.eliminations, d.stage).None?
    requires forall k :: 0 <= k < |d.pairings| ==> RowPlaced(s1, d.pairings[k], None)
    ensures Struct(AdvancedTables(s, d)) && DerivationIn(AdvancedTables(s, d), d) && Confined(s, AdvancedTables(s, d), week)
  {
    var s' := AdvancedTables(s, d);
    var e := Elimination(d.stage, d.eliminated, Some(d.sourcePairing), true, None);
    AppendEliminationStruct(s1, e);
    assert s' == s1.(eliminations := s1.eliminations + [e]);
    ConfinedTransitive(s, s1, s', week);
    forall k | 0 <= k < |d.pairings| ensures RowMatches(s', d.pairings[k]) {
      assert RowPlaced(s1, d.pairings[k], None);
    }
  }

  /** A week holding its derived rows has been advanced to. */
  lemma DerivableAdvanced(s: State, week: int)
    requires 1 <= week <= 3 && Derivable(s, week)
    ensures Advanced(s, week)
  {
    DerivedSlots(s, week);
    var d := Derive(s, week).value;
    assert RowMatches(s, d.pairings[0]);
  }

  lemma AdvanceShape(s: State, week: int, expected: Expected)
    requires Advance(s, week, expected).Ok?
    ensures 1 <= week <= 3 && !Advanced(s, week) && Derive(s, week).Ok?
    ensures Advance(s, week, expected).value == AdvancedTables(s, Derive(s, week).value)
  {
  }

  lemma AdvanceKeeps(s: State, week: int, expected: Expected)
    requires Inv(s) && Advance(s, week, expected).Ok?
    ensures Inv(Advance(s, week, expected).value)
  {
    AdvanceShape(s, week, expected);
    NotAdvancedYet(s, week);
    AllLinks(s);
    AdvancedKeeps(s, week, Derive(s, week).value);
  }

  lemma AllLinks(s: State)
    requires Inv(s)
    ensures forall w :: 1 <= w <= 3 ==> Link(s, w)
  {
  }

  lemma NotAdvancedYet(s: State, week: int)
    requires 1 <= week <= 3 && Link(s, week) && !Advanced(s, week)
    ensures Underived(s, week)
  {
    if Derivable(s, week) { DerivableAdvanced(s, week); }
  }

  lemma AdvancedKeeps(s: State, week: int, d: Derivation)
    requires Struct(s) && Base(s) && PremierOk(s) && (forall w :: 1 <= w <= 3 ==> Link(s, w))
    requires 1 <= week <= 3 && Underived(s, week) && Derive(s, week) == Ok(d)
    ensures Inv(AdvancedTables(s, d))
  {
    AdvanceTables(s, week, d);
    DerivationPlaced(s, AdvancedTables(s, d), week, d);
  }

  /** The rows of one week have just been made to match its derivation; nothing else moved. */
  lemma DerivationPlaced(s: State, s': State, week: int, d: Derivation)
    requires 1 <= week <= 3 && Struct(s) && Struct(s') && Base(s) && PremierOk(s) && s'.premiers == s.premiers
    requires forall w :: 1 <= w <= 3 && w != week ==> Link(s, w)
    requires Derive(s, week) == Ok(d) && DerivationIn(s', d) && Confined(s, s', week)
    ensures Inv(s')
  {
    OtherLinks(s, s', week);
    SameDerivation(s, s', week);
    assert Link(s', week);
    assert Link(s', 1) && Link(s', 2) && Link(s', 3);
    PremierFrame(s, s', week);
  }

  lemma PremierFrame(s: State, s': State, week: int)
    requires PremierOk(s) && s'.premiers == s.premiers && Confined(s, s', week)
    ensures PremierOk(s')
  {
    assert SameContest(s, s', GrandFinal);
  }

  /** Contests that did not change derive the same week. */
  lemma SameDerivation(s: State, s': State, week: int)
    requires 1 <= week <= 3 && Derive(s, week).Ok? && Confined(s, s', week)
    ensures Derive(s', week) == Derive(s, week)
  {
    assert SameContest(s, s', SourceSlots(week).0) && SameContest(s, s', SourceSlots(week).1);
  }

  /** A write confined to the target slots of one week keeps week one and the other links. */
  lemma OtherLinks(s: State, s': State, week: int)
    requires 1 <= week <= 3 && |s.seeds| == 10 && Base(s) && Confined(s, s', week)
    ensures Base(s')
    ensures forall w :: 1 <= w <= 3 && w != week && Link(s, w) ==> Link(s', w)
  {
    assert SameRow(s, s', Bye) && SameRow(s, s', QualifyingFinal) && SameRow(s, s', EliminationFinal);
    forall w | 1 <= w <= 3 && w != week && Link(s, w) ensures Link(s', w) {
      forall slot | slot in TargetSlots(w) ensures SameRow(s, s', slot) {
        assert slot !in TargetSlots(week);
      }
      assert SameContest(s, s', SourceSlots(w).0) && SameContest(s, s', SourceSlots(w).1);
      assert SameElimination(s, s', StageAfter(w));
      LinkFrame(s, s', w);
    }
  }
}
