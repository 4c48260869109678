/**
 What every transaction on the finals tables keeps. `Struct` speaks of rows
 and pointers; `Link` says that a derived week is exactly what the current
 results derive.
 */
module FinalsInvariant {
  import opened Options
  import opened FinalsTables

  // ----- Tables -----

  ghost predicate Distinct(es: seq<Entry>) {
    forall i, j :: 0 <= i < j < |es| ==> es[i] != es[j]
  }

  /** At most one active row a slot. */
  ghost predicate Unique(rows: seq<Pairing>) {
    forall i, j :: 0 <= i < j < |rows| && rows[i].active && rows[j].active ==> rows[i].slot != rows[j].slot
  }

  /** An active row points nowhere; a superseded one has let go of its matchup and points forward in its slot. */
  ghost predicate RowOk(rows: seq<Pairing>, i: nat)
    requires i < |rows|
  {
    var p := rows[i];
    && (p.away.None? <==> p.slot == Bye)
    && (p.slot == Bye ==> p.matchup.None? && p.active)
    && (p.active ==> p.supersededBy.None?)
    && (!p.active ==> p.matchup.None? && p.supersededBy.Some?
                      && i < p.supersededBy.value < |rows| && rows[p.supersededBy.value].slot == p.slot)
  }

  ghost predicate RowMatchup(s: State, i: nat)
    requires i < |s.pairings|
  {
    var p := s.pairings[i];
    p.matchup.Some? ==> p.matchup.value < |s.matchups|
                        && s.matchups[p.matchup.value].week == WeekOf(p.slot)
                        && s.matchups[p.matchup.value].order == OrderOf(p.slot)
  }

  /** A matchup is held by the active pairing of its slot, has its participants, and keeps every version. */
  ghost predicate MatchupOk(s: State, m: nat)
    requires m < |s.matchups|
  {
    var k := s.matchups[m];
    var slot := SlotAt(k.week, k.order);
    && slot != Bye && WeekOf(slot) == k.week && OrderOf(slot) == k.order
    && MatchupOf(s, slot) == Ok(m)
    && s.pairings[FindActive(s.pairings, slot).value].home == k.home
    && s.pairings[FindActive(s.pairings, slot).value].away == Some(k.away)
    && (k.effective.Some? ==>
          && k.effective.value >= 1
          && k.week in s.rounds && s.rounds[k.week] == Final
          && forall v {:trigger Source(m, v)} :: 1 <= v <= k.effective.value ==> Source(m, v) in s.results)
  }

  ghost predicate ResultOk(s: State, r: Source) {
    && r.matchup < |s.matchups|
    && s.matchups[r.matchup].effective.Some?
    && 1 <= r.version <= s.matchups[r.matchup].effective.value
  }

  ghost predicate EliminationsOk(seeds: seq<Entry>, rows: seq<Elimination>)
    requires |seeds| == 10
  {
    && |rows| >= 5
    && (forall i :: 0 <= i < 5 ==> rows[i] == Elimination(PreFinals, seeds[5 + i], None, true, None))
    && (forall i :: 5 <= i < |rows| ==> rows[i].stage != PreFinals)
    && (forall i, j :: 5 <= i < j < |rows| && rows[i].active && rows[j].active ==> rows[i].stage != rows[j].stage)
  }

  ghost predicate Seeded(s: State, i: nat)
    requires i < |s.pairings|
  {
    s.pairings[i].home in s.seeds && (s.pairings[i].away.Some? ==> s.pairings[i].away.value in s.seeds)
  }

  ghost predicate Struct(s: State) {
    && |s.seeds| == 10 && Distinct(s.seeds)
    && (forall i :: 0 <= i < |s.pairings| ==> Seeded(s, i))
    && Unique(s.pairings)
    && (forall i :: 0 <= i < |s.pairings| ==> RowOk(s.pairings, i))
    && (forall i :: 0 <= i < |s.pairings| ==> RowMatchup(s, i))
    && (forall m :: 0 <= m < |s.matchups| ==> MatchupOk(s, m))
    && (forall r :: r in s.results ==> ResultOk(s, r))
    && EliminationsOk(s.seeds, s.eliminations)
  }

  // ----- Derived weeks -----

  ghost predicate RowIs(s: State, slot: Slot, home: Entry, away: Option<Entry>, source1: Option<Source>, source2: Option<Source>) {
    var i := FindActive(s.pairings, slot);
    i.Some? && var p := s.pairings[i.value];
    p.home == home && p.away == away && p.source1 == source1 && p.source2 == source2
  }

  ghost predicate RowMatches(s: State, d: Derived) {
    RowIs(s, d.slot, d.home, Some(d.away), Some(d.source1), d.source2)
  }

  ghost predicate EliminationMatches(s: State, d: Derivation) {
    var i := FindElimination(s.eliminations, d.stage);
    i.Some? && s.eliminations[i.value].entry == d.eliminated && s.eliminations[i.value].sourcePairing == Some(d.sourcePairing)
  }

  predicate Advanced(s: State, week: int) {
    FindActive(s.pairings, TargetSlots(week)[0]).Some?
  }

  ghost predicate Underived(s: State, week: int) {
    && (forall slot :: slot in TargetSlots(week) ==> FindActive(s.pairings, slot).None?)
    && FindElimination(s.eliminations, StageAfter(week)).None?
  }

  ghost predicate Derivable(s: State, week: int) {
    && Derive(s, week).Ok?
    && var d := Derive(s, week).value;
    && (forall k :: 0 <= k < |d.pairings| ==> RowMatches(s, d.pairings[k]))
    && EliminationMatches(s, d)
  }

  ghost predicate Link(s: State, week: int) {
    Underived(s, week) || Derivable(s, week)
  }

  ghost predicate Base(s: State)
    requires |s.seeds| == 10
  {
    && RowIs(s, Bye, s.seeds[0], None, None, None)
    && RowIs(s, QualifyingFinal, s.seeds[1], Some(s.seeds[2]), None, None)
    && RowIs(s, EliminationFinal, s.seeds[3], Some(s.seeds[4]), None, None)
  }

  /** One premier event a version of the Grand Final result, the last naming its current winner. */
  ghost predicate PremierOk(s: State) {
    match ContestAt(s, GrandFinal)
    case Err(_) => s.premiers == []
    case Ok(c) => |s.premiers| == c.version && c.version > 0 && s.premiers[c.version - 1] == Winner(s, c)
  }

  ghost predicate Inv(s: State) {
    && Struct(s) && Base(s) && PremierOk(s)
    && Link(s, 1) && Link(s, 2) && Link(s, 3)
  }

  // ----- Lookups after a write -----

  lemma FindIs(rows: seq<Pairing>, slot: Slot, j: nat)
    requires Unique(rows) && j < |rows| && rows[j].active && rows[j].slot == slot
    ensures FindActive(rows, slot) == Some(j)
  {
    var r := FindActive(rows, slot);
    assert r.Some?;
  }

  lemma FindAfterAppend(rows: seq<Pairing>, row: Pairing, slot: Slot)
    ensures FindActive(rows + [row], slot) == if row.active && row.slot == slot then Some(|rows|) else FindActive(rows, slot)
  {
    assert (rows + [row])[..|rows|] == rows;
  }

  lemma FindEliminationAfterAppend(rows: seq<Elimination>, row: Elimination, stage: Stage)
    ensures FindElimination(rows + [row], stage)
         == if row.active && row.stage == stage then Some(|rows|) else FindElimination(rows, stage)
  {
    assert (rows + [row])[..|rows|] == rows;
  }

  /** Deactivating a row, or changing anything but its slot and status, moves no other slot's lookup. */
  lemma FindAfterUpdate(rows: seq<Pairing>, i: nat, row: Pairing, slot: Slot)
    requires Unique(rows) && i < |rows| && rows[i].active && row.slot == rows[i].slot
    ensures Unique(rows[i := row])
    ensures FindActive(rows[i := row], slot)
         == if slot == row.slot then if row.active then Some(i) else None else FindActive(rows, slot)
  {
    var rows' := rows[i := row];
    var r := FindActive(rows, slot);
    if slot == row.slot {
      FindIs(rows, slot, i);
      if row.active { FindIs(rows', slot, i); }
    } else if r.Some? {
      FindIs(rows', slot, r.value);
    } else {
      forall k | 0 <= k < |rows'| ensures !(rows'[k].active && rows'[k].slot == slot) {
        assert rows'[k] == if k == i then row else rows[k];
      }
    }
  }

  // ----- What a contest depends on -----

  /** Both states decide the slot alike. */
  ghost predicate SameContest(s: State, s': State, slot: Slot) {
    ContestAt(s', slot) == ContestAt(s, slot) || (ContestAt(s', slot).Err? && ContestAt(s, slot).Err?)
  }

  /** The slot's row is the same but for the matchup it holds. */
  ghost predicate SameRow(s: State, s': State, slot: Slot) {
    var i, j := FindActive(s.pairings, slot), FindActive(s'.pairings, slot);
    && i == j
    && (i.Some? ==> var p, q := s.pairings[i.value], s'.pairings[i.value];
                    p.home == q.home && p.away == q.away && p.source1 == q.source1 && p.source2 == q.source2)
  }

  ghost predicate SameElimination(s: State, s': State, stage: Stage) {
    var i, j := FindElimination(s.eliminations, stage), FindElimination(s'.eliminations, stage);
    && i.Some? == j.Some?
    && (i.Some? ==> s.eliminations[i.value].entry == s'.eliminations[j.value].entry
                    && s.eliminations[i.value].sourcePairing == s'.eliminations[j.value].sourcePairing)
  }

  /** A link survives any write that keeps its rows and disturbs no contest it was derived from. */
  lemma LinkFrame(s: State, s': State, week: int)
    requires 1 <= week <= 3 && s.seeds == s'.seeds
    requires SameContest(s, s', SourceSlots(week).0) || ContestAt(s, SourceSlots(week).0).Err?
    requires SameContest(s, s', SourceSlots(week).1) || ContestAt(s, SourceSlots(week).1).Err?
    requires forall slot :: slot in TargetSlots(week) ==> SameRow(s, s', slot)
    requires SameElimination(s, s', StageAfter(week))
    ensures Link(s, week) ==> Link(s', week)
  {
    if Link(s, week) {
      if Underived(s, week) {
        forall slot | slot in TargetSlots(week) ensures FindActive(s'.pairings, slot).None? {
          assert SameRow(s, s', slot);
        }
        assert Underived(s', week);
      } else {
        var d := Derive(s, week).value;
        assert Derive(s', week) == Ok(d);
        DerivedSlots(s, week);
        forall k | 0 <= k < |d.pairings| ensures RowMatches(s', d.pairings[k]) {
          assert SameRow(s, s', d.pairings[k].slot);
          assert RowMatches(s, d.pairings[k]);
        }
      }
    }
  }

  lemma DerivedSlots(s: State, week: int)
    requires 1 <= week <= 3 && Derive(s, week).Ok?
    ensures var d := Derive(s, week).value;
            && |d.pairings| == |TargetSlots(week)|
            && (forall k :: 0 <= k < |d.pairings| ==> d.pairings[k].slot == TargetSlots(week)[k])
            && d.stage == StageAfter(week)
  {
  }
}
