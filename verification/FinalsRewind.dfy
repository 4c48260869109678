/** A rewind replaces exactly the rows of one week that its sources no longer derive. */
module FinalsRewind {
  import opened Options
  import opened FinalsTables
  import opened FinalsInvariant
  import opened FinalsSteps

  /** No official result is in force for the slot's matchup, if it has one. */
  ghost predicate Unplayed(s: State, slot: Slot) {
    MatchupOf(s, slot).Ok? ==> EffectiveVersion(s, MatchupOf(s, slot).value).Err?
  }

  // ----- Replacing one pairing -----

  lemma ReplaceFinds(s: State, d: Derived, slot: Slot)
    requires Struct(s) && FindActive(s.pairings, d.slot).Some?
    ensures FindActive(Replace(s, d).pairings, slot)
         == if slot == d.slot then Some(|s.pairings|) else FindActive(s.pairings, slot)
  {
    var i := FindActive(s.pairings, d.slot).value;
    var gone := s.pairings[i].(active := false, matchup := None, supersededBy := Some(|s.pairings|));
    FindAfterUpdate(s.pairings, i, gone, slot);
    FindAfterAppend(s.pairings[i := gone], RowFor(d, s.pairings[i].matchup), slot);
  }

  lemma ReplaceUnique(s: State, d: Derived)
    requires Struct(s) && FindActive(s.pairings, d.slot).Some?
    ensures Unique(Replace(s, d).pairings)
    ensures forall i :: 0 <= i < |Replace(s, d).pairings| && d.slot != Bye ==> RowOk(Replace(s, d).pairings, i)
  {
    var s' := Replace(s, d);
    var i := FindActive(s.pairings, d.slot).value;
    assert RowOk(s.pairings, i);
    forall j | 0 <= j < |s'.pairings| && d.slot != Bye ensures RowOk(s'.pairings, j) {
      if j < |s.pairings| { assert RowOk(s.pairings, j); }
    }
  }

  lemma ReplaceStruct(s: State, d: Derived)
    requires Struct(s) && d.slot != Bye && FindActive(s.pairings, d.slot).Some? && Unplayed(s, d.slot)
    requires d.home in s.seeds && d.away in s.seeds
    ensures Struct(Replace(s, d))
  {
    var s' := Replace(s, d);
    var i := FindActive(s.pairings, d.slot).value;
    var held := s.pairings[i].matchup;
    ReplaceUnique(s, d);
    assert RowMatchup(s, i);
    forall j | 0 <= j < |s'.pairings| ensures RowMatchup(s', j) && Seeded(s', j) {
      if j < |s.pairings| { assert RowMatchup(s, j) && Seeded(s, j); }
    }
    forall m | 0 <= m < |s'.matchups| ensures MatchupOk(s', m) {
      ReplaceMatchup(s, d, m);
    }
    forall r | r in s'.results ensures ResultOk(s', r) {
      assert ResultOk(s, r);
    }
  }

  lemma ReplaceMatchup(s: State, d: Derived, m: nat)
    requires Struct(s) && d.slot != Bye && FindActive(s.pairings, d.slot).Some? && m < |s.matchups|
    ensures |Replace(s, d).matchups| == |s.matchups| && MatchupOk(Replace(s, d), m)
  {
    var s' := Replace(s, d);
    var i := FindActive(s.pairings, d.slot).value;
    var slot := SlotAt(s.matchups[m].week, s.matchups[m].order);
    assert MatchupOk(s, m) && RowMatchup(s, i);
    SlotAtOrder(d.slot);
    ReplaceFinds(s, d, slot);
    if s.pairings[i].matchup == Some(m) {
      assert slot == d.slot;
    } else {
      assert slot != d.slot;
    }
  }

  lemma ReplaceEffective(s: State, d: Derived, m: nat)
    ensures EffectiveVersion(Replace(s, d), m) == EffectiveVersion(s, m) && Replace(s, d).results == s.results
  {
  }

  lemma ReplaceElsewhere(s: State, d: Derived, slot: Slot)
    requires Struct(s) && slot != d.slot && FindActive(s.pairings, d.slot).Some?
    ensures SameRow(s, Replace(s, d), slot) && ContestAt(Replace(s, d), slot) == ContestAt(s, slot)
    ensures Unplayed(s, slot) ==> Unplayed(Replace(s, d), slot)
  {
    ReplaceKeepsRow(s, d, slot);
    var j := FindActive(s.pairings, slot);
    if j.Some? && s.pairings[j.value].matchup.Some? { ReplaceEffective(s, d, s.pairings[j.value].matchup.value); }
  }

  lemma ReplaceKeepsRow(s: State, d: Derived, slot: Slot)
    requires Struct(s) && slot != d.slot && FindActive(s.pairings, d.slot).Some?
    ensures var j := FindActive(s.pairings, slot);
            FindActive(Replace(s, d).pairings, slot) == j && (j.Some? ==> Replace(s, d).pairings[j.value] == s.pairings[j.value])
  {
    ReplaceFinds(s, d, slot);
  }

  lemma ReplaceHere(s: State, d: Derived)
    requires Struct(s) && FindActive(s.pairings, d.slot).Some? && Unplayed(s, d.slot)
    ensures SameContest(s, Replace(s, d), d.slot) && Unplayed(Replace(s, d), d.slot)
  {
    ReplaceFinds(s, d, d.slot);
    assert RowMatchup(s, FindActive(s.pairings, d.slot).value);
  }

  lemma ReplaceContest(s: State, d: Derived, slot: Slot)
    requires Struct(s) && FindActive(s.pairings, d.slot).Some? && Unplayed(s, d.slot)
    ensures SameContest(s, Replace(s, d), slot)
    ensures slot != d.slot ==> SameRow(s, Replace(s, d), slot)
    ensures Unplayed(s, slot) ==> Unplayed(Replace(s, d), slot)
  {
    if slot == d.slot { ReplaceHere(s, d); } else { ReplaceElsewhere(s, d, slot); }
  }

  lemma ReplaceConfined(s: State, week: int, d: Derived)
    requires Struct(s) && d.slot in TargetSlots(week) && FindActive(s.pairings, d.slot).Some? && Unplayed(s, d.slot)
    requires d.home in s.seeds && d.away in s.seeds
    ensures Struct(Replace(s, d)) && Confined(s, Replace(s, d), week)
    ensures RowMatches(Replace(s, d), d)
    ensures forall slot: Slot :: slot != d.slot ==> SameRow(s, Replace(s, d), slot)
    ensures forall slot: Slot :: Unplayed(s, slot) ==> Unplayed(Replace(s, d), slot)
  {
    ReplaceStruct(s, d);
    forall slot: Slot
      ensures SameContest(s, Replace(s, d), slot)
      ensures slot != d.slot ==> SameRow(s, Replace(s, d), slot)
      ensures Unplayed(s, slot) ==> Unplayed(Replace(s, d), slot)
    {
      ReplaceContest(s, d, slot);
    }
    ReplaceFinds(s, d, d.slot);
  }

  // ----- Replacing one elimination -----

  lemma FindEliminationAfterUpdate(rows: seq<Elimination>, i: nat, row: Elimination, stage: Stage)
    requires i < |rows| && !row.active
    requires forall j :: 0 <= j < |rows| && rows[j].active && rows[j].stage == rows[i].stage ==> j == i
    ensures FindElimination(rows[i := row], stage) == if stage == rows[i].stage then None else FindElimination(rows, stage)
  {
    var rows' := rows[i := row];
    var n := |rows| - 1;
    if i == n {
      assert rows'[..n] == rows[..n];
      if stage == rows[i].stage {
        assert forall j :: 0 <= j < n ==> rows[..n][j] == rows[j];
      }
    } else {
      assert rows'[..n] == rows[..n][i := row];
      FindEliminationAfterUpdate(rows[..n], i, row, stage);
    }
  }

  lemma ReplaceEliminationKeeps(s: State, week: int, d: Derivation)
    requires Struct(s) && d.stage == StageAfter(week) && FindElimination(s.eliminations, d.stage).Some?
    ensures Struct(ReplaceElimination(s, d)) && Confined(s, ReplaceElimination(s, d), week)
    ensures EliminationMatches(ReplaceElimination(s, d), d)
  {
    var s' := ReplaceElimination(s, d);
    var i := FindElimination(s.eliminations, d.stage).value;
    var gone := s.eliminations[i].(active := false, supersededBy := Some(|s.eliminations|));
    var next := Elimination(d.stage, d.eliminated, Some(d.sourcePairing), true, None);
    EliminationOnlyStruct(s, s');
    forall stage: Stage
      ensures FindElimination(s'.eliminations, stage)
           == if stage == d.stage then Some(|s.eliminations|) else FindElimination(s.eliminations, stage)
    {
      FindEliminationAfterUpdate(s.eliminations, i, gone, stage);
      FindEliminationAfterAppend(s.eliminations[i := gone], next, stage);
      var j := FindElimination(s.eliminations, stage);
    }
    forall stage: Stage | stage != d.stage ensures SameElimination(s, s', stage) {
      var j := FindElimination(s.eliminations, stage);
      if j.Some? { assert s'.eliminations[j.value] == s.eliminations[j.value]; }
    }
  }

  // ----- A whole rewind -----

  /** The slot's row was derived from the same two matchups, whatever their versions then. */
  ghost predicate WeakRow(s: State, d: Derived) {
    var i := FindActive(s.pairings, d.slot);
    i.Some? && var p := s.pairings[i.value];
    && p.source1.Some? && p.source1.value.matchup == d.source1.matchup
    && p.source2.Some? == d.source2.Some?
    && (d.source2.Some? ==> p.source2.value.matchup == d.source2.value.matchup)
  }

  ghost predicate WeakLink(s: State, d: Derivation) {
    && (forall k :: 0 <= k < |d.pairings| ==> WeakRow(s, d.pairings[k]))
    && var i := FindElimination(s.eliminations, d.stage);
       i.Some? && s.eliminations[i.value].sourcePairing == Some(d.sourcePairing)
  }

  lemma NotBlockedUnplayed(s: State, d: Derived)
    requires Struct(s) && Changed(s, d) && !Blocked(s, d)
    ensures Unplayed(s, d.slot)
  {
  }

  lemma ReplaceChangedKeeps(s: State, week: int, d: Derived)
    requires Struct(s) && d.slot in TargetSlots(week) && d.home in s.seeds && d.away in s.seeds
    requires WeakRow(s, d) && (Changed(s, d) ==> Unplayed(s, d.slot))
    ensures Struct(ReplaceChanged(s, d)) && Confined(s, ReplaceChanged(s, d), week)
    ensures RowMatches(ReplaceChanged(s, d), d)
    ensures forall slot: Slot :: slot != d.slot ==> SameRow(s, ReplaceChanged(s, d), slot)
    ensures forall slot: Slot :: Unplayed(s, slot) ==> Unplayed(ReplaceChanged(s, d), slot)
  {
    if Changed(s, d) { ReplaceConfined(s, week, d); }
  }

  /** The pairings half of a rewind. */
  lemma RewoundPairingsKeep(s: State, week: int, d: Derivation)
    requires Struct(s) && 1 <= week <= 3 && DerivedFor(s, week, d) && WeakLink(s, d) && !AnyBlocked(s, d)
    ensures Struct(RewoundPairings(s, d)) && Confined(s, RewoundPairings(s, d), week)
    ensures forall k :: 0 <= k < |d.pairings| ==> RowMatches(RewoundPairings(s, d), d.pairings[k])
    ensures RewoundPairings(s, d).eliminations == s.eliminations
    ensures RewoundPairings(s, d).premiers == s.premiers
  {
    WeakUnplayed(s, d, 0);
    ReplaceChangedKeeps(s, week, d.pairings[0]);
    ReplaceChangedFrame(s, d.pairings[0]);
    if week == 1 {
      WeakUnplayed(s, d, 1);
      RewoundSecond(s, ReplaceChanged(s, d.pairings[0]), week, d.pairings[0], d.pairings[1]);
      ReplaceChangedFrame(ReplaceChanged(s, d.pairings[0]), d.pairings[1]);
    }
  }

  /** A row the rewind may replace has not been started. */
  lemma WeakUnplayed(s: State, d: Derivation, k: nat)
    requires Struct(s) && WeakLink(s, d) && !AnyBlocked(s, d) && k < |d.pairings|
    ensures WeakRow(s, d.pairings[k]) && (Changed(s, d.pairings[k]) ==> Unplayed(s, d.pairings[k].slot))
  {
    assert WeakRow(s, d.pairings[k]) && !Blocked(s, d.pairings[k]);
    if Changed(s, d.pairings[k]) { NotBlockedUnplayed(s, d.pairings[k]); }
  }

  lemma RewoundSecond(s: State, s1: State, week: int, a: Derived, b: Derived)
    requires Struct(s1) && Confined(s, s1, week) && RowMatches(s1, a) && a.slot != b.slot && SameRow(s, s1, b.slot)
    requires b.slot in TargetSlots(week) && b.home in s1.seeds && b.away in s1.seeds
    requires WeakRow(s, b) && (Changed(s, b) ==> Unplayed(s1, b.slot))
    ensures Struct(ReplaceChanged(s1, b)) && Confined(s, ReplaceChanged(s1, b), week)
    ensures RowMatches(ReplaceChanged(s1, b), a) && RowMatches(ReplaceChanged(s1, b), b)
    ensures Changed(s1, b) == Changed(s, b)
  {
    ReplaceChangedKeeps(s1, week, b);
    ConfinedTransitive(s, s1, ReplaceChanged(s1, b), week);
    assert SameRow(s1, ReplaceChanged(s1, b), a.slot);
  }

  lemma RewoundKeeps(s: State, week: int, d: Derivation)
    requires Struct(s) && 1 <= week <= 3 && DerivedFor(s, week, d) && d.stage == StageAfter(week)
    requires WeakLink(s, d) && !AnyBlocked(s, d)
    ensures Struct(Rewound(s, d)) && Confined(s, Rewound(s, d), week) && DerivationIn(Rewound(s, d), d)
    ensures Rewound(s, d).premiers == s.premiers
  {
    RewoundPairingsKeep(s, week, d);
    var s2 := RewoundPairings(s, d);
    if EliminationChanged(s, d) {
      ReplaceEliminationKeeps(s2, week, d);
      var s' := ReplaceElimination(s2, d);
      assert s' == Rewound(s, d);
      ConfinedTransitive(s, s2, s', week);
      forall k | 0 <= k < |d.pairings| ensures RowMatches(s', d.pairings[k]) {
        assert RowMatches(s2, d.pairings[k]);
      }
    } else {
      assert s2 == Rewound(s, d);
    }
  }

  lemma ReplaceChangedFrame(s: State, d: Derived)
    ensures var s' := ReplaceChanged(s, d);
            && s'.seeds == s.seeds && s'.eliminations == s.eliminations && s'.results == s.results
            && s'.rounds == s.rounds && s'.play == s.play && s'.premiers == s.premiers
  {
  }

  /** A rewind writes pairings, the participants of matchups, and eliminations: nothing else. */
  lemma RewoundFrame(s: State, d: Derivation)
    ensures var s' := Rewound(s, d);
            && s'.seeds == s.seeds && s'.results == s.results
            && s'.rounds == s.rounds && s'.play == s.play && s'.premiers == s.premiers
  {
    if |d.pairings| > 0 { ReplaceChangedFrame(s, d.pairings[0]); }
    if |d.pairings| > 1 { ReplaceChangedFrame(ReplaceChanged(s, d.pairings[0]), d.pairings[1]); }
  }
}
