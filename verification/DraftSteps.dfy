/** Each draft transaction keeps the invariant. */
module DraftSteps {
  import opened Options
  import opened DraftLedger
  import opened DraftInvariant

  // ----- Pick -----

  lemma ExecuteOwnership(d: Draft, i: nat, s: Selection)
    requires OwnershipOk(d) && i < |d.picks| && Active(d.picks[i]) && d.picks[i].selection.None?
    requires !Overlaps(d.periods, s.player, s.at)
    ensures OwnershipOk(d.(picks := d.picks[i := d.picks[i].(selection := Some(s))],
                           periods := d.periods + [Period(s.player, d.picks[i].current, s.at, None)]))
  {
    var p := d.picks[i].(selection := Some(s));
    var o := Period(s.player, d.picks[i].current, s.at, None);
    var d' := d.(picks := d.picks[i := p], periods := d.periods + [o]);
    forall a, b | 0 <= a < b < |d'.periods| && d'.periods[a].released.None? && d'.periods[b].released.None?
      ensures d'.periods[a].player != d'.periods[b].player
    {
    }
    forall a | 0 <= a < |d'.picks| ensures Backed(d', a) {
      if a == i {
        OpenPeriodIs(d'.periods, |d.periods|);
      } else if Done(d.picks[a]) {
        assert Backed(d, a);
        OpenPeriodIs(d'.periods, OpenPeriod(d.periods, d.picks[a].selection.value.player).value);
      }
    }
    forall a | 0 <= a < |d.picks| && a != i && Done(d.picks[a]) ensures d.picks[a].selection.value.player != s.player {
      assert Backed(d, a);
    }
    forall j | 0 <= j < |d'.periods| ensures Stems(d', j) {
      if j == |d.periods| {
        assert Made(d'.picks[i], d'.periods[j]);
      } else if d.periods[j].released.None? {
        assert Stems(d, j);
        var a :| 0 <= a < |d.picks| && Made(d.picks[a], d.periods[j]);
        assert Made(d'.picks[a], d'.periods[j]);
      }
    }
  }

  lemma ExecuteSquads(d: Draft, i: nat, s: Selection)
    requires SquadsOk(d) && i < |d.picks| && Active(d.picks[i]) && d.picks[i].selection.None?
    requires Acquire(d, s.player, d.picks[i].current, s.at).Ok?
    ensures SquadsOk(d.(picks := d.picks[i := d.picks[i].(selection := Some(s))],
                        periods := d.periods + [Period(s.player, d.picks[i].current, s.at, None)]))
  {
    var o := Period(s.player, d.picks[i].current, s.at, None);
    CountUpdate(d.picks, i, d.picks[i].(selection := Some(s)));
    AcquireWithinCapacity(d, s.player, o.entry, s.at);
    OpenAppend(d.periods, o, o.entry);
    forall e | e in d.order ensures OpenCount(d.periods + [o], e) <= d.target {
      OpenAppend(d.periods, o, e);
    }
  }

  lemma ExecuteKeeps(d: Draft, entry: Entry, player: Player, pick: Option<nat>, at: int)
    requires Inv(d) && ExecutePick(d, entry, player, pick, at).Ok?
    ensures Inv(ExecutePick(d, entry, player, pick, at).value)
    ensures CountDone(ExecutePick(d, entry, player, pick, at).value.picks) == CountDone(d.picks) + 1
  {
    var i := NextPick(d.picks).value;
    var s := Selection(player, at);
    ExecuteBoard(d.picks, Slots(d), CountDone(d.picks), i, s);
    ExecuteOwnership(d, i, s);
    ExecuteSquads(d, i, s);
  }

  // ----- Correct -----

  /** The corrected row is the last of the completed prefix. */
  lemma LatestIsLast(picks: seq<Pick>, n: nat, k: nat, row: nat)
    requires BoardOk(picks, n, k) && row < |picks| && Done(picks[row]) && !LaterDone(picks, picks[row].overall)
    ensures picks[row].overall == k
  {
    assert RowOk(picks, n, k, row);
    var a := ActiveRow(picks, k).value;
    assert RowOk(picks, n, k, a);
  }

  lemma CorrectBoard(picks: seq<Pick>, n: nat, k: nat, row: nat)
    requires BoardOk(picks, n, k) && row < |picks| && Done(picks[row]) && picks[row].overall == k
    ensures k > 0
    ensures BoardOk(picks[row := picks[row].(supersededBy := Some(|picks|))] + [picks[row].(selection := None)], n, k - 1)
  {
    assert RowOk(picks, n, k, row);
    var gone := picks[row].(supersededBy := Some(|picks|));
    var open := picks[row].(selection := None);
    var mid := picks[row := gone];
    var picks' := mid + [open];
    var k' := k - 1;
    CountUpdate(picks, row, gone);
    CountAppend(mid, open);
    forall a, b | 0 <= a < b < |picks'| && Active(picks'[a]) && Active(picks'[b]) ensures picks'[a].overall != picks'[b].overall {
    }
    forall o | 1 <= o <= n ensures ActiveRow(picks', o).Some? {
      var a := if o == k then |picks| else ActiveRow(picks, o).value;
      assert Active(picks'[a]) && picks'[a].overall == o;
    }
    forall a | 0 <= a < |picks'| ensures RowOk(picks', n, k', a) {
      if a < |picks| {
        assert RowOk(picks, n, k, a);
        if a != row && Active(picks[a]) { assert picks[a].overall != k; }
      }
    }
  }

  lemma CorrectOwnership(d: Draft, row: nat, at: int)
    requires OwnershipOk(d) && row < |d.picks| && Done(d.picks[row])
    requires Release(d.periods, d.picks[row].selection.value.player, at).Ok?
    ensures OwnershipOk(d.(picks := d.picks[row := d.picks[row].(supersededBy := Some(|d.picks|))] + [d.picks[row].(selection := None)],
                           periods := Release(d.periods, d.picks[row].selection.value.player, at).value))
  {
    var p := d.picks[row];
    var player := p.selection.value.player;
    var j0 := OpenPeriod(d.periods, player).value;
    var periods' := Release(d.periods, player, at).value;
    var d' := d.(picks := d.picks[row := p.(supersededBy := Some(|d.picks|))] + [p.(selection := None)], periods := periods');
    assert OwnedOnce(periods') by {
      forall a, b | 0 <= a < b < |periods'| && periods'[a].released.None? && periods'[b].released.None?
        ensures periods'[a].player != periods'[b].player
      {
        assert periods'[a] == d.periods[a] && periods'[b] == d.periods[b];
      }
    }
    forall a | 0 <= a < |d'.picks| ensures Backed(d', a) {
      if Done(d'.picks[a]) {
        assert a < |d.picks| && a != row && d'.picks[a] == d.picks[a];
        assert Backed(d, a);
        var j := OpenPeriod(d.periods, d.picks[a].selection.value.player).value;
        assert d.picks[a].selection.value.player != player;
        assert j != j0;
        OpenPeriodIs(periods', j);
      }
    }
    forall j | 0 <= j < |periods'| ensures Stems(d', j) {
      if periods'[j].released.None? {
        assert j != j0 && Stems(d, j);
        var a :| 0 <= a < |d.picks| && Made(d.picks[a], d.periods[j]);
        assert d.periods[j].player != player by { OpenPeriodIs(d.periods, j); }
        assert a != row;
        assert Made(d'.picks[a], d'.periods[j]);
      }
    }
  }

  lemma CorrectSquads(d: Draft, row: nat, at: int)
    requires SquadsOk(d) && row < |d.picks| && Done(d.picks[row])
    requires Release(d.periods, d.picks[row].selection.value.player, at).Ok?
    ensures SquadsOk(d.(picks := d.picks[row := d.picks[row].(supersededBy := Some(|d.picks|))] + [d.picks[row].(selection := None)],
                        periods := Release(d.periods, d.picks[row].selection.value.player, at).value))
  {
    var p := d.picks[row];
    var j := OpenPeriod(d.periods, p.selection.value.player).value;
    var o := d.periods[j].(released := Some(at));
    var gone := p.(supersededBy := Some(|d.picks|));
    CountUpdate(d.picks, row, gone);
    CountAppend(d.picks[row := gone], p.(selection := None));
    OpenUpdate(d.periods, j, o, o.entry);
    forall e | e in d.order ensures OpenCount(d.periods[j := o], e) <= d.target {
      OpenUpdate(d.periods, j, o, e);
    }
  }

  lemma CorrectKeeps(d: Draft, row: nat, at: int)
    requires Inv(d) && CorrectPick(d, row, at).Ok?
    ensures Inv(CorrectPick(d, row, at).value)
    ensures CountDone(CorrectPick(d, row, at).value.picks) == CountDone(d.picks) - 1
    ensures d.picks[row].overall == CountDone(d.picks)
  {
    LatestIsLast(d.picks, Slots(d), CountDone(d.picks), row);
    CorrectBoard(d.picks, Slots(d), CountDone(d.picks), row);
    CorrectOwnership(d, row, at);
    CorrectSquads(d, row, at);
  }

  // ----- Transfer -----

  lemma TransferKeeps(d: Draft, row: nat, to: Entry)
    requires Inv(d) && TransferPick(d, row, to).Ok?
    ensures Inv(TransferPick(d, row, to).value) && !d.finalized
    ensures CountDone(TransferPick(d, row, to).value.picks) == CountDone(d.picks)
  {
    var d' := TransferPick(d, row, to).value;
    var n, k := Slots(d), CountDone(d.picks);
    assert RowOk(d.picks, n, k, row);
    CountUpdate(d.picks, row, d'.picks[row]);
    TransferBoard(d.picks, n, k, row, to);
    TransferOwnership(d, row, to);
  }

  lemma TransferBoard(picks: seq<Pick>, n: nat, k: nat, row: nat, to: Entry)
    requires BoardOk(picks, n, k) && row < |picks| && picks[row].selection.None?
    ensures BoardOk(picks[row := picks[row].(current := to)], n, k)
  {
    var picks' := picks[row := picks[row].(current := to)];
    CountUpdate(picks, row, picks'[row]);
    forall o | 1 <= o <= n ensures ActiveRow(picks', o).Some? {
      var a := ActiveRow(picks, o).value;
      assert Active(picks'[a]) && picks'[a].overall == o;
    }
    forall a | 0 <= a < |picks'| ensures RowOk(picks', n, k, a) {
      assert RowOk(picks, n, k, a);
    }
  }

  lemma TransferOwnership(d: Draft, row: nat, to: Entry)
    requires OwnershipOk(d) && row < |d.picks| && d.picks[row].selection.None?
    ensures OwnershipOk(d.(picks := d.picks[row := d.picks[row].(current := to)]))
  {
    var d' := d.(picks := d.picks[row := d.picks[row].(current := to)]);
    forall a | 0 <= a < |d'.picks| ensures Backed(d', a) {
      assert Backed(d, a);
    }
    forall j | 0 <= j < |d'.periods| ensures Stems(d', j) {
      assert Stems(d, j);
      if d.periods[j].released.None? {
        var a :| 0 <= a < |d.picks| && Made(d.picks[a], d.periods[j]);
        assert Made(d'.picks[a], d'.periods[j]);
      }
    }
  }

  // ----- Flags -----

  lemma FlagsKeep(d: Draft, paused: bool, finalized: bool)
    requires Inv(d) && (finalized ==> CountDone(d.picks) == Slots(d))
    ensures Inv(d.(paused := paused, finalized := finalized))
  {
    var d' := d.(paused := paused, finalized := finalized);
    forall a | 0 <= a < |d'.picks| ensures Backed(d', a) {
      assert Backed(d, a);
    }
    forall j | 0 <= j < |d'.periods| ensures Stems(d', j) {
      assert Stems(d, j);
      if d.periods[j].released.None? {
        var a :| 0 <= a < |d.picks| && Made(d.picks[a], d.periods[j]);
        assert Made(d'.picks[a], d'.periods[j]);
      }
    }
  }

  // ----- Every transaction, every run -----

  lemma StepKeeps(d: Draft, step: Step)
    requires Inv(d)
    ensures Inv(Apply(d, step))
  {
    if Attempt(d, step).Ok? {
      match step
      case StepExecute(e, p, i, at) => ExecuteKeeps(d, e, p, i, at);
      case StepCorrect(r, at) => CorrectKeeps(d, r, at);
      case StepTransfer(r, to) => TransferKeeps(d, r, to);
      case StepPause => FlagsKeep(d, true, d.finalized);
      case StepResume => FlagsKeep(d, false, d.finalized);
      case StepFinalize => FlagsKeep(d, d.paused, true);
      case StepReopen => FlagsKeep(d, d.paused, false);
    }
  }

  lemma {:induction false} RunKeeps(d: Draft, steps: seq<Step>)
    requires Inv(d)
    ensures Inv(Run(d, steps))
    decreases |steps|
  {
    if steps != [] {
      StepKeeps(d, steps[0]);
      RunKeeps(Apply(d, steps[0]), steps[1..]);
    }
  }
}
