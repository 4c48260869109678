/** What one accepted draft transaction does to the visible board and to ownership, and to nothing else. */
module DraftEffects {
  import opened Options
  import opened DraftLedger
  import opened DraftInvariant
  import opened DraftSteps
  import opened DraftTheorems

  /** Rewriting one active row in place, its slot unchanged, changes what the board shows of that slot only. */
  lemma BoardAfterUpdate(d: Draft, i: nat, p: Pick, o: nat)
    requires Unique(d.picks) && i < |d.picks| && Active(d.picks[i]) && Active(p) && p.overall == d.picks[i].overall
    ensures Board(d.(picks := d.picks[i := p]), o)
         == if o == p.overall then Some(Shown(p.round, p.position, p.original, p.current, p.selection)) else Board(d, o)
  {
    var rows := d.picks[i := p];
    assert Unique(rows);
    if o == p.overall {
      ActiveRowIs(rows, i);
    } else {
      var r := ActiveRow(d.picks, o);
      if r.Some? {
        assert rows[r.value] == d.picks[r.value];
        ActiveRowIs(rows, r.value);
      } else {
        forall j | 0 <= j < |rows| ensures !(Active(rows[j]) && rows[j].overall == o) {}
      }
    }
  }

  /** A pick is made by the slot's current owner in the first open slot, and one player becomes theirs. */
  lemma ExecuteFillsTheNextSlot(d: Draft, entry: Entry, player: Player, pick: Option<nat>, at: int)
    requires Inv(d) && ExecutePick(d, entry, player, pick, at).Ok?
    ensures var made := ExecutePick(d, entry, player, pick, at).value;
            var k := CountDone(d.picks) + 1;
            && Board(d, k).Some? && Board(d, k).value.current == entry && Board(d, k).value.selection.None?
            && Board(made, k) == Some(Board(d, k).value.(selection := Some(Selection(player, at))))
            && (forall o :: o != k ==> Board(made, o) == Board(d, o))
            && Owned(made) == Owned(d) + {Holding(player, entry, at)}
            && (forall h :: h in Owned(d) ==> h.player != player)
  {
    var made := ExecutePick(d, entry, player, pick, at).value;
    NextPickIs(d.picks, Slots(d), CountDone(d.picks));
    var i := NextPick(d.picks).value;
    var p := d.picks[i].(selection := Some(Selection(player, at)));
    forall o ensures Board(made, o) == if o == p.overall then Some(Shown(p.round, p.position, p.original, p.current, p.selection)) else Board(d, o) {
      BoardAfterUpdate(d, i, p, o);
      assert Board(made, o) == Board(d.(picks := d.picks[i := p]), o);
    }
    OwnedAfterAcquire(d, made, player, entry, at);
  }

  lemma OwnedAfterAcquire(d: Draft, made: Draft, player: Player, entry: Entry, at: int)
    requires Acquire(d, player, entry, at) == Ok(made.periods)
    ensures Owned(made) == Owned(d) + {Holding(player, entry, at)}
    ensures forall h :: h in Owned(d) ==> h.player != player
  {
    assert made.periods == d.periods + [Period(player, entry, at, None)];
    assert made.periods[|d.periods|] == Period(player, entry, at, None);
    forall h ensures h in Owned(made) <==> h in Owned(d) || h == Holding(player, entry, at) {
      if h in Owned(d) {
        var j :| 0 <= j < |d.periods| && d.periods[j].released.None? && h == Holding(d.periods[j].player, d.periods[j].entry, d.periods[j].acquired);
        assert made.periods[j] == d.periods[j];
      }
    }
  }

  /** A transfer changes the current owner of one open slot, its original owner and everything else untouched. */
  lemma TransferMovesOneSlot(d: Draft, row: nat, to: Entry)
    requires Inv(d) && TransferPick(d, row, to).Ok?
    ensures var after := TransferPick(d, row, to).value;
            var k := d.picks[row].overall;
            && Board(d, k).Some? && Board(d, k).value.selection.None? && Board(d, k).value.current != to
            && Board(after, k) == Some(Board(d, k).value.(current := to))
            && (forall o :: o != k ==> Board(after, o) == Board(d, o))
            && Owned(after) == Owned(d)
  {
    var after := TransferPick(d, row, to).value;
    assert RowOk(d.picks, Slots(d), CountDone(d.picks), row);
    ActiveRowIs(d.picks, row);
    var p := d.picks[row].(current := to);
    forall o ensures Board(after, o) == if o == p.overall then Some(Shown(p.round, p.position, p.original, p.current, p.selection)) else Board(d, o) {
      BoardAfterUpdate(d, row, p, o);
      assert Board(after, o) == Board(d.(picks := d.picks[row := p]), o);
    }
  }

  /** Superseding an active row by a fresh one for its slot changes what the board shows of that slot only. */
  lemma BoardAfterSupersede(d: Draft, i: nat, p: Pick, o: nat)
    requires Unique(d.picks) && i < |d.picks| && Active(d.picks[i]) && Active(p) && p.overall == d.picks[i].overall
    ensures Board(d.(picks := d.picks[i := d.picks[i].(supersededBy := Some(|d.picks|))] + [p]), o)
         == if o == p.overall then Some(Shown(p.round, p.position, p.original, p.current, p.selection)) else Board(d, o)
  {
    var rows := d.picks[i := d.picks[i].(supersededBy := Some(|d.picks|))] + [p];
    assert Unique(rows);
    if o == p.overall {
      ActiveRowIs(rows, |d.picks|);
    } else {
      var r := ActiveRow(d.picks, o);
      if r.Some? {
        assert rows[r.value] == d.picks[r.value];
        ActiveRowIs(rows, r.value);
      } else {
        forall j | 0 <= j < |rows| ensures !(Active(rows[j]) && rows[j].overall == o) {}
      }
    }
  }

  lemma OwnedAfterRelease(d: Draft, after: Draft, j: nat, at: int)
    requires OwnedOnce(d.periods) && j < |d.periods| && d.periods[j].released.None?
    requires after.periods == d.periods[j := d.periods[j].(released := Some(at))]
    ensures Owned(after) == Owned(d) - {Holding(d.periods[j].player, d.periods[j].entry, d.periods[j].acquired)}
  {
    var gone := Holding(d.periods[j].player, d.periods[j].entry, d.periods[j].acquired);
    forall h ensures h in Owned(after) <==> h in Owned(d) && h != gone {
      if h in Owned(d) && h != gone {
        var i :| 0 <= i < |d.periods| && d.periods[i].released.None? && h == Holding(d.periods[i].player, d.periods[i].entry, d.periods[i].acquired);
        assert after.periods[i] == d.periods[i];
      }
      if h in Owned(after) {
        var i :| 0 <= i < |after.periods| && after.periods[i].released.None? && h == Holding(after.periods[i].player, after.periods[i].entry, after.periods[i].acquired);
        assert i != j && after.periods[i] == d.periods[i];
      }
    }
  }

  /** Whichever accepted correction: the last completed slot is open again for the same owner, and only that holding ends. */
  lemma CorrectReopensTheLastSlot(d: Draft, row: nat, at: int)
    requires Inv(d) && CorrectPick(d, row, at).Ok?
    ensures var after := CorrectPick(d, row, at).value;
            var k := CountDone(d.picks);
            && k >= 1 && Board(d, k).Some? && Board(d, k).value.selection.Some?
            && Board(after, k) == Some(Board(d, k).value.(selection := None))
            && (forall o :: o != k ==> Board(after, o) == Board(d, o))
            && Owned(after) == Owned(d) - {Holding(Board(d, k).value.selection.value.player, Board(d, k).value.current, Board(d, k).value.selection.value.at)}
  {
    var after := CorrectPick(d, row, at).value;
    var k := CountDone(d.picks);
    var p := d.picks[row];
    LastDoneIs(d.picks, Slots(d), k, row);
    ActiveRowIs(d.picks, row);
    var again := p.(selection := None);
    forall o ensures Board(after, o) == if o == p.overall then Some(Shown(p.round, p.position, p.original, p.current, None)) else Board(d, o) {
      BoardAfterSupersede(d, row, again, o);
      assert Board(after, o) == Board(d.(picks := after.picks), o);
    }
    OwnedAfterRelease(d, after, OpenPeriod(d.periods, p.selection.value.player).value, at);
  }

  lemma LastDoneIs(picks: seq<Pick>, n: nat, k: nat, row: nat)
    requires BoardOk(picks, n, k) && row < |picks| && Done(picks[row]) && !LaterDone(picks, picks[row].overall)
    ensures k >= 1 && picks[row].overall == k
  {
    assert RowOk(picks, n, k, row);
    var a := ActiveRow(picks, k).value;
    assert RowOk(picks, n, k, a);
  }
}
