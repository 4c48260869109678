/** What the draft's invariant means: the board, the squads, and undoing a pick. */
module DraftTheorems {
  import opened Options
  import opened DraftLedger
  import opened DraftInvariant
  import opened DraftSteps
  import opened DraftSnake

  // ----- The start -----

  lemma {:induction false} FreshCounts(picks: seq<Pick>)
    requires forall i :: 0 <= i < |picks| ==> Active(picks[i]) && picks[i].selection.None?
    ensures CountActive(picks) == |picks| && CountDone(picks) == 0
  {
    if picks != [] { FreshCounts(picks[..|picks| - 1]); }
  }

  lemma AcceptedKeeps(order: seq<Entry>, target: nat, pool: map<Player, bool>)
    requires AcceptOrder(order, target, pool).Ok?
    ensures Inv(AcceptOrder(order, target, pool).value)
  {
    var d := AcceptOrder(order, target, pool).value;
    SnakeNumbers(order, target);
    FreshCounts(d.picks);
    forall o | 1 <= o <= |d.picks| ensures ActiveRow(d.picks, o).Some? {
      assert Active(d.picks[o - 1]) && d.picks[o - 1].overall == o;
    }
    assert BoardOk(d.picks, Slots(d), 0);
  }

  // ----- The board -----

  /** A listing of exactly the active rows in ascending overall number, as the board query returns it. */
  ghost predicate Lists(rows: seq<nat>, picks: seq<Pick>) {
    && (forall x :: 0 <= x < |rows| ==> rows[x] < |picks| && Active(picks[rows[x]]))
    && (forall x, y :: 0 <= x < y < |rows| ==> picks[rows[x]].overall < picks[rows[y]].overall)
    && (forall i :: 0 <= i < |picks| && Active(picks[i]) ==> i in rows)
  }

  /** Position overall - 1 of the board is the slot's row, so looking it up by number is right. */
  lemma {:induction false} BoardPosition(d: Draft, rows: seq<nat>, x: nat)
    requires Inv(d) && Lists(rows, d.picks) && x < |rows|
    ensures d.picks[rows[x]].overall == x + 1
    ensures ActiveRow(d.picks, x + 1) == Some(rows[x])
  {
    var n, k := Slots(d), CountDone(d.picks);
    if x > 0 { BoardPosition(d, rows, x - 1); }
    assert RowOk(d.picks, n, k, rows[x]);
    var a := ActiveRow(d.picks, x + 1).value;
    assert a in rows;
    var y :| 0 <= y < |rows| && rows[y] == a;
    ActiveRowIs(d.picks, rows[x]);
  }

  lemma BoardLength(d: Draft, rows: seq<nat>)
    requires Inv(d) && Lists(rows, d.picks)
    ensures |rows| == Slots(d)
  {
    var n, k := Slots(d), CountDone(d.picks);
    if rows != [] {
      BoardPosition(d, rows, |rows| - 1);
      assert RowOk(d.picks, n, k, rows[|rows| - 1]);
    }
    if |rows| < n {
      var o := |rows| + 1;
      var a := ActiveRow(d.picks, o).value;
      assert a in rows;
      var y :| 0 <= y < |rows| && rows[y] == a;
      BoardPosition(d, rows, y);
      assert false;
    }
  }

  /** What the board shows of a slot: everything but the row's identity. */
  datatype Shown = Shown(round: nat, position: nat, original: Entry, current: Entry, selection: Option<Selection>)

  ghost function Board(d: Draft, overall: nat): Option<Shown> {
    match ActiveRow(d.picks, overall)
    case None => None
    case Some(i) => var p := d.picks[i]; Some(Shown(p.round, p.position, p.original, p.current, p.selection))
  }

  // ----- Ownership -----

  datatype Holding = Holding(player: Player, entry: Entry, since: int)

  ghost function Owned(d: Draft): set<Holding> {
    set j | 0 <= j < |d.periods| && d.periods[j].released.None? ::
      Holding(d.periods[j].player, d.periods[j].entry, d.periods[j].acquired)
  }

  ghost function Drafted(d: Draft): set<Holding> {
    set i | 0 <= i < |d.picks| && Done(d.picks[i]) ::
      Holding(d.picks[i].selection.value.player, d.picks[i].current, d.picks[i].selection.value.at)
  }

  /** Who owns whom is exactly who drafted whom, and nobody is owned twice. */
  lemma OwnedIsDrafted(d: Draft)
    requires Inv(d)
    ensures Owned(d) == Drafted(d)
    ensures forall g, h :: g in Owned(d) && h in Owned(d) && g.player == h.player ==> g == h
  {
    forall h | h in Owned(d) ensures h in Drafted(d) {
      var j :| 0 <= j < |d.periods| && d.periods[j].released.None?
               && h == Holding(d.periods[j].player, d.periods[j].entry, d.periods[j].acquired);
      assert Stems(d, j);
    }
    forall h | h in Drafted(d) ensures h in Owned(d) {
      var i :| 0 <= i < |d.picks| && Done(d.picks[i])
               && h == Holding(d.picks[i].selection.value.player, d.picks[i].current, d.picks[i].selection.value.at);
      assert Backed(d, i);
    }
  }

  /** ... after any run from an accepted order. */
  lemma EveryRunOwnsWhatItDrafted(order: seq<Entry>, target: nat, pool: map<Player, bool>, steps: seq<Step>)
    requires AcceptOrder(order, target, pool).Ok?
    ensures var d := Run(AcceptOrder(order, target, pool).value, steps);
            Inv(d) && Owned(d) == Drafted(d)
  {
    AcceptedKeeps(order, target, pool);
    RunKeeps(AcceptOrder(order, target, pool).value, steps);
    OwnedIsDrafted(Run(AcceptOrder(order, target, pool).value, steps));
  }

  // ----- Undoing a pick -----

  lemma ExecutedPeriods(d: Draft, player: Player, entry: Entry, at: int, at': int)
    requires OwnershipOk(d) && Acquire(d, player, entry, at).Ok? && at' > at
    ensures var periods := Acquire(d, player, entry, at).value;
            && OpenPeriod(periods, player) == Some(|d.periods|)
            && Release(periods, player, at').Ok?
            && Owned(d.(periods := Release(periods, player, at').value)) == Owned(d)
  {
    var periods := Acquire(d, player, entry, at).value;
    assert OpenPeriod(periods, player) == Some(|d.periods|);
    var periods' := Release(periods, player, at').value;
    forall j | 0 <= j < |periods'| && periods'[j].released.None? ensures j < |d.periods| && periods'[j] == d.periods[j] {}
    forall j | 0 <= j < |d.periods| ensures periods'[j] == d.periods[j] {}
  }

  lemma UndonePicks(d: Draft, i: nat, s: Selection, o: nat)
    requires Unique(d.picks) && i < |d.picks| && Active(d.picks[i]) && d.picks[i].selection.None?
    ensures var done := d.picks[i].(selection := Some(s));
            var mid := d.picks[i := done];
            var end := mid[i := done.(supersededBy := Some(|mid|))] + [done.(selection := None)];
            Board(d.(picks := end), o) == Board(d, o)
  {
    var done := d.picks[i].(selection := Some(s));
    var mid := d.picks[i := done];
    var gone := done.(supersededBy := Some(|mid|));
    var end := mid[i := gone] + [done.(selection := None)];
    assert Unique(end);
    if o == d.picks[i].overall {
      ActiveRowIs(d.picks, i);
      ActiveRowIs(end, |d.picks|);
    } else {
      var r := ActiveRow(d.picks, o);
      if r.Some? {
        assert end[r.value] == d.picks[r.value];
        ActiveRowIs(end, r.value);
      } else {
        forall j | 0 <= j < |end| ensures !(Active(end[j]) && end[j].overall == o) {}
      }
    }
  }

  /** A pick just made can always be corrected, and that restores the visible board and every ownership. */
  lemma CorrectUndoesExecute(d: Draft, entry: Entry, player: Player, pick: Option<nat>, at: int, at': int)
    requires Inv(d) && ExecutePick(d, entry, player, pick, at).Ok? && at' > at
    ensures NextPick(d.picks).Some?
    ensures var row := NextPick(d.picks).value;
            var made := ExecutePick(d, entry, player, pick, at).value;
            && CorrectPick(made, row, at').Ok?
            && var undone := CorrectPick(made, row, at').value;
               Owned(undone) == Owned(d) && forall o :: Board(undone, o) == Board(d, o)
  {
    var row := NextPick(d.picks).value;
    var s := Selection(player, at);
    var made := ExecutePick(d, entry, player, pick, at).value;
    ExecuteKeeps(d, entry, player, pick, at);
    ExecuteBoard(d.picks, Slots(d), CountDone(d.picks), row, s);
    ExecutedPeriods(d, player, entry, at, at');
    NothingLater(made.picks, Slots(d), CountDone(made.picks));
    var undone := CorrectPick(made, row, at').value;
    assert Owned(undone) == Owned(d.(periods := undone.periods));
    forall o ensures Board(undone, o) == Board(d, o) {
      UndonePicks(d, row, s, o);
      assert Board(undone, o) == Board(d.(picks := undone.picks), o);
    }
  }

  lemma NothingLater(picks: seq<Pick>, n: nat, k: nat)
    requires BoardOk(picks, n, k)
    ensures !LaterDone(picks, k)
  {
    forall i | 0 <= i < |picks| && Done(picks[i]) ensures picks[i].overall <= k {
      assert RowOk(picks, n, k, i);
    }
  }

  // ----- Finalisation -----

  function SquadSum(order: seq<Entry>, periods: seq<Period>): nat {
    if order == [] then 0
    else SquadSum(order[..|order| - 1], periods) + OpenCount(periods, order[|order| - 1])
  }

  lemma {:induction false} SquadSumEmpty(order: seq<Entry>)
    ensures SquadSum(order, []) == 0
  {
    if order != [] { SquadSumEmpty(order[..|order| - 1]); }
  }

  /** One more period adds one to the squad sum exactly when it is open and its entry is in the order. */
  lemma {:induction false} SquadSumStep(order: seq<Entry>, periods: seq<Period>)
    requires Distinct(order) && periods != []
    ensures var o := periods[|periods| - 1];
            SquadSum(order, periods) == SquadSum(order, periods[..|periods| - 1]) + One(o.released.None? && o.entry in order)
  {
    if order != [] {
      var n := |order| - 1;
      SquadSumStep(order[..n], periods);
      assert order == order[..n] + [order[n]];
      assert forall i :: 0 <= i < n ==> order[..n][i] == order[i];
    }
  }

  lemma {:induction false} SquadSumIsTotal(order: seq<Entry>, periods: seq<Period>)
    requires Distinct(order) && forall j :: 0 <= j < |periods| ==> periods[j].entry in order
    ensures SquadSum(order, periods) == TotalOpen(periods)
  {
    if periods == [] {
      SquadSumEmpty(order);
    } else {
      var n := |periods| - 1;
      assert forall j :: 0 <= j < n ==> periods[..n][j] == periods[j];
      SquadSumIsTotal(order, periods[..n]);
      SquadSumStep(order, periods);
    }
  }

  /** Pigeonhole: squads of at most T that add up to n * T are all exactly T. */
  lemma {:induction false} FullSquads(order: seq<Entry>, periods: seq<Period>, target: nat)
    requires forall i :: 0 <= i < |order| ==> OpenCount(periods, order[i]) <= target
    ensures SquadSum(order, periods) <= |order| * target
    ensures SquadSum(order, periods) == |order| * target ==>
              forall i :: 0 <= i < |order| ==> OpenCount(periods, order[i]) == target
  {
    if order != [] {
      var n := |order| - 1;
      assert forall i :: 0 <= i < n ==> order[..n][i] == order[i];
      FullSquads(order[..n], periods, target);
      assert |order| * target == n * target + target;
    }
  }

  /** Once every pick is made, whatever picks were traded, every squad is exactly full. */
  lemma CompleteMeansEven(d: Draft)
    requires Inv(d) && CountDone(d.picks) == Slots(d)
    ensures forall e :: e in d.order ==> OpenCount(d.periods, e) == d.target
  {
    SquadSumIsTotal(d.order, d.periods);
    FullSquads(d.order, d.periods, d.target);
  }

  /** Finalisation is accepted exactly when every pick is made: its check for uneven squads cannot fire. */
  lemma FinalizeIff(d: Draft)
    requires Inv(d)
    ensures Finalize(d).Ok? <==> !d.finalized && CountDone(d.picks) == Slots(d)
    ensures Finalize(d) != Err(UnevenSquads)
  {
    assert Slots(d) > 0 by { SlotsPositive(d); }
    if CountDone(d.picks) == Slots(d) { CompleteMeansEven(d); }
  }

  lemma SlotsPositive(d: Draft)
    requires d.order != [] && d.target > 0
    ensures Slots(d) > 0
  {
    assert |d.order| * d.target >= 1 * d.target;
  }

  /** While finalised, reopening is the only step that changes anything; a transfer has no check but finds no open pick. */
  lemma FinalizedIsFrozen(d: Draft, step: Step)
    requires Inv(d) && d.finalized && !step.StepReopen?
    ensures Apply(d, step) == d
  {
    if step.StepTransfer? && TransferPick(d, step.row, step.to).Ok? {
      TransferKeeps(d, step.row, step.to);
      assert false;
    }
  }
}
