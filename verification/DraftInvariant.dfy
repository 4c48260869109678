/** What every draft transaction keeps: one row a slot, a completed prefix, and ownership in step with it. */
module DraftInvariant {
  import opened Options
  import opened DraftLedger

  // ----- The board -----

  /** At most one active row a slot. */
  ghost predicate Unique(picks: seq<Pick>) {
    forall i, j :: 0 <= i < j < |picks| && Active(picks[i]) && Active(picks[j]) ==> picks[i].overall != picks[j].overall
  }

  ghost predicate RowOk(picks: seq<Pick>, n: nat, k: nat, i: nat)
    requires i < |picks|
  {
    var p := picks[i];
    && 1 <= p.overall <= n
    && (Active(p) ==> (p.selection.Some? <==> p.overall <= k))
    && (!Active(p) ==> p.selection.Some? && i < p.supersededBy.value < |picks|
                       && picks[p.supersededBy.value].overall == p.overall)
  }

  /** Every slot 1..n has its one active row, and the completed ones are exactly the slots 1..k. */
  ghost predicate BoardOk(picks: seq<Pick>, n: nat, k: nat) {
    && Unique(picks) && k <= n
    && (forall i :: 0 <= i < |picks| ==> RowOk(picks, n, k, i))
    && (forall o :: 1 <= o <= n ==> ActiveRow(picks, o).Some?)
    && CountActive(picks) == n && CountDone(picks) == k
  }

  // ----- Ownership -----

  function TotalOpen(periods: seq<Period>): nat {
    if periods == [] then 0
    else TotalOpen(periods[..|periods| - 1]) + if periods[|periods| - 1].released.None? then 1 else 0
  }

  /** No player is owned twice at once. */
  ghost predicate OwnedOnce(periods: seq<Period>) {
    forall i, j :: 0 <= i < j < |periods| && periods[i].released.None? && periods[j].released.None? ==>
      periods[i].player != periods[j].player
  }

  /** A completed pick's player is owned by its entry since the pick. */
  ghost predicate Backed(d: Draft, i: nat)
    requires i < |d.picks|
  {
    Done(d.picks[i]) ==> StillOwned(d, d.picks[i])
  }

  /** An open period stems from some completed pick. */
  ghost predicate Stems(d: Draft, j: nat)
    requires j < |d.periods|
  {
    d.periods[j].released.None? ==> exists i :: 0 <= i < |d.picks| && Made(d.picks[i], d.periods[j])
  }

  predicate Made(p: Pick, o: Period) {
    Done(p) && p.selection.value == Selection(o.player, o.acquired) && p.current == o.entry
  }

  /** Open periods and completed picks are the same facts. */
  ghost predicate OwnershipOk(d: Draft) {
    && OwnedOnce(d.periods)
    && (forall i :: 0 <= i < |d.picks| ==> Backed(d, i))
    && (forall i, j :: 0 <= i < j < |d.picks| && Done(d.picks[i]) && Done(d.picks[j]) ==>
          d.picks[i].selection.value.player != d.picks[j].selection.value.player)
    && (forall j :: 0 <= j < |d.periods| ==> Stems(d, j))
  }

  ghost predicate SquadsOk(d: Draft) {
    && (forall j :: 0 <= j < |d.periods| ==> d.periods[j].entry in d.order)
    && TotalOpen(d.periods) == CountDone(d.picks)
    && (forall e :: e in d.order ==> OpenCount(d.periods, e) <= d.target)
  }

  function Slots(d: Draft): nat {
    |d.order| * d.target
  }

  ghost predicate Inv(d: Draft) {
    && d.order != [] && Distinct(d.order) && d.target > 0
    && BoardOk(d.picks, Slots(d), CountDone(d.picks))
    && OwnershipOk(d) && SquadsOk(d)
    && (d.finalized ==> CountDone(d.picks) == Slots(d))
  }

  // ----- Counting under an update -----

  function One(b: bool): nat {
    if b then 1 else 0
  }

  lemma {:induction false} CountUpdate(picks: seq<Pick>, i: nat, p: Pick)
    requires i < |picks|
    ensures CountActive(picks[i := p]) + One(Active(picks[i])) == CountActive(picks) + One(Active(p))
    ensures CountDone(picks[i := p]) + One(Done(picks[i])) == CountDone(picks) + One(Done(p))
  {
    var n := |picks| - 1;
    if i == n {
      assert picks[i := p][..n] == picks[..n];
    } else {
      assert picks[i := p][..n] == picks[..n][i := p];
      CountUpdate(picks[..n], i, p);
    }
  }

  lemma CountAppend(picks: seq<Pick>, p: Pick)
    ensures CountActive(picks + [p]) == CountActive(picks) + One(Active(p))
    ensures CountDone(picks + [p]) == CountDone(picks) + One(Done(p))
  {
    assert (picks + [p])[..|picks|] == picks;
  }

  lemma {:induction false} OpenUpdate(periods: seq<Period>, i: nat, o: Period, e: Entry)
    requires i < |periods| && o.entry == periods[i].entry
    ensures TotalOpen(periods[i := o]) + One(periods[i].released.None?) == TotalOpen(periods) + One(o.released.None?)
    ensures OpenCount(periods[i := o], e) + One(o.entry == e && periods[i].released.None?)
         == OpenCount(periods, e) + One(o.entry == e && o.released.None?)
  {
    var n := |periods| - 1;
    if i == n {
      assert periods[i := o][..n] == periods[..n];
    } else {
      assert periods[i := o][..n] == periods[..n][i := o];
      OpenUpdate(periods[..n], i, o, e);
    }
  }

  lemma OpenAppend(periods: seq<Period>, o: Period, e: Entry)
    ensures TotalOpen(periods + [o]) == TotalOpen(periods) + One(o.released.None?)
    ensures OpenCount(periods + [o], e) == OpenCount(periods, e) + One(o.entry == e && o.released.None?)
  {
    assert (periods + [o])[..|periods|] == periods;
  }

  // ----- Capacity -----

  /** The latest acquisition of an entry among the first `upTo` periods, no earlier than `from`. */
  function Latest(periods: seq<Period>, upTo: nat, entry: Entry, from: int): int
    requires upTo <= |periods|
  {
    if upTo == 0 then from
    else
      var rest := Latest(periods, upTo - 1, entry, from);
      if periods[upTo - 1].entry == entry && periods[upTo - 1].acquired > rest then periods[upTo - 1].acquired else rest
  }

  lemma {:induction false} LatestIs(periods: seq<Period>, upTo: nat, entry: Entry, from: int)
    requires upTo <= |periods|
    ensures Latest(periods, upTo, entry, from) >= from
    ensures forall i :: 0 <= i < upTo && periods[i].entry == entry ==> periods[i].acquired <= Latest(periods, upTo, entry, from)
    ensures SquadAt(periods, entry, Latest(periods, upTo, entry, from)) <= MaximumSquad(periods, upTo, entry, from)
  {
    if upTo > 0 { LatestIs(periods, upTo - 1, entry, from); }
  }

  lemma {:induction false} OpenAtLeast(periods: seq<Period>, entry: Entry, at: int)
    requires forall i :: 0 <= i < |periods| && periods[i].entry == entry ==> periods[i].acquired <= at
    ensures OpenCount(periods, entry) <= SquadAt(periods, entry, at)
  {
    if periods != [] {
      var n := |periods| - 1;
      forall i | 0 <= i < n && periods[..n][i].entry == entry ensures periods[..n][i].acquired <= at {
        assert periods[..n][i] == periods[i];
      }
      OpenAtLeast(periods[..n], entry, at);
    }
  }

  /** The historical capacity check, at whatever instant, never lets the squad now open outgrow the limit. */
  lemma AcquireWithinCapacity(d: Draft, player: Player, entry: Entry, at: int)
    requires Acquire(d, player, entry, at).Ok?
    ensures OpenCount(d.periods, entry) + 1 <= d.target
  {
    LatestIs(d.periods, |d.periods|, entry, at);
    OpenAtLeast(d.periods, entry, Latest(d.periods, |d.periods|, entry, at));
  }

  // ----- Lookups -----

  lemma ActiveRowIs(picks: seq<Pick>, i: nat)
    requires Unique(picks) && i < |picks| && Active(picks[i])
    ensures ActiveRow(picks, picks[i].overall) == Some(i)
  {
    var r := ActiveRow(picks, picks[i].overall);
    assert r.Some?;
  }

  lemma OpenPeriodIs(periods: seq<Period>, j: nat)
    requires OwnedOnce(periods) && j < |periods| && periods[j].released.None?
    ensures OpenPeriod(periods, periods[j].player) == Some(j)
  {
    var r := OpenPeriod(periods, periods[j].player);
    assert r.Some?;
  }

  /** The unfiltered query finds the active row of the first slot not yet completed. */
  lemma NextPickIs(picks: seq<Pick>, n: nat, k: nat)
    requires BoardOk(picks, n, k)
    ensures NextPick(picks).None? <==> k == n
    ensures k < n ==> NextPick(picks) == ActiveRow(picks, k + 1)
  {
    var r := NextPick(picks);
    if r.Some? { assert RowOk(picks, n, k, r.value); }
    if k < n {
      var a := ActiveRow(picks, k + 1).value;
      assert RowOk(picks, n, k, a);
      assert r.Some?;
      ActiveRowIs(picks, r.value);
    }
  }

  // ----- Pick -----

  lemma ExecuteBoard(picks: seq<Pick>, n: nat, k: nat, i: nat, s: Selection)
    requires BoardOk(picks, n, k) && NextPick(picks) == Some(i)
    ensures k < n && Active(picks[i]) && picks[i].overall == k + 1
    ensures BoardOk(picks[i := picks[i].(selection := Some(s))], n, k + 1)
  {
    NextPickIs(picks, n, k);
    var picks' := picks[i := picks[i].(selection := Some(s))];
    CountUpdate(picks, i, picks'[i]);
    SameSlots(picks, picks', n);
    var k' := k + 1;
    forall a | 0 <= a < |picks'| ensures RowOk(picks', n, k', a) {
      ExecuteRow(picks, n, k, i, s, a);
    }
  }

  /** Slots and activity as they were: every slot still has its one active row. */
  lemma SameSlots(picks: seq<Pick>, picks': seq<Pick>, n: nat)
    requires Unique(picks) && |picks'| == |picks|
    requires forall a :: 0 <= a < |picks| ==> picks'[a].overall == picks[a].overall && Active(picks'[a]) == Active(picks[a])
    requires forall o :: 1 <= o <= n ==> ActiveRow(picks, o).Some?
    ensures Unique(picks') && forall o :: 1 <= o <= n ==> ActiveRow(picks', o).Some?
  {
    forall o | 1 <= o <= n ensures ActiveRow(picks', o).Some? {
      var a := ActiveRow(picks, o).value;
      assert Active(picks'[a]) && picks'[a].overall == o;
    }
  }

  lemma ExecuteRow(picks: seq<Pick>, n: nat, k: nat, i: nat, s: Selection, a: nat)
    requires BoardOk(picks, n, k) && i < |picks| && Active(picks[i]) && picks[i].overall == k + 1 && a < |picks|
    ensures RowOk(picks[i := picks[i].(selection := Some(s))], n, k + 1, a)
  {
    assert RowOk(picks, n, k, a);
    if a != i && Active(picks[a]) { assert picks[a].overall != k + 1; }
  }
}
