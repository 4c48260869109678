/** Turning a tied ladder into a total order: sporting criteria first, a fresh ruling inside each tie, nothing else. */
module LadderOrder {
  import opened Options
  import opened Ordering
  import opened LadderFold
  import opened LadderRanking
  import opened LadderTheorems
  import opened LadderRulings
  import opened LadderFreshness

  /** The ruling that resolves a tie: active for its scope and group, and fresh. */
  function Resolve(rulings: seq<Ruling>, scope: Scope, ladder: Snapshot, group: set<Id>): (r: Option<nat>)
    ensures r.Some? ==> r.value < |rulings| && ActiveFor(rulings[r.value], scope, group) && IsFresh(rulings[r.value], ladder)
  {
    var found := FindActive(rulings, scope, group, 0);
    if found.Some? && IsFresh(rulings[found.value], ladder) then found else None
  }

  datatype Resolved = Resolved(order: seq<Id>, used: seq<nat>)

  /** A tied row whose group an earlier tied row already brought in. */
  predicate Handled(rows: seq<Row>, i: nat)
    requires i < |rows|
  {
    exists j :: 0 <= j < i && rows[j].tied && rows[j].group == rows[i].group
  }

  /** What row `i` adds to the order, or the group that blocks it. */
  function Piece(rulings: seq<Ruling>, scope: Scope, ladder: Snapshot, i: nat): Result<Resolved, seq<Id>>
    requires i < |ladder.rows|
  {
    var row := ladder.rows[i];
    if !row.tied then Ok(Resolved([row.id], []))
    else if Handled(ladder.rows, i) then Ok(Resolved([], []))
    else
      var r := Resolve(rulings, scope, ladder, Members(row.group));
      if r.None? then Err(row.group) else Ok(Resolved(rulings[r.value].decided, [r.value]))
  }

  function FullOrder(rulings: seq<Ruling>, scope: Scope, ladder: Snapshot, n: nat): Result<Resolved, seq<Id>>
    requires n <= |ladder.rows|
  {
    if n == 0 then Ok(Resolved([], []))
    else
      var front :- FullOrder(rulings, scope, ladder, n - 1);
      var piece :- Piece(rulings, scope, ladder, n - 1);
      Ok(Resolved(front.order + piece.order, front.used + piece.used))
  }

  // ----- What the order must be -----

  function IndexIn(ids: seq<Id>, e: Id): (i: nat)
    ensures e in ids ==> i < |ids| && ids[i] == e
  {
    if ids == [] || ids[0] == e then 0 else 1 + IndexIn(ids[1..], e)
  }

  lemma {:induction false} IndexOf(ids: seq<Id>, i: nat)
    requires Distinct(ids) && i < |ids|
    ensures IndexIn(ids, ids[i]) == i
  {
    if i > 0 { IndexOf(ids[1..], i - 1); }
  }

  /** The ladder's facts, free of any identifier order: who plays and where each stands. */
  datatype Facts = Facts(entries: set<Id>, standing: Id -> Key)
  {
    function Level(e: Id): set<Id> { set x | x in entries && standing(x) == standing(e) }
  }

  /** The ruled position of an entry inside its tie. */
  function Position(rulings: seq<Ruling>, scope: Scope, facts: Facts, e: Id): int {
    var r := FindActive(rulings, scope, facts.Level(e), 0);
    if r.Some? then IndexIn(rulings[r.value].decided, e) else 0
  }

  /** Better on the three criteria; inside a tie, earlier in the ruling. */
  predicate ResolvedBefore(rulings: seq<Ruling>, scope: Scope, facts: Facts, a: Id, b: Id) {
    || Better(facts.standing(a), facts.standing(b))
    || (facts.standing(a) == facts.standing(b) && Position(rulings, scope, facts, a) < Position(rulings, scope, facts, b))
  }

  predicate InResolvedOrder(rulings: seq<Ruling>, scope: Scope, facts: Facts, order: seq<Id>) {
    forall i, j :: 0 <= i < j < |order| ==> ResolvedBefore(rulings, scope, facts, order[i], order[j])
  }

  function ResolvedOrder(rulings: seq<Ruling>, scope: Scope, facts: Facts): (Id, Id) -> bool {
    (a: Id, b: Id) => ResolvedBefore(rulings, scope, facts, a, b)
  }

  /** The snapshot shows these facts: one row per entry, best standing first, each group its whole level. */
  ghost predicate Shows(ladder: Snapshot, facts: Facts) {
    var rows := ladder.rows;
    && (forall e :: e in facts.entries <==> exists i :: 0 <= i < |rows| && rows[i].id == e)
    && (forall i, j :: 0 <= i < j < |rows| ==> rows[i].id != rows[j].id && !Better(facts.standing(rows[j].id), facts.standing(rows[i].id)))
    && (forall i :: 0 <= i < |rows| ==> Members(rows[i].group) == facts.Level(rows[i].id))
    && (forall i :: 0 <= i < |rows| ==> (rows[i].tied <==> exists x :: x in facts.Level(rows[i].id) && x != rows[i].id))
    && (forall i, j :: 0 <= i < |rows| && 0 <= j < |rows| ==>
          (facts.standing(rows[i].id) == facts.standing(rows[j].id) ==> rows[i].group == rows[j].group))
  }

  ghost predicate OrdersGroups(rulings: seq<Ruling>) {
    forall i :: 0 <= i < |rulings| ==> Distinct(rulings[i].decided) && Members(rulings[i].decided) == rulings[i].group
  }

  // ----- The rows read so far, as a set -----

  /** Entries placed once `n` rows are read: everyone level with one of them. */
  ghost predicate Placed(ladder: Snapshot, facts: Facts, n: nat, e: Id)
    requires n <= |ladder.rows|
  {
    e in facts.entries && exists i :: 0 <= i < n && facts.standing(ladder.rows[i].id) == facts.standing(e)
  }

  /** The order after `n` rows holds exactly the entries placed, each once, in resolved order. */
  ghost predicate PrefixOk(rulings: seq<Ruling>, scope: Scope, ladder: Snapshot, facts: Facts, n: nat, order: seq<Id>)
    requires n <= |ladder.rows|
  {
    && (forall e :: e in order <==> Placed(ladder, facts, n, e))
    && InResolvedOrder(rulings, scope, facts, order)
  }

  lemma LevelMember(ladder: Snapshot, facts: Facts, i: nat)
    requires Shows(ladder, facts) && i < |ladder.rows|
    ensures ladder.rows[i].id in facts.entries && ladder.rows[i].id in facts.Level(ladder.rows[i].id)
  {
  }

  /** A row's piece is its whole level in ruled order, or nothing when the level is already in. */
  lemma PieceIs(rulings: seq<Ruling>, scope: Scope, ladder: Snapshot, facts: Facts, i: nat)
    requires Shows(ladder, facts) && OrdersGroups(rulings) && i < |ladder.rows|
    requires Piece(rulings, scope, ladder, i).Ok?
    ensures var ids := Piece(rulings, scope, ladder, i).value.order;
            var e := ladder.rows[i].id;
            && (Placed(ladder, facts, i, e) ==> ids == [])
            && (!Placed(ladder, facts, i, e) ==>
                  (forall x :: x in ids <==> x in facts.Level(e)) && InResolvedOrder(rulings, scope, facts, ids))
  {
    var row := ladder.rows[i];
    LevelMember(ladder, facts, i);
    HandledIsPlaced(ladder, facts, i);
    if !row.tied {
      assert ladder.rows[i].tied <==> exists x :: x in facts.Level(ladder.rows[i].id) && x != ladder.rows[i].id;
      assert forall x :: x in facts.Level(row.id) ==> x == row.id;
    } else if !Handled(ladder.rows, i) {
      var k := Resolve(rulings, scope, ladder, Members(row.group)).value;
      RuledPiece(rulings, scope, facts, row.id, k);
    }
  }

  /** The `handled` test recognises exactly the levels already placed. */
  lemma HandledIsPlaced(ladder: Snapshot, facts: Facts, i: nat)
    requires Shows(ladder, facts) && i < |ladder.rows|
    ensures ladder.rows[i].tied ==> (Handled(ladder.rows, i) <==> Placed(ladder, facts, i, ladder.rows[i].id))
    ensures !ladder.rows[i].tied ==> !Placed(ladder, facts, i, ladder.rows[i].id)
  {
    var rows := ladder.rows;
    LevelMember(ladder, facts, i);
    if j :| 0 <= j < i && rows[j].tied && rows[j].group == rows[i].group {
      LevelMember(ladder, facts, j);
      assert Members(rows[j].group) == Members(rows[i].group);
      assert rows[j].id in facts.Level(rows[i].id);
    }
    if j :| 0 <= j < i && facts.standing(rows[j].id) == facts.standing(rows[i].id) {
      LevelMember(ladder, facts, j);
      assert rows[j].id in facts.Level(rows[i].id) && rows[j].id != rows[i].id;
      assert rows[i].id in facts.Level(rows[j].id);
    }
  }

  lemma RuledPiece(rulings: seq<Ruling>, scope: Scope, facts: Facts, e: Id, k: nat)
    requires OrdersGroups(rulings) && k < |rulings| && FindActive(rulings, scope, facts.Level(e), 0) == Some(k)
    ensures var ids := rulings[k].decided;
            && (forall x :: x in ids <==> x in facts.Level(e))
            && InResolvedOrder(rulings, scope, facts, ids)
  {
    var ids := rulings[k].decided;
    assert Members(ids) == rulings[k].group;
    forall x ensures x in ids <==> x in facts.Level(e) { assert x in Members(ids) <==> x in ids; }
    forall a | 0 <= a < |ids| ensures Position(rulings, scope, facts, ids[a]) == a && facts.standing(ids[a]) == facts.standing(e) {
      assert ids[a] in facts.Level(e);
      assert facts.Level(ids[a]) == facts.Level(e);
      IndexOf(ids, a);
    }
  }

  lemma ConcatInOrder(rulings: seq<Ruling>, scope: Scope, facts: Facts, front: seq<Id>, back: seq<Id>)
    requires InResolvedOrder(rulings, scope, facts, front) && InResolvedOrder(rulings, scope, facts, back)
    requires forall x, y :: x in front && y in back ==> Better(facts.standing(x), facts.standing(y))
    ensures InResolvedOrder(rulings, scope, facts, front + back)
  {
    var order := front + back;
    forall i, j | 0 <= i < j < |order| ensures ResolvedBefore(rulings, scope, facts, order[i], order[j]) {
      if i < |front| <= j {
        assert order[i] in front && order[j] in back;
      } else if |front| <= i {
        assert order[i] == back[i - |front|] && order[j] == back[j - |front|];
      }
    }
  }

  lemma PrefixGrows(rulings: seq<Ruling>, scope: Scope, ladder: Snapshot, facts: Facts, n: nat, front: seq<Id>)
    requires Shows(ladder, facts) && OrdersGroups(rulings) && n < |ladder.rows|
    requires PrefixOk(rulings, scope, ladder, facts, n, front)
    requires Piece(rulings, scope, ladder, n).Ok?
    ensures PrefixOk(rulings, scope, ladder, facts, n + 1, front + Piece(rulings, scope, ladder, n).value.order)
  {
    var ids := Piece(rulings, scope, ladder, n).value.order;
    PieceIs(rulings, scope, ladder, facts, n);
    forall x ensures x in front + ids <==> Placed(ladder, facts, n + 1, x) { PlacedNext(ladder, facts, n, x); }
    forall x, y | x in front && y in ids ensures Better(facts.standing(x), facts.standing(y)) {
      EarlierIsBetter(ladder, facts, n, x, y);
    }
    ConcatInOrder(rulings, scope, facts, front, ids);
  }

  lemma PlacedNext(ladder: Snapshot, facts: Facts, n: nat, x: Id)
    requires Shows(ladder, facts) && n < |ladder.rows|
    ensures Placed(ladder, facts, n + 1, x) <==> Placed(ladder, facts, n, x) || x in facts.Level(ladder.rows[n].id)
  {
    if x in facts.Level(ladder.rows[n].id) {
      assert facts.standing(ladder.rows[n].id) == facts.standing(x);
    }
  }

  lemma EarlierIsBetter(ladder: Snapshot, facts: Facts, n: nat, x: Id, y: Id)
    requires Shows(ladder, facts) && n < |ladder.rows|
    requires Placed(ladder, facts, n, x) && !Placed(ladder, facts, n, ladder.rows[n].id)
    requires y in facts.Level(ladder.rows[n].id)
    ensures Better(facts.standing(x), facts.standing(y))
  {
    var i :| 0 <= i < n && facts.standing(ladder.rows[i].id) == facts.standing(x);
    assert !Better(facts.standing(ladder.rows[n].id), facts.standing(ladder.rows[i].id));
    LevelMember(ladder, facts, n);
    BetterIsWeak(facts.standing(x), facts.standing(y), facts.standing(x));
  }

  lemma {:induction false} PrefixHolds(rulings: seq<Ruling>, scope: Scope, ladder: Snapshot, facts: Facts, n: nat)
    requires Shows(ladder, facts) && OrdersGroups(rulings) && n <= |ladder.rows|
    requires FullOrder(rulings, scope, ladder, n).Ok?
    ensures PrefixOk(rulings, scope, ladder, facts, n, FullOrder(rulings, scope, ladder, n).value.order)
  {
    if n == 0 {
      PrefixEmpty(rulings, scope, ladder, facts);
    } else {
      FullOrderStep(rulings, scope, ladder, n - 1);
      PrefixHolds(rulings, scope, ladder, facts, n - 1);
      PrefixGrows(rulings, scope, ladder, facts, n - 1, FullOrder(rulings, scope, ladder, n - 1).value.order);
    }
  }

  lemma PrefixEmpty(rulings: seq<Ruling>, scope: Scope, ladder: Snapshot, facts: Facts)
    ensures PrefixOk(rulings, scope, ladder, facts, 0, [])
  {
  }

  lemma FullOrderStep(rulings: seq<Ruling>, scope: Scope, ladder: Snapshot, n: nat)
    requires n < |ladder.rows| && FullOrder(rulings, scope, ladder, n + 1).Ok?
    ensures FullOrder(rulings, scope, ladder, n).Ok? && Piece(rulings, scope, ladder, n).Ok?
    ensures FullOrder(rulings, scope, ladder, n + 1).value.order
         == FullOrder(rulings, scope, ladder, n).value.order + Piece(rulings, scope, ladder, n).value.order
  {
  }

  /** The resolved order lists every entry once; a better standing comes first, and inside a tie the ruling decides. */
  lemma FullOrderIs(rulings: seq<Ruling>, scope: Scope, ladder: Snapshot, facts: Facts)
    requires Shows(ladder, facts) && OrdersGroups(rulings) && FullOrder(rulings, scope, ladder, |ladder.rows|).Ok?
    ensures var order := FullOrder(rulings, scope, ladder, |ladder.rows|).value.order;
            && (forall e :: e in order <==> e in facts.entries)
            && (forall i, j :: 0 <= i < j < |order| ==>
                  order[i] != order[j] && ResolvedBefore(rulings, scope, facts, order[i], order[j]))
  {
    var order := FullOrder(rulings, scope, ladder, |ladder.rows|).value.order;
    PrefixHolds(rulings, scope, ladder, facts, |ladder.rows|);
    forall e ensures e in order <==> e in facts.entries {
      assert e in order <==> Placed(ladder, facts, |ladder.rows|, e);
      if e in facts.entries {
        var i :| 0 <= i < |ladder.rows| && ladder.rows[i].id == e;
      }
    }
  }
}
