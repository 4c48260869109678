/**
 Planning a safe order in which to move one round's lockout triggers onto
 another round's plan, one trigger at a time.
 */
module TriggerPlan {
  import opened Options

  type Key = nat

  datatype Kind = Selective | Main

  /** Where a trigger stands in a plan. */
  datatype Position = Position(kind: Kind, sequence: int)

  datatype Trigger = Trigger(key: Key, position: Position, matches: set<nat>)

  type Plan = map<Key, Position>

  // ----- The two ordering rules -----

  /** Two triggers may stand in the same plan. */
  predicate Compatible(p: Position, q: Position) {
    && p.sequence != q.sequence
    && (p.kind == Selective && q.kind == Main ==> p.sequence < q.sequence)
    && (p.kind == Main && q.kind == Selective ==> q.sequence < p.sequence)
  }

  /** Every selective trigger precedes every main one and no sequence is used twice. */
  predicate Legal(plan: Plan) {
    forall j, k :: j in plan && k in plan && j != k ==> Compatible(plan[j], plan[k])
  }

  predicate Occupied(plan: Plan, t: Trigger) {
    exists k :: k in plan && k != t.key && plan[k].sequence == t.position.sequence
  }

  /** Some trigger of the other kind stands on the wrong side of where `t` would go. */
  predicate OutOfOrder(plan: Plan, t: Trigger) {
    match t.position.kind
    case Selective => exists k :: k in plan && k != t.key && plan[k].kind == Main && t.position.sequence >= plan[k].sequence
    case Main => exists k :: k in plan && k != t.key && plan[k].kind == Selective && t.position.sequence <= plan[k].sequence
  }

  /** The check made before a trigger is moved. */
  predicate Movable(plan: Plan, t: Trigger) {
    !Occupied(plan, t) && !OutOfOrder(plan, t)
  }

  /** What the write of one trigger demands beyond `Movable`: no other main trigger at that moment. */
  predicate NoOtherMain(plan: Plan, t: Trigger) {
    t.position.kind == Main ==> forall k :: k in plan && k != t.key ==> plan[k].kind != Main
  }

  /** The planner goes by the two ordering rules; the writer also keeps a round to one main trigger. */
  datatype Rule = Ordering | OneMain

  predicate CanMove(rule: Rule, plan: Plan, t: Trigger) {
    Movable(plan, t) && (rule == OneMain ==> NoOtherMain(plan, t))
  }

  /** Either rule is a symmetric relation between the positions of two different triggers. */
  predicate Agree(rule: Rule, p: Position, q: Position) {
    Compatible(p, q) && (rule == OneMain ==> !(p.kind == Main && q.kind == Main))
  }

  lemma MovableIffCompatible(rule: Rule, plan: Plan, t: Trigger)
    ensures CanMove(rule, plan, t) <==> forall k :: k in plan && k != t.key ==> Agree(rule, t.position, plan[k])
  {
    if CanMove(rule, plan, t) {
      forall k | k in plan && k != t.key ensures Agree(rule, t.position, plan[k]) {
        assert plan[k].sequence != t.position.sequence;
      }
    }
  }

  // ----- Orders -----

  predicate DistinctKeys(ts: seq<Trigger>) {
    forall i, j :: 0 <= i < j < |ts| ==> ts[i].key != ts[j].key
  }

  function Move(plan: Plan, t: Trigger): Plan {
    plan[t.key := t.position]
  }

  function MoveAll(plan: Plan, order: seq<Trigger>): Plan {
    if order == [] then plan else Move(MoveAll(plan, order[..|order| - 1]), order[|order| - 1])
  }

  /** Each trigger in turn is movable when its turn comes. */
  predicate Safe(rule: Rule, plan: Plan, order: seq<Trigger>) {
    order == []
    || (Safe(rule, plan, order[..|order| - 1]) && CanMove(rule, MoveAll(plan, order[..|order| - 1]), order[|order| - 1]))
  }

  /** The same triggers, each once, in another order. */
  ghost predicate Reorders(order: seq<Trigger>, ts: seq<Trigger>) {
    multiset(order) == multiset(ts)
  }

  // ----- What a plan looks like part way through -----

  ghost predicate Moved(order: seq<Trigger>, k: Key) {
    exists i :: 0 <= i < |order| && order[i].key == k
  }

  /** A moved trigger stands at its target, every other one where it stood. */
  lemma {:induction false} MoveAllAt(plan: Plan, order: seq<Trigger>, k: Key)
    requires DistinctKeys(order)
    ensures k in MoveAll(plan, order) <==> k in plan || Moved(order, k)
    ensures !Moved(order, k) && k in plan ==> MoveAll(plan, order)[k] == plan[k]
    ensures forall i :: 0 <= i < |order| && order[i].key == k ==> MoveAll(plan, order)[k] == order[i].position
  {
    if order != [] {
      var n := |order| - 1;
      MoveAllAt(plan, order[..n], k);
      if Moved(order[..n], k) {
        var i :| 0 <= i < n && order[..n][i].key == k;
        assert order[i].key == k;
        assert order[..n][i] == order[i];
      }
      forall i | 0 <= i < |order| && order[i].key == k ensures MoveAll(plan, order)[k] == order[i].position {
        if i < n { assert order[..n][i].key == k; }
      }
      if Moved(order, k) && order[n].key != k {
        var i :| 0 <= i < |order| && order[i].key == k;
        assert order[..n][i].key == k;
      }
    }
  }

  /** Any two triggers of the plan may stand together under the rule. */
  predicate Lawful(rule: Rule, plan: Plan) {
    forall j, k :: j in plan && k in plan && j != k ==> Agree(rule, plan[j], plan[k])
  }

  lemma LawfulMeans(plan: Plan)
    ensures Lawful(Ordering, plan) <==> Legal(plan)
    ensures Lawful(OneMain, plan) <==> Legal(plan) && SingleMain(plan)
  {
    if Lawful(OneMain, plan) {
      forall j, k | j in plan && k in plan && j != k ensures Compatible(plan[j], plan[k]) {
        assert Agree(OneMain, plan[j], plan[k]);
      }
      forall j, k | j in plan && k in plan && plan[j].kind == Main && plan[k].kind == Main ensures j == k {
        assert j != k ==> Agree(OneMain, plan[j], plan[k]);
      }
    }
    if Lawful(Ordering, plan) {
      forall j, k | j in plan && k in plan && j != k ensures Compatible(plan[j], plan[k]) {
        assert Agree(Ordering, plan[j], plan[k]);
      }
    }
  }

  lemma MoveKeepsLawful(rule: Rule, plan: Plan, t: Trigger)
    requires Lawful(rule, plan) && CanMove(rule, plan, t)
    ensures Lawful(rule, Move(plan, t))
  {
    MovableIffCompatible(rule, plan, t);
  }

  /** Soundness: from a lawful plan, every prefix of a safe order leaves a lawful plan. */
  lemma {:induction false} SafeKeepsLegal(rule: Rule, plan: Plan, order: seq<Trigger>)
    requires Lawful(rule, plan) && Safe(rule, plan, order)
    ensures forall n :: 0 <= n <= |order| ==> Lawful(rule, MoveAll(plan, order[..n]))
  {
    if order == [] {
    } else {
      var n := |order| - 1;
      SafeKeepsLegal(rule, plan, order[..n]);
      assert order[..n][..n] == order[..n];
      MoveKeepsLawful(rule, MoveAll(plan, order[..n]), order[n]);
      forall m | 0 <= m <= |order| ensures Lawful(rule, MoveAll(plan, order[..m])) {
        if m <= n { assert order[..n][..m] == order[..m]; } else { assert order[..m] == order; }
      }
    }
  }

  // ----- Completeness -----

  lemma SamePlanAtEnd(plan: Plan, order: seq<Trigger>, k: Key, t: Trigger)
    requires DistinctKeys(order) && t in order && t.key == k
    ensures k in MoveAll(plan, order) && MoveAll(plan, order)[k] == t.position
  {
    var i :| 0 <= i < |order| && order[i] == t;
    MoveAllAt(plan, order, k);
  }

  lemma PrefixSafe(rule: Rule, plan: Plan, order: seq<Trigger>, n: nat)
    requires Safe(rule, plan, order) && n < |order|
    ensures CanMove(rule, MoveAll(plan, order[..n]), order[n])
    decreases |order|
  {
    var m := |order| - 1;
    if n < m {
      PrefixSafe(rule, plan, order[..m], n);
      assert order[..m][..n] == order[..n];
    }
  }

  lemma ReordersMember(order: seq<Trigger>, ts: seq<Trigger>, t: Trigger)
    requires Reorders(order, ts)
    ensures t in order <==> t in ts
  {
    assert t in order <==> t in multiset(order);
    assert t in ts <==> t in multiset(ts);
  }

  lemma {:induction false} ReordersDistinct(order: seq<Trigger>, ts: seq<Trigger>)
    requires Reorders(order, ts) && DistinctKeys(ts)
    ensures DistinctKeys(order)
  {
    forall i, j | 0 <= i < j < |order| ensures order[i].key != order[j].key {
      ReordersMember(order, ts, order[i]);
      ReordersMember(order, ts, order[j]);
      if order[i].key == order[j].key {
        var a :| 0 <= a < |ts| && ts[a] == order[i];
        var b :| 0 <= b < |ts| && ts[b] == order[j];
        assert a == b;
        TwiceInMultiset(order, i, j);
        OnceInMultiset(ts, a);
        assert false;
      }
    }
  }

  lemma TwiceInMultiset(order: seq<Trigger>, i: nat, j: nat)
    requires i < j < |order| && order[i] == order[j]
    ensures multiset(order)[order[i]] >= 2
  {
    assert order == order[..j] + [order[j]] + order[j + 1..];
    assert order[i] in order[..j];
    assert order[i] in multiset(order[..j]);
  }

  lemma OnceInMultiset(ts: seq<Trigger>, a: nat)
    requires DistinctKeys(ts) && a < |ts|
    ensures multiset(ts)[ts[a]] == 1
  {
    assert ts == ts[..a] + [ts[a]] + ts[a + 1..];
    assert ts[a] !in ts[..a];
    assert ts[a] !in ts[a + 1..];
  }

  /** In a safe order the later of two triggers was checked against the earlier one's target. */
  lemma SafeTargetsAgree(rule: Rule, plan: Plan, order: seq<Trigger>, i: nat, j: nat)
    requires DistinctKeys(order) && Safe(rule, plan, order) && i < j < |order|
    ensures Agree(rule, order[j].position, order[i].position) && Agree(rule, order[i].position, order[j].position)
  {
    PrefixSafe(rule, plan, order, j);
    PrefixDistinct(order, j);
    assert order[..j][i] == order[i];
    SamePlanAtEnd(plan, order[..j], order[i].key, order[i]);
    MovableIffCompatible(rule, MoveAll(plan, order[..j]), order[j]);
  }

  lemma PrefixDistinct(order: seq<Trigger>, i: nat)
    requires DistinctKeys(order) && i <= |order|
    ensures DistinctKeys(order[..i])
  {
  }

  /** No trigger of `left` can be moved once those of `moved` have been. */
  predicate Stuck(rule: Rule, plan: Plan, moved: seq<Trigger>, left: seq<Trigger>) {
    forall t :: t in left ==> !CanMove(rule, MoveAll(plan, moved), t)
  }

  /**
   Blocking only ever comes from the old position of a trigger not yet moved,
   so a stuck plan has no safe order at all: the first stuck trigger of such an
   order would be movable.
   */
  lemma StuckMeansNoOrder(rule: Rule, plan: Plan, moved: seq<Trigger>, left: seq<Trigger>, order: seq<Trigger>)
    requires DistinctKeys(moved + left) && left != [] && Stuck(rule, plan, moved, left)
    requires Reorders(order, moved + left)
    ensures !Safe(rule, plan, order)
  {
    if Safe(rule, plan, order) {
      ReordersDistinct(order, moved + left);
      ReordersMember(order, moved + left, left[0]);
      var n := FirstIn(order, left);
      var t := order[n];
      PrefixSafe(rule, plan, order, n);
      forall k | k in MoveAll(plan, moved) && k != t.key
        ensures Agree(rule, t.position, MoveAll(plan, moved)[k])
      {
        Unblocked(rule, plan, moved, left, order, n, k);
      }
      MovableIffCompatible(rule, MoveAll(plan, moved), t);
      assert false;
    }
  }

  function FirstIn(order: seq<Trigger>, left: seq<Trigger>): (n: nat)
    requires exists t :: t in order && t in left
    ensures n < |order| && order[n] in left && forall i :: 0 <= i < n ==> order[i] !in left
  {
    if order[0] in left then 0 else 1 + FirstIn(order[1..], left)
  }

  lemma DistinctParts(moved: seq<Trigger>, left: seq<Trigger>)
    requires DistinctKeys(moved + left)
    ensures DistinctKeys(moved) && DistinctKeys(left)
    ensures forall i, j :: 0 <= i < |moved| && 0 <= j < |left| ==> moved[i].key != left[j].key
  {
    var all := moved + left;
    forall i, j | 0 <= i < j < |moved| ensures moved[i].key != moved[j].key {
      assert all[i] == moved[i] && all[j] == moved[j];
    }
    forall i, j | 0 <= i < j < |left| ensures left[i].key != left[j].key {
      assert all[|moved| + i] == left[i] && all[|moved| + j] == left[j];
    }
    forall i, j | 0 <= i < |moved| && 0 <= j < |left| ensures moved[i].key != left[j].key {
      assert all[i] == moved[i] && all[|moved| + j] == left[j];
    }
  }

  lemma Unblocked(rule: Rule, plan: Plan, moved: seq<Trigger>, left: seq<Trigger>, order: seq<Trigger>, n: nat, k: Key)
    requires DistinctKeys(moved + left) && Reorders(order, moved + left) && DistinctKeys(order)
    requires n < |order| && order[n] in left && forall i :: 0 <= i < n ==> order[i] !in left
    requires Safe(rule, plan, order) && CanMove(rule, MoveAll(plan, order[..n]), order[n])
    requires k in MoveAll(plan, moved) && k != order[n].key
    ensures Agree(rule, order[n].position, MoveAll(plan, moved)[k])
  {
    DistinctParts(moved, left);
    var t := order[n];
    MoveAllAt(plan, moved, k);
    if Moved(moved, k) {
      var i :| 0 <= i < |moved| && moved[i].key == k;
      assert (moved + left)[i] == moved[i];
      ReordersMember(order, moved + left, moved[i]);
      var j :| 0 <= j < |order| && order[j] == moved[i];
      if j < n { SafeTargetsAgree(rule, plan, order, j, n); } else { SafeTargetsAgree(rule, plan, order, n, j); }
    } else {
      forall i | 0 <= i < n ensures order[i].key != k {
        ReordersMember(order, moved + left, order[i]);
        assert order[i] in moved;
      }
      forall i, j | 0 <= i < j < n ensures order[..n][i].key != order[..n][j].key {
        assert order[i].key != order[j].key;
      }
      assert !Moved(order[..n], k);
      MoveAllAt(plan, order[..n], k);
      MovableIffCompatible(rule, MoveAll(plan, order[..n]), t);
    }
  }

  // ----- The planner as a function -----

  /** One pass: the triggers kept for the next pass, and the order extended by those moved. */
  function Pass(rule: Rule, remaining: seq<Trigger>, start: seq<Trigger>, current: Plan): (r: (seq<Trigger>, seq<Trigger>))
    ensures |r.0| <= |remaining|
  {
    if remaining == [] then ([], start)
    else
      var n := |remaining| - 1;
      var (kept, ordered) := Pass(rule, remaining[..n], start, current);
      if CanMove(rule, MoveAll(current, ordered), remaining[n]) then (kept, ordered + [remaining[n]])
      else (kept + [remaining[n]], ordered)
  }

  /** Passes until one moves nothing. */
  function Passes(rule: Rule, remaining: seq<Trigger>, ordered: seq<Trigger>, current: Plan): Result<seq<Trigger>, seq<Trigger>>
    decreases |remaining|
  {
    if remaining == [] then Ok(ordered)
    else
      var (kept, ordered') := Pass(rule, remaining, ordered, current);
      if |kept| < |remaining| then Passes(rule, kept, ordered', current) else Err(kept)
  }

  function Planned(rule: Rule, triggers: seq<Trigger>, current: Plan): Result<seq<Trigger>, seq<Trigger>> {
    Passes(rule, triggers, [], current)
  }

  /** Every trigger considered so far went to one list or the other. */
  ghost predicate Sorted(start: seq<Trigger>, considered: seq<Trigger>, ordered: seq<Trigger>, kept: seq<Trigger>) {
    multiset(ordered) + multiset(kept) == multiset(start) + multiset(considered)
  }

  lemma SortedNext(start: seq<Trigger>, considered: seq<Trigger>, ordered: seq<Trigger>, kept: seq<Trigger>, t: Trigger)
    requires Sorted(start, considered, ordered, kept)
    ensures Sorted(start, considered + [t], ordered + [t], kept) && Sorted(start, considered + [t], ordered, kept + [t])
  {
    var one := multiset{t};
    assert multiset(considered + [t]) == multiset(considered) + one;
    assert multiset(ordered + [t]) == multiset(ordered) + one;
    assert multiset(kept + [t]) == multiset(kept) + one;
    assert multiset(ordered) + one + multiset(kept) == multiset(ordered) + multiset(kept) + one;
    assert multiset(ordered) + (multiset(kept) + one) == multiset(ordered) + multiset(kept) + one;
    assert multiset(start) + (multiset(considered) + one) == multiset(start) + multiset(considered) + one;
  }

  lemma SafeNext(rule: Rule, current: Plan, ordered: seq<Trigger>, t: Trigger)
    requires Safe(rule, current, ordered) && CanMove(rule, MoveAll(current, ordered), t)
    ensures Safe(rule, current, ordered + [t]) && MoveAll(current, ordered + [t]) == Move(MoveAll(current, ordered), t)
  {
    assert (ordered + [t])[..|ordered|] == ordered;
  }

  ghost predicate PassOk(rule: Rule, remaining: seq<Trigger>, start: seq<Trigger>, current: Plan, kept: seq<Trigger>, ordered: seq<Trigger>) {
    && Sorted(start, remaining, ordered, kept)
    && Safe(rule, current, ordered)
    && (|kept| == |remaining| ==> ordered == start && Stuck(rule, current, start, kept))
  }

  lemma PassSnoc(rule: Rule, done: seq<Trigger>, t: Trigger, start: seq<Trigger>, plan: Plan)
    ensures var r := Pass(rule, done, start, plan);
            Pass(rule, done + [t], start, plan) == (if CanMove(rule, MoveAll(plan, r.1), t) then (r.0, r.1 + [t]) else (r.0 + [t], r.1))
  {
    assert (done + [t])[..|done|] == done;
  }

  ghost predicate PassSound(rule: Rule, remaining: seq<Trigger>, start: seq<Trigger>, current: Plan) {
    var (kept, ordered) := Pass(rule, remaining, start, current);
    PassOk(rule, remaining, start, current, kept, ordered)
  }

  lemma PassStaysSound(rule: Rule, done: seq<Trigger>, t: Trigger, start: seq<Trigger>, current: Plan)
    requires PassSound(rule, done, start, current)
    ensures PassSound(rule, done + [t], start, current)
  {
    var (kept, ordered) := Pass(rule, done, start, current);
    PassSnoc(rule, done, t, start, current);
    PassNext(rule, done, start, current, kept, ordered, t);
  }

  lemma {:induction false} PassKeeps(rule: Rule, remaining: seq<Trigger>, start: seq<Trigger>, current: Plan)
    requires Safe(rule, current, start)
    ensures PassSound(rule, remaining, start, current)
    decreases |remaining|
  {
    if remaining == [] {
      assert Pass(rule, remaining, start, current) == ([], start);
    } else {
      var n := |remaining| - 1;
      PassKeeps(rule, remaining[..n], start, current);
      PassStaysSound(rule, remaining[..n], remaining[n], start, current);
      assert remaining == remaining[..n] + [remaining[n]];
    }
  }

  lemma PassNext(rule: Rule, done: seq<Trigger>, start: seq<Trigger>, current: Plan, kept: seq<Trigger>, ordered: seq<Trigger>, t: Trigger)
    requires PassOk(rule, done, start, current, kept, ordered) && |kept| <= |done|
    ensures CanMove(rule, MoveAll(current, ordered), t) ==> PassOk(rule, done + [t], start, current, kept, ordered + [t])
    ensures !CanMove(rule, MoveAll(current, ordered), t) ==> PassOk(rule, done + [t], start, current, kept + [t], ordered)
  {
    SortedNext(start, done, ordered, kept, t);
    if CanMove(rule, MoveAll(current, ordered), t) { SafeNext(rule, current, ordered, t); }
  }

  lemma {:induction false} PassesKeep(rule: Rule, remaining: seq<Trigger>, ordered: seq<Trigger>, current: Plan)
    requires Safe(rule, current, ordered) && DistinctKeys(ordered + remaining)
    ensures Passes(rule, remaining, ordered, current).Ok? ==>
              Safe(rule, current, Passes(rule, remaining, ordered, current).value)
              && Reorders(Passes(rule, remaining, ordered, current).value, ordered + remaining)
    ensures Passes(rule, remaining, ordered, current).Err? ==>
              forall order :: Reorders(order, ordered + remaining) ==> !Safe(rule, current, order)
    decreases |remaining|
  {
    if remaining == [] {
      assert ordered + remaining == ordered;
    } else {
      PassKeeps(rule, remaining, ordered, current);
      var (kept, ordered') := Pass(rule, remaining, ordered, current);
      assert Reorders(ordered' + kept, ordered + remaining);
      ReordersDistinct(ordered' + kept, ordered + remaining);
      if |kept| < |remaining| {
        PassesKeep(rule, kept, ordered', current);
      } else {
        forall order | Reorders(order, ordered + remaining) ensures !Safe(rule, current, order) {
          StuckMeansNoOrder(rule, current, ordered, kept, order);
        }
      }
    }
  }

  /**
   Sound and complete, from whatever plan: the planner's order moves each
   trigger once, each movable when its turn comes, and it fails exactly when no
   order does.
   */
  lemma PlannedIffSomeSafeOrder(rule: Rule, triggers: seq<Trigger>, current: Plan)
    requires DistinctKeys(triggers)
    ensures Planned(rule, triggers, current).Ok? ==>
              Reorders(Planned(rule, triggers, current).value, triggers) && Safe(rule, current, Planned(rule, triggers, current).value)
    ensures Planned(rule, triggers, current).Ok? <==> exists order :: Reorders(order, triggers) && Safe(rule, current, order)
  {
    assert [] + triggers == triggers;
    PassesKeep(rule, triggers, [], current);
    if Planned(rule, triggers, current).Ok? {
      var order := Planned(rule, triggers, current).value;
      assert Reorders(order, triggers) && Safe(rule, current, order);
    }
  }

  // ----- The planner as it runs -----

  /** One pass: move every trigger that can be moved when its turn comes, keep the others for the next pass. */
  method OnePass(remaining: seq<Trigger>, start: seq<Trigger>, ghost current: Plan, plan: Plan)
    returns (stillRemaining: seq<Trigger>, ordered: seq<Trigger>, simulated: Plan)
    requires plan == MoveAll(current, start)
    ensures (stillRemaining, ordered) == Pass(Ordering, remaining, start, current) && simulated == MoveAll(current, ordered)
  {
    simulated, ordered, stillRemaining := plan, start, [];
    for i := 0 to |remaining|
      invariant (stillRemaining, ordered) == Pass(Ordering, remaining[..i], start, current)
      invariant simulated == MoveAll(current, ordered)
    {
      var t := remaining[i];
      assert remaining[..i + 1][..i] == remaining[..i];
      if Movable(simulated, t) {
        assert (ordered + [t])[..|ordered|] == ordered;
        simulated := Move(simulated, t);
        ordered := ordered + [t];
      } else {
        stillRemaining := stillRemaining + [t];
      }
    }
    assert remaining[..|remaining|] == remaining;
  }

  /** The planner terminates with the order, or with the triggers it could not place. */
  method PlanTriggerSync(triggers: seq<Trigger>, current: Plan) returns (r: Result<seq<Trigger>, seq<Trigger>>)
    ensures r == Planned(Ordering, triggers, current)
    ensures DistinctKeys(triggers) && r.Ok? ==> Reorders(r.value, triggers) && Safe(Ordering, current, r.value)
    ensures DistinctKeys(triggers) && r.Err? ==> forall order :: Reorders(order, triggers) ==> !Safe(Ordering, current, order)
  {
    var simulated := current;
    var ordered: seq<Trigger> := [];
    var remaining := triggers;
    var progressed := true;
    while remaining != [] && progressed
      invariant simulated == MoveAll(current, ordered)
      invariant progressed ==> Passes(Ordering, remaining, ordered, current) == Planned(Ordering, triggers, current)
      invariant !progressed ==> remaining != [] && Planned(Ordering, triggers, current) == Err(remaining)
      decreases |remaining| + if progressed then 1 else 0
    {
      var stillRemaining, ordered', simulated' := OnePass(remaining, ordered, current, simulated);
      progressed := |stillRemaining| < |remaining|;
      remaining, ordered, simulated := stillRemaining, ordered', simulated';
    }
    if DistinctKeys(triggers) { PlannedIffSomeSafeOrder(Ordering, triggers, current); }
    return if remaining != [] then Err(remaining) else Ok(ordered);
  }

  // ----- The rule the planner does not simulate -----

  /** At most one trigger is the main one. */
  predicate SingleMain(plan: Plan) {
    forall j, k :: j in plan && k in plan && plan[j].kind == Main && plan[k].kind == Main ==> j == k
  }

  /** Every write of the order is accepted. */
  predicate Writable(plan: Plan, order: seq<Trigger>) {
    Safe(OneMain, plan, order)
  }

  /** The trigger that was main is moved before the one that becomes main. */
  predicate HandsOver(plan: Plan, order: seq<Trigger>) {
    forall i, j :: 0 <= i < j < |order| && order[i].position.kind == Main ==>
      !(order[j].key in plan && plan[order[j].key].kind == Main)
  }

  lemma {:induction false} WritableFromAll(plan: Plan, order: seq<Trigger>)
    requires Safe(Ordering, plan, order)
    requires forall i :: 0 <= i < |order| ==> NoOtherMain(MoveAll(plan, order[..i]), order[i])
    ensures Writable(plan, order)
    decreases |order|
  {
    if order != [] {
      var n := |order| - 1;
      forall i | 0 <= i < n ensures NoOtherMain(MoveAll(plan, order[..n][..i]), order[..n][i]) {
        assert order[..n][..i] == order[..i];
      }
      WritableFromAll(plan, order[..n]);
    }
  }

  lemma NotYetMoved(order: seq<Trigger>, i: nat, j: nat)
    requires DistinctKeys(order) && i <= j < |order|
    ensures !Moved(order[..i], order[j].key)
  {
    forall k | 0 <= k < i ensures order[..i][k].key != order[j].key {
      assert order[k].key != order[j].key;
    }
  }

  /** The main trigger met when `order[i]` is written is an old one, still to be moved. */
  lemma OtherMainIsLater(plan: Plan, order: seq<Trigger>, i: nat, k: Key)
    requires DistinctKeys(order) && SingleMain(MoveAll(plan, order)) && i < |order| && order[i].position.kind == Main
    requires k in MoveAll(plan, order[..i]) && k != order[i].key && MoveAll(plan, order[..i])[k].kind == Main
    ensures exists j :: i < j < |order| && order[j].key == k && k in plan && plan[k].kind == Main
  {
    PrefixDistinct(order, i);
    MoveAllAt(plan, order[..i], k);
    MoveAllAt(plan, order, k);
    SamePlanAtEnd(plan, order, order[i].key, order[i]);
    assert !Moved(order[..i], k);
    assert Moved(order, k);
  }

  /**
   The planner checks sequences and the selective-before-main rule, not that a
   round has at most one main trigger. Its order is writable exactly when the
   outgoing main trigger gives way first.
   */
  lemma WritableIffHandsOver(plan: Plan, order: seq<Trigger>)
    requires DistinctKeys(order) && Safe(Ordering, plan, order) && SingleMain(MoveAll(plan, order))
    ensures Writable(plan, order) <==> HandsOver(plan, order)
  {
    if Writable(plan, order) {
      forall i, j | 0 <= i < j < |order| && order[i].position.kind == Main
        ensures !(order[j].key in plan && plan[order[j].key].kind == Main)
      {
        PrefixSafe(OneMain, plan, order, i);
        NotYetMoved(order, i, j);
        PrefixDistinct(order, i);
        MoveAllAt(plan, order[..i], order[j].key);
      }
    }
    if HandsOver(plan, order) {
      forall i | 0 <= i < |order| ensures NoOtherMain(MoveAll(plan, order[..i]), order[i]) {
        if k :| k in MoveAll(plan, order[..i]) && k != order[i].key
                && MoveAll(plan, order[..i])[k].kind == Main && order[i].position.kind == Main {
          OtherMainIsLater(plan, order, i, k);
          assert false;
        }
      }
      WritableFromAll(plan, order);
    }
  }

  /**
   Handing over is automatic unless the main key changes to another key while
   the old main trigger stays in the plan.
   */
  lemma HandsOverUnlessMainChanges(plan: Plan, order: seq<Trigger>)
    requires DistinctKeys(order) && SingleMain(plan) && SingleMain(MoveAll(plan, order))
    requires forall t, u :: t in order && u in order && t.position.kind == Main && u.key in plan && plan[u.key].kind == Main ==>
               t.key == u.key
    ensures HandsOver(plan, order)
  {
  }

  /**
   When an order exists at all that the writer accepts: exactly when the same
   greedy passes, testing the main rule as well, place every trigger.
   */
  lemma WritableOrderExistsIff(triggers: seq<Trigger>, current: Plan)
    requires DistinctKeys(triggers)
    ensures (exists order :: Reorders(order, triggers) && Writable(current, order)) <==> Planned(OneMain, triggers, current).Ok?
    ensures Planned(OneMain, triggers, current).Ok? ==> Planned(Ordering, triggers, current).Ok?
  {
    PlannedIffSomeSafeOrder(OneMain, triggers, current);
    PlannedIffSomeSafeOrder(Ordering, triggers, current);
    if Planned(OneMain, triggers, current).Ok? {
      var order := Planned(OneMain, triggers, current).value;
      assert Writable(current, order);
      WritableIsSafe(current, order);
    } else {
      forall order | Reorders(order, triggers) ensures !Writable(current, order) {
        assert !Safe(OneMain, current, order);
      }
    }
  }

  lemma {:induction false} WritableIsSafe(plan: Plan, order: seq<Trigger>)
    requires Writable(plan, order)
    ensures Safe(Ordering, plan, order)
    decreases |order|
  {
    if order != [] { WritableIsSafe(plan, order[..|order| - 1]); }
  }
}
