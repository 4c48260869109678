/** The snake order: arithmetic of the allocations and the loop that yields them. */
module DraftSnake {
  import opened Options
  import opened DraftLedger

  /** Overall numbers run 1, 2, 3, ... down the whole draft. */
  lemma {:induction false} SnakeNumbers(entries: seq<Entry>, target: nat)
    ensures forall k :: 0 <= k < |Snake(entries, target)| ==> Snake(entries, target)[k].overall == k + 1
  {
    if target > 0 {
      SnakeNumbers(entries, target - 1);
      var before := |Snake(entries, target - 1)|;
      assert before == (target - 1) * |entries|;
    }
  }

  /** The pick at (round, position) is number (round - 1) * n + position: a bijection onto 1..n*T. */
  lemma {:induction false} SnakePlaces(entries: seq<Entry>, target: nat, round: nat, position: nat)
    requires 1 <= round <= target && 1 <= position <= |entries|
    ensures 1 <= AllocationAt(entries, round, position).overall <= |Snake(entries, target)|
    ensures Snake(entries, target)[AllocationAt(entries, round, position).overall - 1] == AllocationAt(entries, round, position)
  {
    if round < target {
      SnakePlaces(entries, target - 1, round, position);
    } else {
      assert |Snake(entries, target - 1)| == (target - 1) * |entries|;
    }
  }

  /** ... and every number comes from exactly one round and position. */
  lemma {:induction false} SnakeCovers(entries: seq<Entry>, target: nat, k: nat)
    requires k < |Snake(entries, target)|
    ensures var a := Snake(entries, target)[k];
            1 <= a.round <= target && 1 <= a.position <= |entries| && a == AllocationAt(entries, a.round, a.position)
  {
    if target > 0 && k < |Snake(entries, target - 1)| { SnakeCovers(entries, target - 1, k); }
  }

  // ----- Shares -----

  function Share(allocations: seq<Allocation>, e: Entry): nat {
    if allocations == [] then 0
    else Share(allocations[..|allocations| - 1], e) + if allocations[|allocations| - 1].entry == e then 1 else 0
  }

  /** The sum of the overall numbers an entry picks at. */
  function NumberSum(allocations: seq<Allocation>, e: Entry): nat {
    if allocations == [] then 0
    else NumberSum(allocations[..|allocations| - 1], e)
         + if allocations[|allocations| - 1].entry == e then allocations[|allocations| - 1].overall else 0
  }

  lemma {:induction false} SharesAdd(a: seq<Allocation>, b: seq<Allocation>, e: Entry)
    ensures Share(a + b, e) == Share(a, e) + Share(b, e)
    ensures NumberSum(a + b, e) == NumberSum(a, e) + NumberSum(b, e)
  {
    if b == [] {
      assert a + b == a;
    } else {
      var n := |b| - 1;
      assert (a + b)[..|a + b| - 1] == a + b[..n];
      SharesAdd(a, b[..n], e);
    }
  }

  lemma {:induction false} NoShare(a: seq<Allocation>, e: Entry)
    requires forall i :: 0 <= i < |a| ==> a[i].entry != e
    ensures Share(a, e) == 0 && NumberSum(a, e) == 0
  {
    if a != [] { NoShare(a[..|a| - 1], e); }
  }

  lemma {:induction false} OneShare(a: seq<Allocation>, e: Entry, i: nat)
    requires i < |a| && a[i].entry == e && forall j :: 0 <= j < |a| && j != i ==> a[j].entry != e
    ensures Share(a, e) == 1 && NumberSum(a, e) == a[i].overall
  {
    var n := |a| - 1;
    if i == n { NoShare(a[..n], e); } else { OneShare(a[..n], e, i); }
  }

  /** Where the entry of order position x picks in a round. */
  function NumberIn(n: nat, x: nat, round: nat): nat
    requires x < n && round >= 1
  {
    (round - 1) * n + if round % 2 == 1 then x + 1 else n - x
  }

  lemma RoundShare(entries: seq<Entry>, round: nat, x: nat)
    requires Distinct(entries) && x < |entries| && round >= 1
    ensures Share(SnakeRound(entries, round), entries[x]) == 1
    ensures NumberSum(SnakeRound(entries, round), entries[x]) == NumberIn(|entries|, x, round)
  {
    var i := if round % 2 == 1 then x else |entries| - 1 - x;
    forall j | 0 <= j < |entries| && j != i ensures SnakeRound(entries, round)[j].entry != entries[x] {
      var y := if round % 2 == 1 then j else |entries| - 1 - j;
      assert SnakeRound(entries, round)[j].entry == entries[y] && y != x;
    }
    OneShare(SnakeRound(entries, round), entries[x], i);
  }

  function Total(n: nat, x: nat, target: nat): nat
    requires x < n
  {
    if target == 0 then 0 else Total(n, x, target - 1) + NumberIn(n, x, target)
  }

  /** Every entry gets exactly `target` picks, at the numbers the snake gives its order position. */
  lemma {:induction false} SnakeShares(entries: seq<Entry>, target: nat, x: nat)
    requires Distinct(entries) && x < |entries|
    ensures Share(Snake(entries, target), entries[x]) == target
    ensures NumberSum(Snake(entries, target), entries[x]) == Total(|entries|, x, target)
  {
    if target > 0 {
      SnakeShares(entries, target - 1, x);
      OneMoreRound(entries, target, x);
    }
  }

  lemma OneMoreRound(entries: seq<Entry>, target: nat, x: nat)
    requires Distinct(entries) && x < |entries| && target >= 1
    ensures Share(Snake(entries, target), entries[x]) == Share(Snake(entries, target - 1), entries[x]) + 1
    ensures NumberSum(Snake(entries, target), entries[x])
         == NumberSum(Snake(entries, target - 1), entries[x]) + NumberIn(|entries|, x, target)
  {
    RoundShare(entries, target, x);
    SharesAdd(Snake(entries, target - 1), SnakeRound(entries, target), entries[x]);
  }

  /** An odd round and the even one after it give every position the same two numbers in total. */
  lemma {:induction false} TotalsDiffer(n: nat, x: nat, y: nat, target: nat)
    requires x < n && y < n
    ensures Total(n, x, target) - Total(n, y, target) == if target % 2 == 0 then 0 else x - y
  {
    if target > 0 { TotalsDiffer(n, x, y, target - 1); }
  }

  /** Fairness: over an even number of rounds all entries' numbers sum alike; over an odd one they differ by at most n - 1. */
  lemma SnakeIsFair(entries: seq<Entry>, target: nat, x: nat, y: nat)
    requires Distinct(entries) && x < |entries| && y < |entries|
    ensures var sx, sy := NumberSum(Snake(entries, target), entries[x]), NumberSum(Snake(entries, target), entries[y]);
            if target % 2 == 0 then sx == sy else -(|entries| - 1) <= sx - sy <= |entries| - 1
  {
    SnakeShares(entries, target, x);
    SnakeShares(entries, target, y);
    TotalsDiffer(|entries|, x, y, target);
  }

  // ----- The loop -----

  lemma NextStart(round: nat, n: nat)
    requires round >= 1
    ensures (round - 1) * n + n == round * n
  {
  }

  /** Nested loops over rounds and positions with one running counter. */
  method SnakeAllocations(entries: seq<Entry>, target: int) returns (r: Result<seq<Allocation>, Refusal>)
    ensures r.Ok? <==> entries != [] && target > 0 && Distinct(entries)
    ensures r.Ok? ==> r.value == Snake(entries, target)
  {
    if entries == [] || target <= 0 || !Distinct(entries) { return Err(BadOrder); }
    var allocations: seq<Allocation> := [];
    var overall := 0;
    for round := 1 to target + 1
      invariant allocations == Snake(entries, round - 1) && overall == (round - 1) * |entries|
    {
      var allocation := if round % 2 == 1 then entries else Reversed(entries);
      ghost var before := (round - 1) * |entries|;
      for position := 1 to |entries| + 1
        invariant allocations == Snake(entries, round - 1) + SnakeRound(entries, round)[..position - 1]
        invariant overall == before + position - 1
      {
        overall := overall + 1;
        var next := Allocation(overall, round, position, allocation[position - 1]);
        assert next == SnakeRound(entries, round)[position - 1];
        assert SnakeRound(entries, round)[..position] == SnakeRound(entries, round)[..position - 1] + [next];
        allocations := allocations + [next];
      }
      NextStart(round, |entries|);
      assert SnakeRound(entries, round)[..|entries|] == SnakeRound(entries, round);
    }
    return Ok(allocations);
  }

  function Reversed(entries: seq<Entry>): (r: seq<Entry>)
    ensures |r| == |entries| && forall i :: 0 <= i < |r| ==> r[i] == entries[|entries| - 1 - i]
  {
    seq(|entries|, i requires 0 <= i < |entries| => entries[|entries| - 1 - i])
  }
}
