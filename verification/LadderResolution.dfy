/** The resolved order of a real ladder: a total order of the entries that no identifier order can influence. */
module LadderResolution {
  import opened Options
  import opened Ordering
  import opened LadderFold
  import opened LadderRanking
  import opened LadderTheorems
  import opened LadderRulings
  import opened LadderFreshness
  import opened LadderOrder

  function FactsOf(entries: seq<Id>, matches: seq<Match>, scale: Scale): Facts {
    Facts(Members(entries), (e: Id) => Standing(matches, scale, e))
  }

  lemma LadderShows(entries: seq<Id>, results: seq<Match>, through: int, scale: Scale, before: (Id, Id) -> bool)
    requires TotalOrder(before) && Ladder(entries, results, through, scale, before).Some?
    ensures Shows(Ladder(entries, results, through, scale, before).value, FactsOf(entries, Selected(results, through), scale))
  {
    var ladder := Ladder(entries, results, through, scale, before).value;
    var rows := ladder.rows;
    var matches := Selected(results, through);
    var facts := FactsOf(entries, matches, scale);
    RowsCover(entries, results, through, scale, before);
    forall i | 0 <= i < |rows|
      ensures facts.standing(rows[i].id) == rows[i].Standing()
      ensures Members(rows[i].group) == facts.Level(rows[i].id)
      ensures rows[i].tied <==> exists x :: x in facts.Level(rows[i].id) && x != rows[i].id
    {
      RowMeaning(entries, results, through, scale, before, i);
      RowShows(entries, matches, scale, rows[i]);
    }
    forall i, j | 0 <= i < |rows| && 0 <= j < |rows| && facts.standing(rows[i].id) == facts.standing(rows[j].id)
      ensures rows[i].group == rows[j].group
    {
      var values := Ranked(matches, entries, scale, before);
      assert rows[i].group == GroupOf(values, rows[i].Standing()) && rows[j].group == GroupOf(values, rows[j].Standing());
    }
  }

  lemma RowShows(entries: seq<Id>, matches: seq<Match>, scale: Scale, row: Row)
    requires RowMeans(entries, matches, scale, row)
    ensures var facts := FactsOf(entries, matches, scale);
            && facts.standing(row.id) == row.Standing()
            && Members(row.group) == facts.Level(row.id)
            && (row.tied <==> exists x :: x in facts.Level(row.id) && x != row.id)
  {
    var facts := FactsOf(entries, matches, scale);
    forall x ensures x in Members(row.group) <==> x in facts.Level(row.id) {
      assert x in row.group <==> x in entries && Standing(matches, scale, x) == row.Standing();
    }
    if row.tied {
      var x :| x in entries && x != row.id && Standing(matches, scale, x) == row.Standing();
      assert x in facts.Level(row.id);
    }
  }

  lemma ResolvedBeforeIsOneWay(rulings: seq<Ruling>, scope: Scope, facts: Facts, a: Id, b: Id)
    requires ResolvedBefore(rulings, scope, facts, a, b)
    ensures !ResolvedBefore(rulings, scope, facts, b, a)
  {
    BetterIsWeak(facts.standing(a), facts.standing(b), facts.standing(a));
    BetterIsWeak(facts.standing(a), facts.standing(a), facts.standing(a));
  }

  /** There is only one resolved order of the same entries, standings and rulings. */
  lemma OneResolvedOrder(rulings: seq<Ruling>, scope: Scope, facts: Facts, x: seq<Id>, y: seq<Id>)
    requires InResolvedOrder(rulings, scope, facts, x) && InResolvedOrder(rulings, scope, facts, y)
    requires forall e :: e in x <==> e in y
    ensures x == y
  {
    var less := ResolvedOrder(rulings, scope, facts);
    InOrderFacts(rulings, scope, facts, x);
    InOrderFacts(rulings, scope, facts, y);
    forall e ensures multiset(x)[e] == multiset(y)[e] {
      DistinctCounts(x, e);
      DistinctCounts(y, e);
    }
    AscendingIsUnique(less, x, y);
  }

  lemma InOrderFacts(rulings: seq<Ruling>, scope: Scope, facts: Facts, order: seq<Id>)
    requires InResolvedOrder(rulings, scope, facts, order)
    ensures Distinct(order)
    ensures Ascending(ResolvedOrder(rulings, scope, facts), order)
    ensures Separates(ResolvedOrder(rulings, scope, facts), order)
  {
    var less := ResolvedOrder(rulings, scope, facts);
    forall i, j | 0 <= i < j < |order| ensures order[i] != order[j] && !less(order[j], order[i]) {
      ResolvedBeforeIsOneWay(rulings, scope, facts, order[i], order[j]);
    }
    forall x, y | x in order && y in order && x != y ensures less(x, y) || less(y, x) {
      var i :| 0 <= i < |order| && order[i] == x;
      var j :| 0 <= j < |order| && order[j] == y;
      if i < j { assert less(order[i], order[j]); } else { assert less(order[j], order[i]); }
    }
  }

  // ----- When there is an order -----

  predicate Unresolved(rulings: seq<Ruling>, scope: Scope, ladder: Snapshot, i: nat)
    requires i < |ladder.rows|
  {
    ladder.rows[i].tied && Resolve(rulings, scope, ladder, Members(ladder.rows[i].group)).None?
  }

  /** The order exists exactly when every tie has a fresh active ruling; otherwise the first row still unresolved is reported. */
  lemma {:induction false} BlockedIff(rulings: seq<Ruling>, scope: Scope, ladder: Snapshot, n: nat)
    requires n <= |ladder.rows|
    ensures FullOrder(rulings, scope, ladder, n).Ok? <==> forall i :: 0 <= i < n ==> !Unresolved(rulings, scope, ladder, i)
    ensures FullOrder(rulings, scope, ladder, n).Err? ==>
      exists i :: 0 <= i < n && Unresolved(rulings, scope, ladder, i) && FullOrder(rulings, scope, ladder, n).error == ladder.rows[i].group
                  && forall j :: 0 <= j < i ==> !Unresolved(rulings, scope, ladder, j)
  {
    if n > 0 {
      BlockedIff(rulings, scope, ladder, n - 1);
      var k := n - 1;
      if FullOrder(rulings, scope, ladder, k).Ok? && Unresolved(rulings, scope, ladder, k) {
        forall j | 0 <= j < k && ladder.rows[j].tied ensures ladder.rows[j].group != ladder.rows[k].group {
          assert !Unresolved(rulings, scope, ladder, j);
        }
      }
    }
  }

  // ----- Identifiers -----

  /** A level that blocks one snapshot of the facts blocks any other. */
  lemma UnresolvedElsewhere(rulings: seq<Ruling>, scope: Scope, a: Snapshot, b: Snapshot, facts: Facts, i: nat) returns (j: nat)
    requires Shows(a, facts) && Shows(b, facts) && a.references == b.references
    requires i < |a.rows| && Unresolved(rulings, scope, a, i)
    ensures j < |b.rows| && Unresolved(rulings, scope, b, j) && b.rows[j].id == a.rows[i].id
  {
    LevelMember(a, facts, i);
    j :| 0 <= j < |b.rows| && b.rows[j].id == a.rows[i].id;
    assert Members(a.rows[i].group) == Members(b.rows[j].group);
    assert a.rows[i].tied == b.rows[j].tied;
  }

  /** The first level that blocks one snapshot is no better than the first that blocks the other. */
  lemma FirstBlockedNotBetter(rulings: seq<Ruling>, scope: Scope, a: Snapshot, b: Snapshot, facts: Facts, i: nat, j: nat)
    requires Shows(a, facts) && Shows(b, facts) && a.references == b.references
    requires i < |a.rows| && Unresolved(rulings, scope, a, i)
    requires j < |b.rows| && forall k :: 0 <= k < j ==> !Unresolved(rulings, scope, b, k)
    ensures !Better(facts.standing(a.rows[i].id), facts.standing(b.rows[j].id))
  {
    var k := UnresolvedElsewhere(rulings, scope, a, b, facts, i);
    LaterNotBetter(b, facts, j, k);
  }

  lemma LaterNotBetter(ladder: Snapshot, facts: Facts, i: nat, k: nat)
    requires Shows(ladder, facts) && i <= k < |ladder.rows|
    ensures !Better(facts.standing(ladder.rows[k].id), facts.standing(ladder.rows[i].id))
  {
    BetterIsWeak(facts.standing(ladder.rows[k].id), facts.standing(ladder.rows[i].id), facts.standing(ladder.rows[i].id));
  }

  /** Two snapshots of the same facts resolve alike: both in full, or both stopped by the same group. */
  lemma SameBlocker(rulings: seq<Ruling>, scope: Scope, a: Snapshot, b: Snapshot, facts: Facts)
    requires Shows(a, facts) && Shows(b, facts) && a.references == b.references
    ensures var x, y := FullOrder(rulings, scope, a, |a.rows|), FullOrder(rulings, scope, b, |b.rows|);
            (x.Ok? <==> y.Ok?) && (x.Err? ==> Members(x.error) == Members(y.error))
  {
    BlockedIff(rulings, scope, a, |a.rows|);
    BlockedIff(rulings, scope, b, |b.rows|);
    if i :| 0 <= i < |a.rows| && Unresolved(rulings, scope, a, i) {
      var _ := UnresolvedElsewhere(rulings, scope, a, b, facts, i);
      SameFirst(rulings, scope, a, b, facts);
    } else if j :| 0 <= j < |b.rows| && Unresolved(rulings, scope, b, j) {
      var _ := UnresolvedElsewhere(rulings, scope, b, a, facts, j);
    }
  }

  lemma SameFirst(rulings: seq<Ruling>, scope: Scope, a: Snapshot, b: Snapshot, facts: Facts)
    requires Shows(a, facts) && Shows(b, facts) && a.references == b.references
    requires FullOrder(rulings, scope, a, |a.rows|).Err? && FullOrder(rulings, scope, b, |b.rows|).Err?
    ensures Members(FullOrder(rulings, scope, a, |a.rows|).error) == Members(FullOrder(rulings, scope, b, |b.rows|).error)
  {
    var i := FirstUnresolved(rulings, scope, a);
    var j := FirstUnresolved(rulings, scope, b);
    FirstBlockedNotBetter(rulings, scope, a, b, facts, i, j);
    FirstBlockedNotBetter(rulings, scope, b, a, facts, j, i);
    BetterIsWeak(facts.standing(a.rows[i].id), facts.standing(b.rows[j].id), facts.standing(a.rows[i].id));
    assert facts.Level(a.rows[i].id) == facts.Level(b.rows[j].id);
  }

  lemma FirstUnresolved(rulings: seq<Ruling>, scope: Scope, ladder: Snapshot) returns (i: nat)
    requires FullOrder(rulings, scope, ladder, |ladder.rows|).Err?
    ensures i < |ladder.rows| && Unresolved(rulings, scope, ladder, i)
    ensures FullOrder(rulings, scope, ladder, |ladder.rows|).error == ladder.rows[i].group
    ensures forall k :: 0 <= k < i ==> !Unresolved(rulings, scope, ladder, k)
  {
    BlockedIff(rulings, scope, ladder, |ladder.rows|);
    i :| 0 <= i < |ladder.rows| && Unresolved(rulings, scope, ladder, i)
         && FullOrder(rulings, scope, ladder, |ladder.rows|).error == ladder.rows[i].group
         && forall k :: 0 <= k < i ==> !Unresolved(rulings, scope, ladder, k);
  }

  /**
   No serialisation of identifiers matters: whichever is used, there is a
   ladder, it resolves or is blocked alike, and then gives the same order or
   names the same group.
   */
  lemma ResolvedOrderIgnoresIdentifiers(rulings: seq<Ruling>, scope: Scope, entries: seq<Id>, results: seq<Match>, through: int, scale: Scale,
                                        before: (Id, Id) -> bool, other: (Id, Id) -> bool)
    requires TotalOrder(before) && TotalOrder(other) && OrdersGroups(rulings)
    requires Ladder(entries, results, through, scale, before).Some?
    ensures Ladder(entries, results, through, scale, other).Some?
    ensures var a, b := Ladder(entries, results, through, scale, before).value, Ladder(entries, results, through, scale, other).value;
            var x, y := FullOrder(rulings, scope, a, |a.rows|), FullOrder(rulings, scope, b, |b.rows|);
            && (x.Ok? <==> y.Ok?)
            && (x.Ok? ==> x.value.order == y.value.order)
            && (x.Err? ==> Members(x.error) == Members(y.error))
  {
    var facts := FactsOf(entries, Selected(results, through), scale);
    LadderShows(entries, results, through, scale, before);
    LadderShows(entries, results, through, scale, other);
    var a, b := Ladder(entries, results, through, scale, before).value, Ladder(entries, results, through, scale, other).value;
    SameBlocker(rulings, scope, a, b, facts);
    if FullOrder(rulings, scope, a, |a.rows|).Ok? { SameOrder(rulings, scope, a, b, facts); }
  }

  lemma SameOrder(rulings: seq<Ruling>, scope: Scope, a: Snapshot, b: Snapshot, facts: Facts)
    requires Shows(a, facts) && Shows(b, facts) && OrdersGroups(rulings)
    requires FullOrder(rulings, scope, a, |a.rows|).Ok? && FullOrder(rulings, scope, b, |b.rows|).Ok?
    ensures FullOrder(rulings, scope, a, |a.rows|).value.order == FullOrder(rulings, scope, b, |b.rows|).value.order
  {
    FullOrderIs(rulings, scope, a, facts);
    FullOrderIs(rulings, scope, b, facts);
    OneResolvedOrder(rulings, scope, facts, FullOrder(rulings, scope, a, |a.rows|).value.order,
                     FullOrder(rulings, scope, b, |b.rows|).value.order);
  }

  /** The rulings reported as used are active, fresh, and cover every tie. */
  lemma {:induction false} UsedRulings(rulings: seq<Ruling>, scope: Scope, ladder: Snapshot, n: nat)
    requires n <= |ladder.rows| && FullOrder(rulings, scope, ladder, n).Ok?
    ensures var used := FullOrder(rulings, scope, ladder, n).value.used;
            && (forall k :: k in used ==> k < |rulings| && rulings[k].active && rulings[k].scope == scope && IsFresh(rulings[k], ladder))
            && (forall i :: 0 <= i < n && ladder.rows[i].tied ==>
                  exists k :: k in used && k < |rulings| && rulings[k].group == Members(ladder.rows[i].group))
  {
    if n > 0 {
      UsedRulings(rulings, scope, ladder, n - 1);
      UsedHere(rulings, scope, ladder, n - 1);
    }
  }

  lemma UsedHere(rulings: seq<Ruling>, scope: Scope, ladder: Snapshot, i: nat)
    requires i < |ladder.rows| && Piece(rulings, scope, ladder, i).Ok?
    ensures var used := Piece(rulings, scope, ladder, i).value.used;
            && (forall k :: k in used ==> k < |rulings| && rulings[k].active && rulings[k].scope == scope && IsFresh(rulings[k], ladder))
            && (ladder.rows[i].tied && !Handled(ladder.rows, i) ==>
                  exists k :: k in used && k < |rulings| && rulings[k].group == Members(ladder.rows[i].group))
  {
    var row := ladder.rows[i];
    if row.tied && !Handled(ladder.rows, i) {
      var k := Resolve(rulings, scope, ladder, Members(row.group)).value;
      assert k in Piece(rulings, scope, ladder, i).value.used;
    }
  }

  // ----- In every reachable state -----

  lemma RulingsOrderGroups(s: State, scale: Scale, before: (Id, Id) -> bool)
    requires Inv(s, scale, before)
    ensures OrdersGroups(s.rulings)
  {
    forall i | 0 <= i < |s.rulings| ensures Distinct(s.rulings[i].decided) && Members(s.rulings[i].decided) == s.rulings[i].group {
      assert Witnessed(s.rulings[i], s.leagues, scale, before);
    }
  }

  /** Whenever a ladder resolves, its order is a permutation of the entries: better standings first,
      and inside each tie exactly the order of a ruling made on this very ladder. */
  lemma ReachableOrder(s: State, scope: Scope, scale: Scale, before: (Id, Id) -> bool)
    requires TotalOrder(before) && Inv(s, scale, before) && scope.competition in s.leagues
    requires LadderOf(s.leagues[scope.competition], scope.through, scale, before).Some?
    requires var l := LadderOf(s.leagues[scope.competition], scope.through, scale, before).value; FullOrder(s.rulings, scope, l, |l.rows|).Ok?
    ensures var league := s.leagues[scope.competition];
            var l := LadderOf(league, scope.through, scale, before).value;
            var order := FullOrder(s.rulings, scope, l, |l.rows|).value.order;
            var facts := FactsOf(league.entries, Selected(Inputs(league.world, |league.world.fixtures|), scope.through), scale);
            && Distinct(order) && Members(order) == Members(league.entries)
            && InResolvedOrder(s.rulings, scope, facts, order)
  {
    var league := s.leagues[scope.competition];
    var inputs := Inputs(league.world, |league.world.fixtures|);
    var l := LadderOf(league, scope.through, scale, before).value;
    var facts := FactsOf(league.entries, Selected(inputs, scope.through), scale);
    RulingsOrderGroups(s, scale, before);
    assert l == Ladder(league.entries, inputs, scope.through, scale, before).value;
    LadderShows(league.entries, inputs, scope.through, scale, before);
    OrderOfFacts(s.rulings, scope, l, facts);
  }

  lemma OrderOfFacts(rulings: seq<Ruling>, scope: Scope, ladder: Snapshot, facts: Facts)
    requires Shows(ladder, facts) && OrdersGroups(rulings) && FullOrder(rulings, scope, ladder, |ladder.rows|).Ok?
    ensures var order := FullOrder(rulings, scope, ladder, |ladder.rows|).value.order;
            Distinct(order) && Members(order) == facts.entries && InResolvedOrder(rulings, scope, facts, order)
  {
    FullOrderIs(rulings, scope, ladder, facts);
    var order := FullOrder(rulings, scope, ladder, |ladder.rows|).value.order;
    forall e ensures e in Members(order) <==> e in facts.entries {
      assert e in Members(order) <==> e in order;
    }
  }
}
