/** The ladder snapshot: three sporting criteria, shared ranks, tie groups and result references. */
module LadderRanking {
  import opened Options
  import opened Ordering
  import opened LadderFold

  // ----- The three criteria -----

  datatype Key = Key(points: int, percentage: real, pf: real)

  predicate Better(a: Key, b: Key) {
    || a.points > b.points
    || (a.points == b.points && a.percentage > b.percentage)
    || (a.points == b.points && a.percentage == b.percentage && a.pf > b.pf)
  }

  datatype Value = Value(id: Id, stats: Stats, percentage: real)

  function KeyOf(v: Value): Key {
    Key(v.stats.points, v.percentage, v.stats.pf)
  }

  /** The decimal quotient, whatever its rounding. */
  type Scale = (real, real, real) -> real

  function Ratio(numerator: real, denominator: real, multiplier: real, scale: Scale): real {
    if denominator == 0.0 then 0.0 else scale(numerator, denominator, multiplier)
  }

  function ValueOf(matches: seq<Match>, scale: Scale, e: Id): Value {
    var line := Line(matches, e);
    Value(e, line, Ratio(line.pf, line.pa, 100.0, scale))
  }

  function Values(matches: seq<Match>, scale: Scale, entries: seq<Id>): (r: seq<Value>)
    ensures |r| == |entries| && forall i :: 0 <= i < |r| ==> r[i] == ValueOf(matches, scale, entries[i])
  {
    if entries == [] then []
    else Values(matches, scale, entries[..|entries| - 1]) + [ValueOf(matches, scale, entries[|entries| - 1])]
  }

  ghost predicate TotalOrder(before: (Id, Id) -> bool) {
    && (forall a :: !before(a, a))
    && (forall a, b :: a != b ==> before(a, b) || before(b, a))
    && (forall a, b, c :: before(a, b) && before(b, c) ==> before(a, c))
  }

  /** Identifiers break a sporting tie for serialisation only. */
  predicate ValueBefore(before: (Id, Id) -> bool, a: Value, b: Value) {
    Better(KeyOf(a), KeyOf(b)) || (KeyOf(a) == KeyOf(b) && before(a.id, b.id))
  }

  function ValueOrder(before: (Id, Id) -> bool): (Value, Value) -> bool {
    (a: Value, b: Value) => ValueBefore(before, a, b)
  }

  // ----- The results counted -----

  function Through(results: seq<Match>, through: int): seq<Match> {
    if results == [] then []
    else
      var n := |results| - 1;
      Through(results[..n], through) + (if results[n].round <= through then [results[n]] else [])
  }

  predicate MatchBefore(a: Match, b: Match) {
    || a.round < b.round
    || (a.round == b.round && a.matchup < b.matchup)
    || (a.round == b.round && a.matchup == b.matchup && a.version < b.version)
  }

  function MatchOrder(): (Match, Match) -> bool {
    (a: Match, b: Match) => MatchBefore(a, b)
  }

  function Selected(results: seq<Match>, through: int): seq<Match> {
    Sorted(MatchOrder(), Through(results, through))
  }

  datatype Reference = Reference(matchup: nat, version: nat)

  function References(matches: seq<Match>): (r: seq<Reference>)
    ensures |r| == |matches| && forall i :: 0 <= i < |r| ==> r[i] == Reference(matches[i].matchup, matches[i].version)
  {
    if matches == [] then []
    else
      var n := |matches| - 1;
      References(matches[..n]) + [Reference(matches[n].matchup, matches[n].version)]
  }

  predicate Known(matches: seq<Match>, entries: seq<Id>) {
    forall i :: 0 <= i < |matches| ==> matches[i].home in entries && matches[i].away in entries
  }

  // ----- The snapshot -----

  datatype Row = Row(id: Id, stats: Stats, perGame: real, percentage: real, rank: nat, tied: bool, group: seq<Id>)
  {
    function Standing(): Key { Key(stats.points, percentage, stats.pf) }
  }

  datatype Snapshot = Snapshot(rows: seq<Row>, references: seq<Reference>)

  function Once(entries: seq<Id>): (r: seq<Id>)
    ensures Distinct(r) && forall e :: e in r <==> e in entries
  {
    if entries == [] then []
    else
      var n := |entries| - 1;
      var front := Once(entries[..n]);
      assert entries == entries[..n] + [entries[n]];
      if entries[n] in front then front else front + [entries[n]]
  }

  /** Everyone strictly better than a standing. */
  function Ahead(values: seq<Value>, k: Key): set<Value> {
    set v | v in values && Better(KeyOf(v), k)
  }

  function RankOf(values: seq<Value>, k: Key): nat {
    1 + |Ahead(values, k)|
  }

  function GroupOf(values: seq<Value>, k: Key): seq<Id> {
    if values == [] then []
    else
      var n := |values| - 1;
      GroupOf(values[..n], k) + (if KeyOf(values[n]) == k then [values[n].id] else [])
  }

  function MakeRow(v: Value, rank: nat, group: seq<Id>, scale: Scale): Row {
    Row(v.id, v.stats, Ratio(v.stats.pf, v.stats.played as real, 1.0, scale), v.percentage, rank, |group| > 1, group)
  }

  /** A row, from what its rank and its tie mean: one more than the entries ahead, and all who share the standing. */
  function RowOf(values: seq<Value>, scale: Scale, v: Value): Row {
    MakeRow(v, RankOf(values, KeyOf(v)), GroupOf(values, KeyOf(v)), scale)
  }

  function RowsOf(values: seq<Value>, scale: Scale, part: seq<Value>): (r: seq<Row>)
    ensures |r| == |part| && forall i {:trigger r[i]} :: 0 <= i < |r| ==> r[i] == RowOf(values, scale, part[i])
  {
    if part == [] then [] else RowsOf(values, scale, part[..|part| - 1]) + [RowOf(values, scale, part[|part| - 1])]
  }

  function Rows(values: seq<Value>, scale: Scale): seq<Row> {
    RowsOf(values, scale, values)
  }

  function Ranked(matches: seq<Match>, entries: seq<Id>, scale: Scale, before: (Id, Id) -> bool): seq<Value> {
    Sorted(ValueOrder(before), Values(matches, scale, Once(entries)))
  }

  function Ladder(entries: seq<Id>, results: seq<Match>, through: int, scale: Scale, before: (Id, Id) -> bool): Option<Snapshot> {
    var matches := Selected(results, through);
    if !Known(matches, entries) then None
    else Some(Snapshot(Rows(Ranked(matches, entries, scale, before), scale), References(matches)))
  }

  // ----- The sort -----

  lemma BetterIsWeak(a: Key, b: Key, c: Key)
    ensures !(Better(a, b) && Better(b, a))
    ensures Better(a, b) && Better(b, c) ==> Better(a, c)
    ensures Better(a, b) || Better(b, a) || a == b
  {
  }

  lemma ValueOrderIsWeak(before: (Id, Id) -> bool)
    requires TotalOrder(before)
    ensures WeakOrder(ValueOrder(before))
  {
    var less := ValueOrder(before);
    forall a, b, c
      ensures (less(a, b) && less(b, c) ==> less(a, c)) && (less(a, c) ==> less(a, b) || less(b, c))
    {
      BetterIsWeak(KeyOf(a), KeyOf(b), KeyOf(c));
      BetterIsWeak(KeyOf(b), KeyOf(c), KeyOf(a));
      BetterIsWeak(KeyOf(a), KeyOf(c), KeyOf(b));
    }
    forall a ensures !less(a, a) { BetterIsWeak(KeyOf(a), KeyOf(a), KeyOf(a)); }
  }

  ghost predicate DistinctIds(values: seq<Value>) {
    forall i, j :: 0 <= i < j < |values| ==> values[i].id != values[j].id
  }

  lemma MembersSameId(values: seq<Value>, x: Value, y: Value)
    requires DistinctIds(values) && x in values && y in values && x.id == y.id
    ensures x == y
  {
    var i :| 0 <= i < |values| && values[i] == x;
    var j :| 0 <= j < |values| && values[j] == y;
    if i < j { assert false; } else if j < i { assert false; }
  }

  /** What the sorted list holds: each entry's own value, once, best first. */
  lemma RankedShape(matches: seq<Match>, entries: seq<Id>, scale: Scale, before: (Id, Id) -> bool)
    requires TotalOrder(before)
    ensures var ranked := Ranked(matches, entries, scale, before);
            && Ascending(ValueOrder(before), ranked)
            && DistinctIds(ranked)
            && (forall v :: v in ranked <==> v.id in entries && v == ValueOf(matches, scale, v.id))
  {
    var ids := Once(entries);
    var values := Values(matches, scale, ids);
    var ranked := Ranked(matches, entries, scale, before);
    ValueOrderIsWeak(before);
    SortedAscends(ValueOrder(before), values);
    SameMembers(values, ranked);
    DistinctMultiset(values, ranked);
    forall v ensures v in ranked <==> v.id in entries && v == ValueOf(matches, scale, v.id) {
      if v.id in entries && v == ValueOf(matches, scale, v.id) {
        var i :| 0 <= i < |ids| && ids[i] == v.id;
        assert values[i] == v;
      }
    }
    forall i, j | 0 <= i < j < |ranked| ensures ranked[i].id != ranked[j].id {
      assert ranked[i] in ranked && ranked[j] in ranked;
    }
  }

  // ----- Ranks -----

  lemma {:induction false} GroupMembers(values: seq<Value>, k: Key)
    requires DistinctIds(values)
    ensures var g := GroupOf(values, k);
            && Distinct(g)
            && (forall e :: e in g <==> exists v :: v in values && v.id == e && KeyOf(v) == k)
  {
    if values != [] {
      var n := |values| - 1;
      GroupMembers(values[..n], k);
      assert values == values[..n] + [values[n]];
      var g := GroupOf(values, k);
      assert values[n].id !in GroupOf(values[..n], k);
      forall e ensures e in g <==> exists v :: v in values && v.id == e && KeyOf(v) == k {
        if v :| v in values && v.id == e && KeyOf(v) == k {
          assert v in values[..n] || v == values[n];
        }
        if e in g && !(e in GroupOf(values[..n], k)) {
          assert values[n] in values && values[n].id == e;
        }
      }
    }
  }

  predicate StartsStanding(values: seq<Value>, i: nat)
    requires i < |values|
  {
    i == 0 || KeyOf(values[i - 1]) != KeyOf(values[i])
  }

  /** In a list sorted best first, the first of a standing has exactly its predecessors ahead. */
  lemma FirstOfStanding(before: (Id, Id) -> bool, values: seq<Value>, i: nat)
    requires TotalOrder(before) && Ascending(ValueOrder(before), values) && DistinctIds(values)
    requires i < |values| && StartsStanding(values, i)
    ensures RankOf(values, KeyOf(values[i])) == i + 1
  {
    var less := ValueOrder(before);
    var k := KeyOf(values[i]);
    forall j | 0 <= j < |values| ensures Better(KeyOf(values[j]), k) <==> j < i {
      BetterIsWeak(KeyOf(values[j]), k, k);
      if j < i {
        BetterIsWeak(KeyOf(values[j]), KeyOf(values[i - 1]), k);
        BetterIsWeak(KeyOf(values[i - 1]), k, k);
        assert !less(values[i], values[i - 1]);
        if j < i - 1 { assert !less(values[i - 1], values[j]); }
      } else if i < j {
        assert !less(values[j], values[i]);
      }
    }
    assert Ahead(values, k) == set x | x in values[..i] by {
      forall v ensures v in Ahead(values, k) <==> v in values[..i] {
        if v in Ahead(values, k) {
          var j :| 0 <= j < |values| && values[j] == v;
          assert values[..i][j] == v;
        }
      }
    }
    DistinctSize(values[..i]);
  }

  /** Rows that share a standing share the rank; a better standing has a smaller one. */
  lemma RanksFollowStandings(values: seq<Value>, x: Value, y: Value)
    requires DistinctIds(values) && x in values && y in values
    ensures Ahead(values, KeyOf(x)) == Ahead(values, KeyOf(y)) <==> KeyOf(x) == KeyOf(y)
    ensures Better(KeyOf(x), KeyOf(y)) <==> |Ahead(values, KeyOf(x))| < |Ahead(values, KeyOf(y))|
  {
    BetterIsWeak(KeyOf(x), KeyOf(y), KeyOf(x));
    if Better(KeyOf(x), KeyOf(y)) {
      AheadGrows(values, x, y);
    } else if Better(KeyOf(y), KeyOf(x)) {
      AheadGrows(values, y, x);
    }
  }

  lemma AheadGrows(values: seq<Value>, x: Value, y: Value)
    requires x in values && Better(KeyOf(x), KeyOf(y))
    ensures Ahead(values, KeyOf(x)) < Ahead(values, KeyOf(y))
    ensures |Ahead(values, KeyOf(x))| < |Ahead(values, KeyOf(y))|
  {
    var few, many := Ahead(values, KeyOf(x)), Ahead(values, KeyOf(y));
    BetterIsWeak(KeyOf(x), KeyOf(x), KeyOf(x));
    forall v | v in few ensures v in many { BetterIsWeak(KeyOf(v), KeyOf(x), KeyOf(y)); }
    assert x in many && x !in few;
    SubsetSize(few, many - {x});
  }

  lemma SubsetSize<T>(a: set<T>, b: set<T>)
    requires a <= b
    ensures |a| <= |b|
  {
    assert b == a + (b - a);
  }

  // ----- The calculation, as the code loops it -----

  method CalculateLadder(entries: seq<Id>, results: seq<Match>, through: int, scale: Scale, before: (Id, Id) -> bool)
    returns (r: Option<Snapshot>)
    requires TotalOrder(before)
    ensures r == Ladder(entries, results, through, scale, before)
  {
    var matches := Selected(results, through);
    var counted := CountResults(entries, matches);
    if counted.None? { return None; }
    var values := RankEntries(entries, matches, counted.value, scale, before);
    RankedShape(matches, entries, scale, before);
    var groups := CollectGroups(values);
    forall i: nat | i < |values| ensures RowReady(values, groups, i) {
      if StartsStanding(values, i) { FirstOfStanding(before, values, i); }
    }
    var rows := WriteRows(values, groups, scale);
    r := Some(Snapshot(rows, References(matches)));
  }

  /** The counters so far are the lines so far. */
  ghost predicate CountersHold(stats: map<Id, Stats>, entries: seq<Id>, counted: seq<Match>) {
    && stats.Keys == (set e | e in entries)
    && forall e :: e in stats ==> stats[e] == Line(counted, e)
  }

  /** The counters, one pair of updates per result; an unknown entry fails the whole calculation. */
  method CountResults(entries: seq<Id>, matches: seq<Match>) returns (r: Option<map<Id, Stats>>)
    ensures r.Some? <==> Known(matches, entries)
    ensures r.Some? ==> CountersHold(r.value, entries, matches)
  {
    var stats: map<Id, Stats> := map e | e in entries :: ZERO;
    var i := 0;
    assert matches[..0] == [];
    while i < |matches|
      invariant 0 <= i <= |matches| && Known(matches[..i], entries)
      invariant CountersHold(stats, entries, matches[..i])
    {
      var m := matches[i];
      assert matches[..i + 1] == matches[..i] + [m];
      if m.home !in stats || m.away !in stats {
        assert m.home !in entries || m.away !in entries;
        return None;
      }
      stats := CountGame(matches[..i], m, entries, stats);
      i := i + 1;
    }
    assert matches[..i] == matches;
    r := Some(stats);
  }

  lemma GameCounts(counted: seq<Match>, m: Match, e: Id)
    ensures Line(counted + [m], e)
         == Plus(Plus(Line(counted, e), Counted(m.home == e, SideStats(m.homeScore, m.awayScore))),
                 Counted(m.away == e, SideStats(m.awayScore, m.homeScore)))
    ensures Plus(Line(counted, e), ZERO) == Line(counted, e)
  {
    LineSnoc(counted, m, e);
    PlusLaws(Line(counted, e), Counted(m.home == e, SideStats(m.homeScore, m.awayScore)),
             Counted(m.away == e, SideStats(m.awayScore, m.homeScore)));
  }

  method CountGame(ghost counted: seq<Match>, m: Match, ghost entries: seq<Id>, stats: map<Id, Stats>) returns (r: map<Id, Stats>)
    requires CountersHold(stats, entries, counted)
    requires m.home in stats && m.away in stats
    ensures CountersHold(r, entries, counted + [m])
  {
    var home, away := OneGame(m.homeScore, m.awayScore);
    r := Credited(Credited(stats, m.home, home), m.away, away);
    forall e | e in r ensures r[e] == Line(counted + [m], e) { GameCounts(counted, m, e); }
  }

  function Credited(stats: map<Id, Stats>, side: Id, game: Stats): (r: map<Id, Stats>)
    requires side in stats
    ensures r.Keys == stats.Keys && forall e :: e in r ==> r[e] == Plus(stats[e], Counted(side == e, game))
  {
    PlusLaws(stats[side], ZERO, ZERO);
    assert forall e :: e in stats ==> Plus(stats[e], ZERO) == stats[e];
    stats[side := Plus(stats[side], game)]
  }

  method OneGame(homeScore: real, awayScore: real) returns (home: Stats, away: Stats)
    ensures home == SideStats(homeScore, awayScore) && away == SideStats(awayScore, homeScore)
  {
    if homeScore > awayScore {
      home, away := Stats(1, 1, 0, 0, homeScore, awayScore, 4), Stats(1, 0, 0, 1, awayScore, homeScore, 0);
    } else if homeScore < awayScore {
      home, away := Stats(1, 0, 0, 1, homeScore, awayScore, 0), Stats(1, 1, 0, 0, awayScore, homeScore, 4);
    } else {
      home, away := Stats(1, 0, 1, 0, homeScore, awayScore, 2), Stats(1, 0, 1, 0, awayScore, homeScore, 2);
    }
  }

  method RankEntries(entries: seq<Id>, ghost matches: seq<Match>, stats: map<Id, Stats>, scale: Scale, before: (Id, Id) -> bool)
    returns (values: seq<Value>)
    requires CountersHold(stats, entries, matches)
    ensures values == Ranked(matches, entries, scale, before)
  {
    var ids := Once(entries);
    values := [];
    var i := 0;
    while i < |ids|
      invariant 0 <= i <= |ids| && values == Values(matches, scale, ids[..i])
    {
      assert ids[i] in entries;
      var line := stats[ids[i]];
      assert ids[..i + 1][..i] == ids[..i];
      values := values + [Value(ids[i], line, Ratio(line.pf, line.pa, 100.0, scale))];
      i := i + 1;
    }
    assert ids[..i] == ids;
    values := Sorted(ValueOrder(before), values);
  }

  method CollectGroups(values: seq<Value>) returns (groups: map<Key, seq<Id>>)
    ensures forall i :: 0 <= i < |values| ==> KeyOf(values[i]) in groups && groups[KeyOf(values[i])] == GroupOf(values, KeyOf(values[i]))
  {
    groups := map[];
    var i := 0;
    assert values[..0] == [];
    while i < |values|
      invariant 0 <= i <= |values|
      invariant groups.Keys == (set v | v in values[..i] :: KeyOf(v))
      invariant forall k :: k in groups ==> groups[k] == GroupOf(values[..i], k)
    {
      var front := values[..i];
      var v := values[i];
      assert values[..i + 1] == front + [v];
      if KeyOf(v) !in groups { EmptyGroup(front, KeyOf(v)); }
      forall k ensures GroupOf(front + [v], k) == GroupOf(front, k) + (if KeyOf(v) == k then [v.id] else []) { GroupSnoc(front, v, k); }
      groups := groups[KeyOf(v) := (if KeyOf(v) in groups then groups[KeyOf(v)] else []) + [v.id]];
      i := i + 1;
    }
    assert values[..i] == values;
    forall j | 0 <= j < |values| ensures KeyOf(values[j]) in groups { assert values[j] in values; }
  }

  lemma GroupSnoc(front: seq<Value>, v: Value, k: Key)
    ensures GroupOf(front + [v], k) == GroupOf(front, k) + (if KeyOf(v) == k then [v.id] else [])
  {
    assert (front + [v])[..|front + [v]| - 1] == front;
  }

  lemma {:induction false} EmptyGroup(values: seq<Value>, k: Key)
    requires forall v :: v in values ==> KeyOf(v) != k
    ensures GroupOf(values, k) == []
  {
    if values != [] { EmptyGroup(values[..|values| - 1], k); }
  }

  /** Everything the row at position `i` needs to know besides the row before it. */
  predicate RowReady(values: seq<Value>, groups: map<Key, seq<Id>>, i: nat) {
    && i < |values|
    && KeyOf(values[i]) in groups && groups[KeyOf(values[i])] == GroupOf(values, KeyOf(values[i]))
    && (StartsStanding(values, i) ==> RankOf(values, KeyOf(values[i])) == i + 1)
  }

  /** The rank carried into position `i`: that of the standing before it. */
  predicate CarriesRank(values: seq<Value>, i: nat, prior: Option<Key>, rank: nat)
    requires i <= |values|
  {
    if i == 0 then prior == None else prior == Some(KeyOf(values[i - 1])) && rank == RankOf(values, KeyOf(values[i - 1]))
  }

  /** One row: the rank stays while the standing does, and otherwise becomes the row's own position. */
  method NextRow(values: seq<Value>, groups: map<Key, seq<Id>>, i: nat, prior: Option<Key>, rank: nat, scale: Scale) returns (row: Row, next: nat)
    requires RowReady(values, groups, i) && CarriesRank(values, i, prior, rank)
    ensures row == RowOf(values, scale, values[i]) && CarriesRank(values, i + 1, Some(KeyOf(values[i])), next)
  {
    next := if prior != Some(KeyOf(values[i])) then i + 1 else rank;
    row := MakeRow(values[i], next, groups[KeyOf(values[i])], scale);
  }

  method WriteRows(values: seq<Value>, groups: map<Key, seq<Id>>, scale: Scale) returns (rows: seq<Row>)
    requires forall i: nat {:trigger RowReady(values, groups, i)} :: i < |values| ==> RowReady(values, groups, i)
    ensures rows == Rows(values, scale)
  {
    ghost var spec := Rows(values, scale);
    rows := [];
    var prior: Option<Key> := None;
    var rank := 0;
    var i := 0;
    while i < |values|
      invariant 0 <= i <= |values| && rows == spec[..i]
      invariant CarriesRank(values, i, prior, rank)
    {
      assert RowReady(values, groups, i);
      var row, next := NextRow(values, groups, i, prior, rank, scale);
      assert row == spec[i];
      rows, rank, prior := rows + [row], next, Some(KeyOf(values[i]));
      i := i + 1;
    }
  }
}
