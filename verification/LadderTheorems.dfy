/** What the ladder promises: its order and its ties come from the results alone. */
module LadderTheorems {
  import opened Options
  import opened Ordering
  import opened LadderFold
  import opened LadderRanking

  // ----- The order in which results arrive -----

  lemma {:induction false} ThroughCounts(results: seq<Match>, through: int, m: Match)
    ensures multiset(Through(results, through))[m] == if m.round <= through then multiset(results)[m] else 0
  {
    if results != [] {
      var n := |results| - 1;
      assert results == results[..n] + [results[n]];
      ThroughCounts(results[..n], through, m);
    }
  }

  lemma SelectedPermutes(a: seq<Match>, b: seq<Match>, through: int)
    requires multiset(a) == multiset(b)
    ensures multiset(Selected(a, through)) == multiset(Selected(b, through))
  {
    forall m ensures multiset(Through(a, through))[m] == multiset(Through(b, through))[m] {
      ThroughCounts(a, through, m);
      ThroughCounts(b, through, m);
    }
  }

  datatype Tag = Tag(round: int, matchup: nat, version: nat)

  function TagOf(m: Match): Tag { Tag(m.round, m.matchup, m.version) }

  predicate TagBefore(a: Tag, b: Tag) {
    || a.round < b.round
    || (a.round == b.round && a.matchup < b.matchup)
    || (a.round == b.round && a.matchup == b.matchup && a.version < b.version)
  }

  lemma SelectedTagsAscend(results: seq<Match>, through: int)
    ensures Ascending(TagBefore, Mapped(TagOf, Selected(results, through)))
  {
    SortedAscends(MatchOrder(), Through(results, through));
    var s := Selected(results, through);
    forall i, j | 0 <= i < j < |s| ensures !TagBefore(TagOf(s[j]), TagOf(s[i])) {
      assert !MatchOrder()(s[j], s[i]);
    }
  }

  lemma ReferencesPermute(a: seq<Match>, b: seq<Match>, through: int)
    requires multiset(Selected(a, through)) == multiset(Selected(b, through))
    ensures References(Selected(a, through)) == References(Selected(b, through))
  {
    SelectedTagsAscend(a, through);
    SelectedTagsAscend(b, through);
    var x, y := Selected(a, through), Selected(b, through);
    MappedPermutes(TagOf, x, y);
    AscendingIsUnique(TagBefore, Mapped(TagOf, x), Mapped(TagOf, y));
    forall i | 0 <= i < |References(x)| ensures References(x)[i] == References(y)[i] {
      assert Mapped(TagOf, x)[i] == TagOf(x[i]) && Mapped(TagOf, y)[i] == TagOf(y[i]);
    }
  }

  lemma RankedSeparates(before: (Id, Id) -> bool, values: seq<Value>)
    requires TotalOrder(before) && DistinctIds(values)
    ensures Separates(ValueOrder(before), values)
  {
    var less := ValueOrder(before);
    forall x, y | x in values && y in values && x != y ensures less(x, y) || less(y, x) {
      BetterIsWeak(KeyOf(x), KeyOf(y), KeyOf(x));
      if x.id == y.id { MembersSameId(values, x, y); }
    }
  }

  /** Sorting the same entries' values gives one list, whatever order the entries and the results came in. */
  lemma RankedIsCanonical(a: seq<Match>, b: seq<Match>, es: seq<Id>, fs: seq<Id>, scale: Scale, before: (Id, Id) -> bool)
    requires TotalOrder(before) && multiset(a) == multiset(b) && forall e :: e in es <==> e in fs
    ensures Ranked(a, es, scale, before) == Ranked(b, fs, scale, before)
  {
    var x, y := Ranked(a, es, scale, before), Ranked(b, fs, scale, before);
    RankedShape(a, es, scale, before);
    RankedShape(b, fs, scale, before);
    forall v ensures v in x <==> v in y { LinePermutes(a, b, v.id); }
    SameMultiset(x, y);
    RankedSeparates(before, x);
    AscendingIsUnique(ValueOrder(before), x, y);
  }

  lemma SnapshotFollows(es: seq<Id>, fs: seq<Id>, a: seq<Match>, b: seq<Match>, through: int, scale: Scale, before: (Id, Id) -> bool)
    requires TotalOrder(before) && multiset(Selected(a, through)) == multiset(Selected(b, through))
    requires forall e :: e in es <==> e in fs
    ensures Ladder(es, a, through, scale, before) == Ladder(fs, b, through, scale, before)
  {
    SameMembers(Selected(a, through), Selected(b, through));
    ReferencesPermute(a, b, through);
    RankedIsCanonical(Selected(a, through), Selected(b, through), es, fs, scale, before);
    KnownFollows(Selected(a, through), Selected(b, through), es, fs);
  }

  /** The snapshot is a function of which entries and which results there are, never of their order. */
  lemma InputOrderIsIrrelevant(es: seq<Id>, fs: seq<Id>, a: seq<Match>, b: seq<Match>, through: int, scale: Scale, before: (Id, Id) -> bool)
    requires TotalOrder(before) && multiset(a) == multiset(b) && forall e :: e in es <==> e in fs
    ensures Ladder(es, a, through, scale, before) == Ladder(fs, b, through, scale, before)
  {
    SelectedPermutes(a, b, through);
    SnapshotFollows(es, fs, a, b, through, scale, before);
  }

  lemma KnownFollows(a: seq<Match>, b: seq<Match>, es: seq<Id>, fs: seq<Id>)
    requires (forall m :: m in a <==> m in b) && forall e :: e in es <==> e in fs
    ensures Known(a, es) == Known(b, fs)
  {
    if Known(a, es) {
      forall i | 0 <= i < |b| ensures b[i].home in fs && b[i].away in fs { assert b[i] in a; }
    }
    if Known(b, fs) {
      forall i | 0 <= i < |a| ensures a[i].home in es && a[i].away in es { assert a[i] in b; }
    }
  }

  // ----- What a row says -----

  /** The standing an entry has earned. */
  function Standing(matches: seq<Match>, scale: Scale, e: Id): Key {
    KeyOf(ValueOf(matches, scale, e))
  }

  function EntriesAhead(entries: seq<Id>, matches: seq<Match>, scale: Scale, e: Id): set<Id> {
    set x | x in entries && Better(Standing(matches, scale, x), Standing(matches, scale, e))
  }

  lemma {:induction false} ImageSize(values: set<Value>, ids: set<Id>)
    requires (forall v, w :: v in values && w in values && v.id == w.id ==> v == w) && ids == set v | v in values :: v.id
    ensures |ids| == |values|
  {
    if values != {} {
      var v :| v in values;
      assert ids - {v.id} == set w | w in values - {v} :: w.id;
      ImageSize(values - {v}, ids - {v.id});
    }
  }

  lemma AheadIs(entries: seq<Id>, matches: seq<Match>, scale: Scale, before: (Id, Id) -> bool, e: Id)
    requires TotalOrder(before)
    ensures RankOf(Ranked(matches, entries, scale, before), Standing(matches, scale, e)) == 1 + |EntriesAhead(entries, matches, scale, e)|
  {
    var values := Ranked(matches, entries, scale, before);
    RankedShape(matches, entries, scale, before);
    var ahead := Ahead(values, Standing(matches, scale, e));
    forall x ensures x in EntriesAhead(entries, matches, scale, e) <==> x in set v | v in ahead :: v.id {
      if x in EntriesAhead(entries, matches, scale, e) { assert ValueOf(matches, scale, x) in ahead; }
    }
    forall v, w | v in ahead && w in ahead && v.id == w.id ensures v == w { MembersSameId(values, v, w); }
    ImageSize(ahead, EntriesAhead(entries, matches, scale, e));
  }

  lemma GroupIs(entries: seq<Id>, matches: seq<Match>, scale: Scale, before: (Id, Id) -> bool, e: Id, x: Id)
    requires TotalOrder(before)
    ensures x in GroupOf(Ranked(matches, entries, scale, before), Standing(matches, scale, e))
       <==> x in entries && Standing(matches, scale, x) == Standing(matches, scale, e)
  {
    var values := Ranked(matches, entries, scale, before);
    RankedShape(matches, entries, scale, before);
    GroupMembers(values, Standing(matches, scale, e));
    if x in entries { assert ValueOf(matches, scale, x) in values; }
  }

  /** A row holds its entry's own line; its rank is one more than the entries with a strictly better standing;
      its group is exactly the entries with an equal one. Nothing here mentions the identifier order. */
  ghost predicate RowMeans(entries: seq<Id>, matches: seq<Match>, scale: Scale, row: Row) {
    && row.id in entries
    && row.stats == Line(matches, row.id)
    && row.Standing() == Standing(matches, scale, row.id)
    && row.rank == 1 + |EntriesAhead(entries, matches, scale, row.id)|
    && Distinct(row.group)
    && (forall x :: x in row.group <==> x in entries && Standing(matches, scale, x) == row.Standing())
    && (row.tied <==> exists x :: x in entries && x != row.id && Standing(matches, scale, x) == row.Standing())
  }

  lemma RowMeaning(entries: seq<Id>, results: seq<Match>, through: int, scale: Scale, before: (Id, Id) -> bool, i: nat)
    requires TotalOrder(before)
    requires var l := Ladder(entries, results, through, scale, before); l.Some? && i < |l.value.rows|
    ensures var row := Ladder(entries, results, through, scale, before).value.rows[i];
            RowMeans(entries, Selected(results, through), scale, row)
  {
    var matches := Selected(results, through);
    var values := Ranked(matches, entries, scale, before);
    var row := Ladder(entries, results, through, scale, before).value.rows[i];
    RankedShape(matches, entries, scale, before);
    assert values[i] in values;
    assert row == RowOf(values, scale, ValueOf(matches, scale, row.id));
    AheadIs(entries, matches, scale, before, row.id);
    forall x ensures x in row.group <==> x in entries && Standing(matches, scale, x) == row.Standing() {
      GroupIs(entries, matches, scale, before, row.id, x);
    }
    GroupMembers(values, row.Standing());
    TiedMeans(row.group, row.id);
  }

  lemma TiedMeans(group: seq<Id>, e: Id)
    requires Distinct(group) && e in group
    ensures |group| > 1 <==> exists x :: x in group && x != e
  {
    if |group| > 1 {
      assert group[0] in group && group[1] in group && group[0] != group[1];
    } else {
      assert group == [group[0]];
    }
  }

  /** Every entry has exactly one row, best standing first. */
  lemma RowsCover(entries: seq<Id>, results: seq<Match>, through: int, scale: Scale, before: (Id, Id) -> bool)
    requires TotalOrder(before) && Ladder(entries, results, through, scale, before).Some?
    ensures var rows := Ladder(entries, results, through, scale, before).value.rows;
            && (forall e :: e in entries <==> exists i :: 0 <= i < |rows| && rows[i].id == e)
            && (forall i, j :: 0 <= i < j < |rows| ==> rows[i].id != rows[j].id && !Better(rows[j].Standing(), rows[i].Standing()))
  {
    var matches := Selected(results, through);
    var values := Ranked(matches, entries, scale, before);
    var rows := Ladder(entries, results, through, scale, before).value.rows;
    RankedShape(matches, entries, scale, before);
    forall i | 0 <= i < |rows| ensures rows[i].id == values[i].id && rows[i].Standing() == KeyOf(values[i]) {}
    forall e ensures e in entries <==> exists i :: 0 <= i < |rows| && rows[i].id == e {
      if e in entries {
        assert ValueOf(matches, scale, e) in values;
        var i :| 0 <= i < |values| && values[i] == ValueOf(matches, scale, e);
        assert rows[i].id == e;
      }
      if i :| 0 <= i < |rows| && rows[i].id == e { assert values[i] in values; }
    }
    forall i, j | 0 <= i < j < |rows|
      ensures rows[i].id != rows[j].id && !Better(rows[j].Standing(), rows[i].Standing())
    {
      assert !ValueOrder(before)(values[j], values[i]);
    }
  }

  /** However identifiers are serialised, an entry's line, rank, tie flag and tie group (as a set) are the same. */
  lemma IdentifiersNeverRank(entries: seq<Id>, results: seq<Match>, through: int, scale: Scale,
                             before: (Id, Id) -> bool, other: (Id, Id) -> bool, i: nat, j: nat)
    requires TotalOrder(before) && TotalOrder(other)
    requires var a, b := Ladder(entries, results, through, scale, before), Ladder(entries, results, through, scale, other);
             a.Some? && b.Some? && i < |a.value.rows| && j < |b.value.rows| && a.value.rows[i].id == b.value.rows[j].id
    ensures var x, y := Ladder(entries, results, through, scale, before).value.rows[i], Ladder(entries, results, through, scale, other).value.rows[j];
            x.stats == y.stats && x.percentage == y.percentage && x.rank == y.rank && x.tied == y.tied
            && multiset(x.group) == multiset(y.group)
  {
    RowMeaning(entries, results, through, scale, before, i);
    RowMeaning(entries, results, through, scale, other, j);
    MeaningIsAll(entries, Selected(results, through), scale, Ladder(entries, results, through, scale, before).value.rows[i],
                 Ladder(entries, results, through, scale, other).value.rows[j]);
  }

  lemma MeaningIsAll(entries: seq<Id>, matches: seq<Match>, scale: Scale, x: Row, y: Row)
    requires RowMeans(entries, matches, scale, x) && RowMeans(entries, matches, scale, y) && x.id == y.id
    ensures x.stats == y.stats && x.percentage == y.percentage && x.rank == y.rank && x.tied == y.tied
    ensures multiset(x.group) == multiset(y.group)
  {
    assert x.Standing() == y.Standing();
    forall z ensures z in x.group <==> z in y.group {
      assert z in x.group <==> z in entries && Standing(matches, scale, z) == x.Standing();
    }
    SameMultiset(x.group, y.group);
  }

  /** Equal ranks are equal standings, and a better standing is a smaller rank. */
  lemma RanksSeparate(entries: seq<Id>, results: seq<Match>, through: int, scale: Scale, before: (Id, Id) -> bool, i: nat, j: nat)
    requires TotalOrder(before)
    requires var l := Ladder(entries, results, through, scale, before); l.Some? && i < |l.value.rows| && j < |l.value.rows|
    ensures var rows := Ladder(entries, results, through, scale, before).value.rows;
            && (rows[i].rank < rows[j].rank <==> Better(rows[i].Standing(), rows[j].Standing()))
            && (rows[i].rank == rows[j].rank <==> rows[i].Standing() == rows[j].Standing())
  {
    var values := Ranked(Selected(results, through), entries, scale, before);
    RankedShape(Selected(results, through), entries, scale, before);
    assert values[i] in values && values[j] in values;
    BetterIsWeak(KeyOf(values[i]), KeyOf(values[j]), KeyOf(values[i]));
    RanksFollowStandings(values, values[i], values[j]);
    RanksFollowStandings(values, values[j], values[i]);
  }

  /**
   The three sporting criteria, on the fields of any two rows: competition
   points, then percentage, then points for. They alone order the ranks, and
   sharing all three is what a tie group is.
   */
  lemma RowsByCriteria(entries: seq<Id>, results: seq<Match>, through: int, scale: Scale, before: (Id, Id) -> bool, i: nat, j: nat)
    requires TotalOrder(before)
    requires var l := Ladder(entries, results, through, scale, before); l.Some? && i < |l.value.rows| && j < |l.value.rows|
    ensures var rows := Ladder(entries, results, through, scale, before).value.rows;
            var x, y := rows[i], rows[j];
            && (x.rank < y.rank
                <==> || x.stats.points > y.stats.points
                     || (x.stats.points == y.stats.points && x.percentage > y.percentage)
                     || (x.stats.points == y.stats.points && x.percentage == y.percentage && x.stats.pf > y.stats.pf))
            && (y.id in x.group <==> x.stats.points == y.stats.points && x.percentage == y.percentage && x.stats.pf == y.stats.pf)
            && (x.tied <==> |x.group| > 1)
            && x.percentage == (if x.stats.pa == 0.0 then 0.0 else scale(x.stats.pf, x.stats.pa, 100.0))
            && x.perGame == (if x.stats.played == 0 then 0.0 else scale(x.stats.pf, x.stats.played as real, 1.0))
  {
    RanksSeparate(entries, results, through, scale, before, i, j);
    RowMeaning(entries, results, through, scale, before, i);
    RowMeaning(entries, results, through, scale, before, j);
    RowRatios(entries, results, through, scale, before, i);
  }

  lemma RowRatios(entries: seq<Id>, results: seq<Match>, through: int, scale: Scale, before: (Id, Id) -> bool, i: nat)
    requires TotalOrder(before)
    requires var l := Ladder(entries, results, through, scale, before); l.Some? && i < |l.value.rows|
    ensures var x := Ladder(entries, results, through, scale, before).value.rows[i];
            && x.percentage == (if x.stats.pa == 0.0 then 0.0 else scale(x.stats.pf, x.stats.pa, 100.0))
            && x.perGame == (if x.stats.played == 0 then 0.0 else scale(x.stats.pf, x.stats.played as real, 1.0))
            && (x.tied <==> |x.group| > 1)
  {
    var matches := Selected(results, through);
    var values := Ranked(matches, entries, scale, before);
    RankedShape(matches, entries, scale, before);
    assert values[i] in values;
    RatiosOf(values, matches, scale, values[i]);
  }

  lemma RatiosOf(values: seq<Value>, matches: seq<Match>, scale: Scale, v: Value)
    requires v == ValueOf(matches, scale, v.id)
    ensures var x := RowOf(values, scale, v);
            && x.percentage == (if x.stats.pa == 0.0 then 0.0 else scale(x.stats.pf, x.stats.pa, 100.0))
            && x.perGame == (if x.stats.played == 0 then 0.0 else scale(x.stats.pf, x.stats.played as real, 1.0))
            && (x.tied <==> |x.group| > 1)
  {
  }

  /** Ranks down the ladder: the place of the row, unless it shares all three criteria with the row above. */
  lemma RanksCompete(entries: seq<Id>, results: seq<Match>, through: int, scale: Scale, before: (Id, Id) -> bool, i: nat)
    requires TotalOrder(before)
    requires var l := Ladder(entries, results, through, scale, before); l.Some? && i < |l.value.rows|
    ensures var rows := Ladder(entries, results, through, scale, before).value.rows;
            rows[i].rank == (if i > 0 && rows[i].stats.points == rows[i - 1].stats.points && rows[i].percentage == rows[i - 1].percentage
                                && rows[i].stats.pf == rows[i - 1].stats.pf
                             then rows[i - 1].rank else i + 1)
  {
    var matches := Selected(results, through);
    var values := Ranked(matches, entries, scale, before);
    RankedShape(matches, entries, scale, before);
    if StartsStanding(values, i) { FirstOfStanding(before, values, i); }
  }

  /** There is a ladder exactly when every counted result is between entries of the season. */
  lemma LadderExistsIff(entries: seq<Id>, results: seq<Match>, through: int, scale: Scale, before: (Id, Id) -> bool)
    ensures Ladder(entries, results, through, scale, before).Some?
       <==> forall m :: m in results && m.round <= through ==> m.home in entries && m.away in entries
  {
    var selected := Selected(results, through);
    SameMembers(selected, Through(results, through));
    forall m: Match ensures m in selected <==> m in results && m.round <= through {
      ThroughCounts(results, through, m);
      assert m in Through(results, through) <==> m in multiset(Through(results, through));
      assert m in results <==> m in multiset(results);
    }
    if forall m :: m in results && m.round <= through ==> m.home in entries && m.away in entries {
      forall i | 0 <= i < |selected| ensures selected[i].home in entries && selected[i].away in entries {
        assert selected[i] in selected;
      }
    }
    if Known(selected, entries) {
      forall m | m in results && m.round <= through ensures m.home in entries && m.away in entries {
        assert m in selected;
      }
    }
  }

  /** Over the whole ladder: points for equal points against, wins equal losses, four competition points a match. */
  lemma SnapshotBalances(entries: seq<Id>, results: seq<Match>, through: int, scale: Scale, before: (Id, Id) -> bool)
    requires Ladder(entries, results, through, scale, before).Some?
    ensures Balanced(Total(Selected(results, through), Once(entries)), |Selected(results, through)|)
  {
    LadderBalances(Selected(results, through), Once(entries));
  }
}
