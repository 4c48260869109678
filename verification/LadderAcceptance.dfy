/** Exactly when a tie ruling is recorded and when one resolves a tie, in terms of the stored rows. */
module LadderAcceptance {
  import opened Options
  import opened Ordering
  import opened LadderFold
  import opened LadderRanking
  import opened LadderTheorems
  import opened LadderRulings
  import opened LadderFreshness
  import opened LadderOrder

  /** A tie is resolved exactly when an active ruling for it was made from the same set of results. */
  lemma ResolvedIff(rulings: seq<Ruling>, scope: Scope, ladder: Snapshot, group: set<Id>)
    requires OneActive(rulings)
    ensures Resolve(rulings, scope, ladder, group).Some?
       <==> exists i :: 0 <= i < |rulings| && rulings[i].active && rulings[i].scope == scope && rulings[i].group == group
                        && forall x :: x in rulings[i].references <==> x in ladder.references
  {
    if i :| 0 <= i < |rulings| && rulings[i].active && rulings[i].scope == scope && rulings[i].group == group
            && forall x :: x in rulings[i].references <==> x in ladder.references
    {
      var found := FindActive(rulings, scope, group, 0).value;
      assert found == i;
      SameSets(rulings[i].references, ladder.references);
    }
    if Resolve(rulings, scope, ladder, group).Some? {
      var i := Resolve(rulings, scope, ladder, group).value;
      SameSets(rulings[i].references, ladder.references);
    }
  }

  lemma SameSets(a: seq<Reference>, b: seq<Reference>)
    ensures ReferenceSet(a) == ReferenceSet(b) <==> forall x :: x in a <==> x in b
  {
    if ReferenceSet(a) == ReferenceSet(b) {
      forall x ensures x in a <==> x in b {
        assert x in ReferenceSet(a) <==> x in ReferenceSet(b);
      }
    }
  }

  /** A ruling is recorded exactly for a full order of one tied group of the season's current ladder. */
  lemma RecordAcceptedIff(rulings: seq<Ruling>, leagues: Leagues, scope: Scope, order: seq<Id>, scale: Scale, before: (Id, Id) -> bool)
    requires ValidLeagues(leagues)
    ensures Record(rulings, leagues, scope, order, scale, before).Ok?
       <==> && |order| >= 2 && (forall i, j :: 0 <= i < j < |order| ==> order[i] != order[j])
            && scope.competition in leagues && leagues[scope.competition].season == scope.season
            && var ladder := LadderOf(leagues[scope.competition], scope.through, scale, before);
               ladder.Some? && exists i :: 0 <= i < |ladder.value.rows| && ladder.value.rows[i].tied
                                           && forall e :: e in ladder.value.rows[i].group <==> e in order
  {
    if scope.competition in leagues {
      var ladder := LadderOf(leagues[scope.competition], scope.through, scale, before);
      RecordGuards(rulings, leagues, scope, order, scale, before, ladder);
      if ladder.Some? { TiedMeansSameMembers(ladder.value.rows, order); }
    }
  }

  lemma RecordGuards(rulings: seq<Ruling>, leagues: Leagues, scope: Scope, order: seq<Id>, scale: Scale, before: (Id, Id) -> bool,
                     ladder: Option<Snapshot>)
    requires ValidLeagues(leagues) && scope.competition in leagues
    requires ladder == LadderOf(leagues[scope.competition], scope.through, scale, before)
    ensures Record(rulings, leagues, scope, order, scale, before).Ok?
       <==> |order| >= 2 && Distinct(order) && leagues[scope.competition].season == scope.season
            && ladder.Some? && IsTied(ladder.value.rows, Members(order))
  {
  }

  lemma SameIds(a: seq<Id>, b: seq<Id>)
    ensures Members(a) == Members(b) <==> forall e :: e in a <==> e in b
  {
    if Members(a) == Members(b) {
      forall e ensures e in a <==> e in b {
        assert e in Members(a) <==> e in Members(b);
      }
    }
    if forall e :: e in a <==> e in b {
      forall e ensures e in Members(a) <==> e in Members(b) {
        assert e in Members(a) <==> e in a;
      }
    }
  }

  lemma TiedMeansSameMembers(rows: seq<Row>, order: seq<Id>)
    ensures IsTied(rows, Members(order))
       <==> exists i :: 0 <= i < |rows| && rows[i].tied && forall e :: e in rows[i].group <==> e in order
  {
    forall i | 0 <= i < |rows| { SameIds(rows[i].group, order); }
    if i :| 0 <= i < |rows| && rows[i].tied && forall e :: e in rows[i].group <==> e in order {
      assert TiedRow(rows[i], Members(order));
    }
    if IsTied(rows, Members(order)) {
      var i :| 0 <= i < |rows| && TiedRow(rows[i], Members(order));
      assert rows[i].tied;
    }
  }

  /** Once recorded, the ruling in force for the tie is this order on these results; a row was added unless it already was. */
  lemma RecordedIsInForce(rulings: seq<Ruling>, scope: Scope, order: seq<Id>, references: seq<Reference>)
    requires OneActive(rulings)
    ensures var r := Decide(rulings, scope, order, references);
            && r.id < |r.rulings|
            && r.rulings[r.id].active && r.rulings[r.id].scope == scope && r.rulings[r.id].group == Members(order)
            && r.rulings[r.id].decided == order && r.rulings[r.id].references == references
            && OneActive(r.rulings)
            && |r.rulings| == |rulings| + (if r.created then 1 else 0)
            && (r.created <==> !exists i :: 0 <= i < |rulings| && rulings[i].active && rulings[i].scope == scope
                                            && rulings[i].group == Members(order) && rulings[i].decided == order
                                            && rulings[i].references == references)
  {
    var existing := FindActive(rulings, scope, Members(order), 0);
    forall i | 0 <= i < |rulings| && rulings[i].active && rulings[i].scope == scope && rulings[i].group == Members(order)
      ensures existing == Some(i)
    {
    }
  }
}
