/** The ruling table and the loops over it: recording, resolving one tie, resolving the whole ladder. */
module LadderRulingRepository {
  import opened Options
  import opened Ordering
  import opened LadderFold
  import opened LadderRanking
  import opened LadderRulings
  import opened LadderFreshness
  import opened LadderOrder

  class RulingTable {
    var rulings: seq<Ruling>

    constructor ()
      ensures rulings == []
    {
      rulings := [];
    }

    /** The first tied row whose group has exactly these members. */
    static method FindTiedGroup(ladder: Snapshot, members: set<Id>) returns (group: Option<seq<Id>>)
      ensures group.Some? <==> IsTied(ladder.rows, members)
      ensures group.Some? ==> Members(group.value) == members
    {
      var i := 0;
      while i < |ladder.rows|
        invariant 0 <= i <= |ladder.rows|
        invariant forall j :: 0 <= j < i ==> !TiedRow(ladder.rows[j], members)
      {
        var row := ladder.rows[i];
        if row.tied && Members(row.group) == members {
          assert TiedRow(ladder.rows[i], members);
          return Some(row.group);
        }
        i := i + 1;
      }
      return None;
    }

    /** The stored ruling active for this scope and group. */
    method GetActive(scope: Scope, group: set<Id>) returns (id: Option<nat>)
      ensures id == FindActive(rulings, scope, group, 0)
    {
      var i := 0;
      while i < |rulings|
        invariant 0 <= i <= |rulings|
        invariant FindActive(rulings, scope, group, 0) == FindActive(rulings, scope, group, i)
      {
        if rulings[i].active && rulings[i].scope == scope && rulings[i].group == group { return Some(i); }
        i := i + 1;
      }
      return None;
    }

    method RecordRuling(leagues: Leagues, scope: Scope, order: seq<Id>, scale: Scale, before: (Id, Id) -> bool)
      returns (r: Result<(nat, bool), Refusal>)
      requires ValidLeagues(leagues) && TotalOrder(before)
      modifies this
      ensures var spec := Record(old(rulings), leagues, scope, order, scale, before);
              && (r.Ok? <==> spec.Ok?)
              && (r.Ok? ==> r.value == (spec.value.id, spec.value.created) && rulings == spec.value.rulings)
              && (r.Err? ==> r.error == spec.error && rulings == old(rulings))
    {
      if |order| < 2 { return Err(TooFew); }
      if !Distinct(order) { return Err(Repeats); }
      if scope.competition !in leagues { return Err(UnknownCompetition); }
      var league := leagues[scope.competition];
      var ladder := CalculateLadder(league.entries, Inputs(league.world, |league.world.fixtures|), scope.through, scale, before);
      RecordFrom(rulings, leagues, scope, order, scale, before, ladder);
      if ladder.None? { return Err(UnknownCompetition); }
      if league.season != scope.season { return Err(WrongSeason); }
      var group := FindTiedGroup(ladder.value, Members(order));
      if group.None? { return Err(NotTied); }
      var id, created := WriteRuling(scope, group.value, order, Encoded(ladder.value.references));
      return Ok((id, created));
    }

    /** Keep an identical ruling; otherwise retire the active one and append the new one in its place. */
    method WriteRuling(scope: Scope, group: seq<Id>, order: seq<Id>, references: seq<Reference>) returns (id: nat, created: bool)
      requires Members(group) == Members(order)
      modifies this
      ensures Recorded(rulings, id, created) == Decide(old(rulings), scope, order, references)
    {
      var existing := GetActive(scope, Members(group));
      if existing.Some? && rulings[existing.value].decided == order && rulings[existing.value].references == references {
        return existing.value, false;
      }
      id, created := |rulings|, true;
      if existing.Some? {
        rulings := rulings[existing.value := rulings[existing.value].(active := false)];
      }
      rulings := rulings + [Ruling(scope, Members(group), order, references, true, None)];
      if existing.Some? {
        rulings := rulings[existing.value := rulings[existing.value].(supersededBy := Some(id))];
      }
    }

    method ResolveTie(scope: Scope, ladder: Snapshot, group: seq<Id>) returns (id: Option<nat>)
      ensures id == Resolve(rulings, scope, ladder, Members(group))
    {
      id := GetActive(scope, Members(group));
      if id.Some? && ReferenceSet(ladder.references) != ReferenceSet(rulings[id.value].references) { return None; }
    }

    /** One pass down the rows, each tie's ruling spliced in once, stopping at the first tie still open. */
    method ResolveFullOrder(scope: Scope, ladder: Snapshot) returns (r: Result<Resolved, seq<Id>>)
      ensures r == FullOrder(rulings, scope, ladder, |ladder.rows|)
    {
      var order: seq<Id> := [];
      var used: seq<nat> := [];
      var handled: set<seq<Id>> := {};
      var i := 0;
      while i < |ladder.rows|
        invariant 0 <= i <= |ladder.rows|
        invariant FullOrder(rulings, scope, ladder, i) == Ok(Resolved(order, used))
        invariant forall g :: g in handled <==> exists j :: 0 <= j < i && ladder.rows[j].tied && ladder.rows[j].group == g
      {
        var row := ladder.rows[i];
        assert order + [] == order && used + [] == used;
        if !row.tied {
          order := order + [row.id];
        } else if row.group !in handled {
          handled := handled + {row.group};
          var ruling := ResolveTie(scope, ladder, row.group);
          if ruling.None? {
            BlockedStays(rulings, scope, ladder, i, |ladder.rows|);
            return Err(row.group);
          }
          order := order + rulings[ruling.value].decided;
          used := used + [ruling.value];
        }
        i := i + 1;
      }
      return Ok(Resolved(order, used));
    }
  }

  /** Once a row blocks the order, it stays blocked. */
  lemma {:induction false} BlockedStays(rulings: seq<Ruling>, scope: Scope, ladder: Snapshot, i: nat, n: nat)
    requires i < n <= |ladder.rows|
    requires FullOrder(rulings, scope, ladder, i).Ok? && Piece(rulings, scope, ladder, i).Err?
    ensures FullOrder(rulings, scope, ladder, n) == Err(Piece(rulings, scope, ladder, i).error)
  {
    if n > i + 1 { BlockedStays(rulings, scope, ladder, i, n - 1); }
  }

  /** Past the checks on the order itself, recording goes by the ladder alone. */
  lemma RecordFrom(rulings: seq<Ruling>, leagues: Leagues, scope: Scope, order: seq<Id>, scale: Scale, before: (Id, Id) -> bool,
                   ladder: Option<Snapshot>)
    requires ValidLeagues(leagues) && |order| >= 2 && Distinct(order) && scope.competition in leagues
    requires ladder == LadderOf(leagues[scope.competition], scope.through, scale, before)
    ensures Record(rulings, leagues, scope, order, scale, before)
         == if ladder.None? then Err(UnknownCompetition)
            else if leagues[scope.competition].season != scope.season then Err(WrongSeason)
            else if !IsTied(ladder.value.rows, Members(order)) then Err(NotTied)
            else Ok(Decide(rulings, scope, order, Encoded(ladder.value.references)))
  {
  }
}
