/** The synchronisation as one transaction over a SuperScore round's rows. */
module SuperScoreRound {
  import opened Options
  import opened TriggerPlan
  import opened TriggerSync

  class RoundRepository {
    var rows: map<Key, Row>
    var mapping: Option<Mapping>
    var frozen: Option<(int, int)>

    function State(): Round
      reads this
    {
      Round(rows, mapping, frozen)
    }

    constructor (start: Round)
      ensures State() == start
    {
      rows, mapping, frozen := start.rows, start.mapping, start.frozen;
    }

    /** Create or replace one trigger, or refuse and write nothing. */
    method ConfigureLocked(t: Trigger, landed: set<Key>) returns (r: Result<(), Refusal>)
      modifies this`rows
      ensures r.Ok? == Configure(old(rows), t, landed).Ok?
      ensures r.Ok? ==> rows == Configure(old(rows), t, landed).value
      ensures r.Err? ==> rows == old(rows) && r.error == Configure(old(rows), t, landed).error
    {
      var others := Active(rows);
      if !Movable(others, t) { return Err(Rejected); }
      if !NoOtherMain(others, t) { return Err(SecondMain); }
      if t.key in rows {
        var row := rows[t.key];
        if row.activated || t.key in landed { return Err(PlanDiverged); }
        rows := rows[t.key := row.(position := t.position, matches := t.matches, revision := row.revision + 1, removed := false)];
      } else {
        rows := rows[t.key := Row(t.position, t.matches, 1, false, false)];
      }
      return Ok(());
    }

    /** Mirror every removal, advancing each row's revision; an activation landing meanwhile refuses. */
    method ApplyRemovals(keys: set<Key>, landed: set<Key>) returns (ok: bool)
      modifies this`rows
      ensures ok == (keys * landed == {})
      ensures ok ==> rows == Removed(old(rows), keys)
    {
      ghost var start := rows;
      var todo := keys;
      while todo != {}
        invariant todo <= keys
        invariant (keys - todo) * landed == {}
        invariant rows == Removed(start, keys - todo)
      {
        var k :| k in todo;
        if k in landed {
          assert k in keys * landed;
          return false;
        }
        ghost var done := keys - todo;
        assert keys - (todo - {k}) == done + {k};
        if k in rows {
          rows := rows[k := rows[k].(removed := true, revision := rows[k].revision + 1)];
        }
        assert rows == Removed(start, done + {k});
        todo := todo - {k};
      }
      assert keys - {} == keys;
      return true;
    }

    /** Write a validated order, stopping at the first refusal. */
    method ApplySync(order: seq<Trigger>, landed: set<Key>) returns (r: Result<(), Refusal>)
      modifies this`rows
      ensures r.Ok? == ConfigureAll(old(rows), order, landed).Ok?
      ensures r.Ok? ==> rows == ConfigureAll(old(rows), order, landed).value
      ensures r.Err? ==> r.error == ConfigureAll(old(rows), order, landed).error
    {
      ghost var start := rows;
      for i := 0 to |order|
        invariant ConfigureAll(start, order[..i], landed) == Ok(rows)
      {
        assert order[..i + 1][..i] == order[..i];
        var written := ConfigureLocked(order[i], landed);
        if written.Err? {
          ConfigureAllErr(start, order, landed, i + 1);
          return written;
        }
      }
      assert order[..|order|] == order;
      return Ok(());
    }

    /** The triggers whose row does not yet say what the finals week says. */
    method CollectPending(triggers: seq<Trigger>) returns (pending: seq<Trigger>)
      ensures pending == Pending(rows, triggers)
    {
      pending := [];
      for i := 0 to |triggers|
        invariant pending == Pending(rows, triggers[..i])
      {
        assert triggers[..i + 1][..i] == triggers[..i];
        if !InStep(rows, triggers[i]) { pending := pending + [triggers[i]]; }
      }
      assert triggers[..|triggers|] == triggers;
    }

    /** Everything decided before anything is written. */
    method ValidatePlan(week: Week) returns (r: Result<seq<Trigger>, Refusal>)
      ensures r == Validate(rows, week)
    {
      if Obsolete(rows, week) - week.removedKeys != {} { return Err(PlanDiverged); }
      var removals := ToRemove(rows, week);
      if exists k :: k in removals && rows[k].activated { return Err(PlanDiverged); }
      var pending := CollectPending(week.triggers);
      if exists t :: t in pending && IsActive(rows, t.key) && rows[t.key].activated { return Err(PlanDiverged); }
      var planned := PlanTriggerSync(pending, Active(rows) - removals);
      match planned
      case Ok(order) => return Ok(order);
      case Err(_) => return Err(PlanDiverged);
    }

    /** One transaction: mapping correction, removals and moves commit together or not at all. */
    method SynchroniseLocked(week: Week, aflRoundExists: bool, landed: set<Key>) returns (r: Result<(), Refusal>)
      modifies this
      ensures State() == match Synchronise(old(State()), week, aflRoundExists, landed)
                         case Ok(after) => after
                         case Err(_) => old(State())
      ensures r.Ok? == Synchronise(old(State()), week, aflRoundExists, landed).Ok?
      ensures r.Err? ==> r.error == Synchronise(old(State()), week, aflRoundExists, landed).error
      ensures r.Ok? && DistinctKeys(week.triggers) ==> SamePlan(rows, week)
    {
      if DistinctKeys(week.triggers) && Synchronise(State(), week, aflRoundExists, landed).Ok? {
        SynchroniseConverges(State(), week, aflRoundExists, landed);
      }
      if !FrozenInStep(State(), week) { return Err(FrozenMappingDiverged); }
      var validated := ValidatePlan(week);
      if validated.Err? { return Err(validated.error); }
      if !MappingInStep(State(), week) && !aflRoundExists { return Err(NoSuchAflRound); }
      var priorRows, priorMapping := rows, mapping;
      var removals := ToRemove(rows, week);
      mapping := Mapped(State(), week);
      var removed := ApplyRemovals(removals, landed);
      if !removed {
        rows, mapping := priorRows, priorMapping;
        return Err(PlanDiverged);
      }
      r := ApplySync(validated.value, landed);
      if r.Err? { rows, mapping := priorRows, priorMapping; }
    }
  }

  /** A refused prefix refuses the whole order, for the same reason. */
  lemma {:induction false} ConfigureAllErr(rows: map<Key, Row>, order: seq<Trigger>, landed: set<Key>, n: nat)
    requires n <= |order| && ConfigureAll(rows, order[..n], landed).Err?
    ensures ConfigureAll(rows, order, landed) == Err(ConfigureAll(rows, order[..n], landed).error)
    decreases |order| - n
  {
    if n == |order| {
      assert order[..n] == order;
    } else {
      assert order[..n + 1][..n] == order[..n];
      ConfigureAllErr(rows, order, landed, n + 1);
    }
  }
}
