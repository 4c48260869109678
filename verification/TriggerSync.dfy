/**
 Bringing a SuperScore round's AFL mapping and lockout triggers into line with
 the concurrent finals week, in one transaction.
 */
module TriggerSync {
  import opened Options
  import opened TriggerPlan

  /** One trigger row; a removed one keeps its key and its revision. */
  datatype Row = Row(position: Position, matches: set<nat>, revision: nat, removed: bool, activated: bool)

  datatype Mapping = Mapping(season: int, round: int, revision: nat)

  /** The SuperScore round: its trigger rows, mapping head and, once set up, its frozen mapping. */
  datatype Round = Round(rows: map<Key, Row>, mapping: Option<Mapping>, frozen: Option<(int, int)>)

  /** The finals week as read under the same lock. */
  datatype Week = Week(season: int, round: int, triggers: seq<Trigger>, removedKeys: set<Key>)

  datatype Refusal = FrozenMappingDiverged | PlanDiverged | NoSuchAflRound | Rejected | SecondMain

  // ----- Reading the plans -----

  function Active(rows: map<Key, Row>): Plan {
    map k | k in rows && !rows[k].removed :: rows[k].position
  }

  function Keys(ts: seq<Trigger>): set<Key> {
    set t | t in ts :: t.key
  }

  predicate IsActive(rows: map<Key, Row>, k: Key) {
    k in rows && !rows[k].removed
  }

  /** The row already says what the finals week says. */
  predicate InStep(rows: map<Key, Row>, t: Trigger) {
    IsActive(rows, t.key) && rows[t.key].position == t.position && rows[t.key].matches == t.matches
  }

  function Pending(rows: map<Key, Row>, ts: seq<Trigger>): seq<Trigger> {
    if ts == [] then []
    else Pending(rows, ts[..|ts| - 1]) + if InStep(rows, ts[|ts| - 1]) then [] else [ts[|ts| - 1]]
  }

  function Obsolete(rows: map<Key, Row>, week: Week): set<Key> {
    Active(rows).Keys - Keys(week.triggers)
  }

  function ToRemove(rows: map<Key, Row>, week: Week): set<Key> {
    Obsolete(rows, week) * week.removedKeys
  }

  // ----- Validation -----

  /** A trigger that has activated can neither be removed nor changed. */
  predicate Locked(rows: map<Key, Row>, week: Week) {
    || (exists k :: k in ToRemove(rows, week) && rows[k].activated)
    || (exists t :: t in Pending(rows, week.triggers) && IsActive(rows, t.key) && rows[t.key].activated)
  }

  function PlanMoves(rows: map<Key, Row>, week: Week): Result<seq<Trigger>, seq<Trigger>> {
    Planned(Ordering, Pending(rows, week.triggers), Active(rows) - ToRemove(rows, week))
  }

  function Validate(rows: map<Key, Row>, week: Week): Result<seq<Trigger>, Refusal> {
    if Obsolete(rows, week) - week.removedKeys != {} || Locked(rows, week) then Err(PlanDiverged)
    else match PlanMoves(rows, week)
      case Ok(order) => Ok(order)
      case Err(_) => Err(PlanDiverged)
  }

  // ----- The writes -----

  function Removed(rows: map<Key, Row>, ks: set<Key>): map<Key, Row> {
    map k | k in rows :: if k in ks then rows[k].(removed := true, revision := rows[k].revision + 1) else rows[k]
  }

  /** Create or replace one trigger, under the checks made at write time. */
  function Configure(rows: map<Key, Row>, t: Trigger, landed: set<Key>): Result<map<Key, Row>, Refusal> {
    if !Movable(Active(rows), t) then Err(Rejected)
    else if !NoOtherMain(Active(rows), t) then Err(SecondMain)
    else if t.key in rows && (rows[t.key].activated || t.key in landed) then Err(PlanDiverged)
    else Ok(rows[t.key := if t.key in rows
                          then rows[t.key].(position := t.position, matches := t.matches,
                                            revision := rows[t.key].revision + 1, removed := false)
                          else Row(t.position, t.matches, 1, false, false)])
  }

  function ConfigureAll(rows: map<Key, Row>, order: seq<Trigger>, landed: set<Key>): Result<map<Key, Row>, Refusal> {
    if order == [] then Ok(rows)
    else
      var rows' :- ConfigureAll(rows, order[..|order| - 1], landed);
      Configure(rows', order[|order| - 1], landed)
  }

  predicate MappingInStep(r: Round, week: Week) {
    r.mapping.Some? && r.mapping.value.season == week.season && r.mapping.value.round == week.round
  }

  predicate FrozenInStep(r: Round, week: Week) {
    r.frozen.Some? ==> r.frozen.value == (week.season, week.round)
  }

  /** Accept or correct the mapping head onto the finals week's AFL round. */
  function Mapped(r: Round, week: Week): Option<Mapping> {
    if MappingInStep(r, week) then r.mapping
    else Some(Mapping(week.season, week.round, if r.mapping.Some? then r.mapping.value.revision + 1 else 1))
  }

  /**
   The whole transaction. `landed` are the triggers whose activation commits
   between validation and the writes: activation takes none of the locks held.
   */
  function Synchronise(r: Round, week: Week, aflRoundExists: bool, landed: set<Key>): Result<Round, Refusal> {
    if !FrozenInStep(r, week) then Err(FrozenMappingDiverged)
    else
      var order :- Validate(r.rows, week);
      if !MappingInStep(r, week) && !aflRoundExists then Err(NoSuchAflRound)
      else if ToRemove(r.rows, week) * landed != {} then Err(PlanDiverged)
      else
        var rows :- ConfigureAll(Removed(r.rows, ToRemove(r.rows, week)), order, landed);
        Ok(Round(rows, Mapped(r, week), r.frozen))
  }

  // ----- The writes follow the plan -----

  lemma RemovedActive(rows: map<Key, Row>, ks: set<Key>)
    ensures Active(Removed(rows, ks)) == Active(rows) - ks
  {
  }

  lemma ConfigureActive(rows: map<Key, Row>, t: Trigger, landed: set<Key>)
    requires Configure(rows, t, landed).Ok?
    ensures Active(Configure(rows, t, landed).value) == Move(Active(rows), t)
  {
    var rows' := Configure(rows, t, landed).value;
    assert forall k :: k in Active(rows') <==> k in Move(Active(rows), t);
  }

  lemma {:induction false} ConfigureAllActive(rows: map<Key, Row>, order: seq<Trigger>, landed: set<Key>)
    requires ConfigureAll(rows, order, landed).Ok?
    ensures Active(ConfigureAll(rows, order, landed).value) == MoveAll(Active(rows), order)
    ensures Writable(Active(rows), order)
  {
    if order != [] {
      var n := |order| - 1;
      ConfigureAllActive(rows, order[..n], landed);
      ConfigureActive(ConfigureAll(rows, order[..n], landed).value, order[n], landed);
    }
  }

  /** A key the order does not mention keeps its row; one it mentions ends as the order says. */
  lemma {:induction false} ConfigureAllRows(rows: map<Key, Row>, order: seq<Trigger>, landed: set<Key>, k: Key)
    requires DistinctKeys(order) && ConfigureAll(rows, order, landed).Ok?
    ensures var rows' := ConfigureAll(rows, order, landed).value;
            && (k in rows' <==> k in rows || Moved(order, k))
            && (!Moved(order, k) && k in rows ==> rows'[k] == rows[k])
            && (forall i :: 0 <= i < |order| && order[i].key == k ==>
                  !rows'[k].removed && rows'[k].position == order[i].position && rows'[k].matches == order[i].matches
                  && rows'[k].activated == (k in rows && rows[k].activated)
                  && rows'[k].revision == (if k in rows then rows[k].revision else 0) + 1)
  {
    if order != [] {
      var n := |order| - 1;
      PrefixDistinct(order, n);
      ConfigureAllRows(rows, order[..n], landed, k);
      if order[n].key == k {
        NotYetMoved(order, n, n);
      } else if Moved(order, k) {
        var i :| 0 <= i < |order| && order[i].key == k;
        assert order[..n][i].key == k;
      }
      if Moved(order[..n], k) {
        var i :| 0 <= i < n && order[..n][i].key == k;
        assert order[i].key == k;
      }
      forall i | 0 <= i < |order| && order[i].key == k
        ensures i < n ==> order[..n][i] == order[i]
      {
      }
    }
  }

  /** An order is written in full exactly when it is writable and nothing in it has activated, before or meanwhile. */
  lemma {:induction false} ConfigureAllIff(rows: map<Key, Row>, order: seq<Trigger>, landed: set<Key>)
    requires DistinctKeys(order)
    ensures ConfigureAll(rows, order, landed).Ok?
       <==> Writable(Active(rows), order)
            && forall i :: 0 <= i < |order| ==> !(order[i].key in rows && (rows[order[i].key].activated || order[i].key in landed))
  {
    if order != [] {
      var n := |order| - 1;
      PrefixDistinct(order, n);
      ConfigureAllIff(rows, order[..n], landed);
      if ConfigureAll(rows, order[..n], landed).Ok? {
        ConfigureAllActive(rows, order[..n], landed);
        NotYetMoved(order, n, n);
        ConfigureAllRows(rows, order[..n], landed, order[n].key);
        assert forall i :: 0 <= i < n ==> order[..n][i] == order[i];
      } else {
        assert forall i :: 0 <= i < n ==> order[..n][i] == order[i];
      }
    }
  }

  // ----- Convergence -----

  lemma {:induction false} PendingMember(rows: map<Key, Row>, ts: seq<Trigger>, t: Trigger)
    ensures t in Pending(rows, ts) <==> t in ts && !InStep(rows, t)
  {
    if ts != [] {
      var n := |ts| - 1;
      PendingMember(rows, ts[..n], t);
      assert ts == ts[..n] + [ts[n]];
    }
  }

  lemma {:induction false} PendingDistinct(rows: map<Key, Row>, ts: seq<Trigger>)
    requires DistinctKeys(ts)
    ensures DistinctKeys(Pending(rows, ts))
  {
    if ts != [] {
      var n := |ts| - 1;
      PrefixDistinct(ts, n);
      PendingDistinct(rows, ts[..n]);
      forall t | t in Pending(rows, ts[..n]) ensures t.key != ts[n].key {
        PendingMember(rows, ts[..n], t);
        var i :| 0 <= i < n && ts[..n][i] == t;
        assert ts[i] == t;
      }
    }
  }

  /** The round's active triggers are the finals week's, key for key. */
  ghost predicate SamePlan(rows: map<Key, Row>, week: Week) {
    && (forall t :: t in week.triggers ==> InStep(rows, t))
    && (forall k :: IsActive(rows, k) ==> k in Keys(week.triggers))
  }

  lemma OrderIsPending(rows: map<Key, Row>, week: Week)
    requires DistinctKeys(week.triggers) && PlanMoves(rows, week).Ok?
    ensures DistinctKeys(PlanMoves(rows, week).value)
    ensures Safe(Ordering, Active(rows) - ToRemove(rows, week), PlanMoves(rows, week).value)
    ensures forall t :: t in PlanMoves(rows, week).value <==> t in week.triggers && !InStep(rows, t)
  {
    var pending := Pending(rows, week.triggers);
    var order := PlanMoves(rows, week).value;
    PendingDistinct(rows, week.triggers);
    PlannedIffSomeSafeOrder(Ordering, pending, Active(rows) - ToRemove(rows, week));
    ReordersDistinct(order, pending);
    forall t ensures t in order <==> t in week.triggers && !InStep(rows, t) {
      ReordersMember(order, pending, t);
      PendingMember(rows, week.triggers, t);
    }
  }

  /** An accepted synchronisation leaves the round's plan and mapping equal to the finals week's. */
  lemma SynchroniseConverges(r: Round, week: Week, aflRoundExists: bool, landed: set<Key>)
    requires DistinctKeys(week.triggers)
    requires Synchronise(r, week, aflRoundExists, landed).Ok?
    ensures var r' := Synchronise(r, week, aflRoundExists, landed).value;
            SamePlan(r'.rows, week) && MappingInStep(r', week) && r'.frozen == r.frozen
  {
    var order := PlanMoves(r.rows, week).value;
    var rows' := ConfigureAll(Removed(r.rows, ToRemove(r.rows, week)), order, landed).value;
    OrderIsPending(r.rows, week);
    forall t | t in week.triggers ensures InStep(rows', t) {
      SyncedInStep(r.rows, week, order, rows', landed, t);
    }
    forall k | IsActive(rows', k) ensures k in Keys(week.triggers) {
      SyncedKey(r.rows, week, order, rows', landed, k);
    }
  }

  lemma SyncedKey(rows: map<Key, Row>, week: Week, order: seq<Trigger>, rows': map<Key, Row>, landed: set<Key>, k: Key)
    requires DistinctKeys(order) && forall u :: u in order ==> u in week.triggers
    requires Obsolete(rows, week) - week.removedKeys == {}
    requires ConfigureAll(Removed(rows, ToRemove(rows, week)), order, landed) == Ok(rows') && IsActive(rows', k)
    ensures k in Keys(week.triggers)
  {
    ConfigureAllRows(Removed(rows, ToRemove(rows, week)), order, landed, k);
    if Moved(order, k) {
      var i :| 0 <= i < |order| && order[i].key == k;
      assert order[i] in order;
    } else {
      assert k in Active(rows) && k !in ToRemove(rows, week);
      assert k !in Obsolete(rows, week) - week.removedKeys;
    }
  }

  lemma SyncedInStep(rows: map<Key, Row>, week: Week, order: seq<Trigger>, rows': map<Key, Row>, landed: set<Key>, t: Trigger)
    requires DistinctKeys(week.triggers) && DistinctKeys(order) && t in week.triggers
    requires forall u :: u in order <==> u in week.triggers && !InStep(rows, u)
    requires ConfigureAll(Removed(rows, ToRemove(rows, week)), order, landed) == Ok(rows')
    ensures InStep(rows', t)
  {
    ConfigureAllRows(Removed(rows, ToRemove(rows, week)), order, landed, t.key);
    if InStep(rows, t) {
      assert t.key in Keys(week.triggers);
      forall i | 0 <= i < |order| ensures order[i].key != t.key {
        assert order[i] in order;
        if order[i].key == t.key { KeyDetermines(week.triggers, t, order[i]); assert false; }
      }
    } else {
      var i :| 0 <= i < |order| && order[i] == t;
    }
  }

  lemma KeyDetermines(ts: seq<Trigger>, t: Trigger, u: Trigger)
    requires DistinctKeys(ts) && t in ts && u in ts && t.key == u.key
    ensures t == u
  {
  }

  lemma {:induction false} NothingPending(rows: map<Key, Row>, ts: seq<Trigger>)
    requires forall t :: t in ts ==> InStep(rows, t)
    ensures Pending(rows, ts) == []
  {
    if ts != [] { NothingPending(rows, ts[..|ts| - 1]); }
  }

  /** A second synchronisation finds nothing to do: no trigger row and no mapping revision is written. */
  lemma SynchroniseTwice(r: Round, week: Week, aflRoundExists: bool, again: bool, landed: set<Key>)
    requires DistinctKeys(week.triggers)
    requires Synchronise(r, week, aflRoundExists, landed).Ok?
    ensures var r' := Synchronise(r, week, aflRoundExists, landed).value;
            Synchronise(r', week, again, {}) == Ok(r')
  {
    var r' := Synchronise(r, week, aflRoundExists, landed).value;
    SynchroniseConverges(r, week, aflRoundExists, landed);
    NothingPending(r'.rows, week.triggers);
    assert Obsolete(r'.rows, week) == {};
    assert ToRemove(r'.rows, week) == {};
    assert Removed(r'.rows, {}) == r'.rows;
  }

  /** A key the finals week has, differently here or not at all. */
  ghost predicate Differs(rows: map<Key, Row>, week: Week, k: Key) {
    exists t :: t in week.triggers && t.key == k
                && !(k in rows && !rows[k].removed && rows[k].position == t.position && rows[k].matches == t.matches)
  }

  ghost predicate Absent(week: Week, k: Key) {
    forall t :: t in week.triggers ==> t.key != k
  }

  /** Only what had to change gets a new revision, one higher; the rest, removed rows included, stays as it was. */
  lemma SynchroniseRevises(r: Round, week: Week, aflRoundExists: bool, landed: set<Key>, k: Key)
    requires DistinctKeys(week.triggers) && Synchronise(r, week, aflRoundExists, landed).Ok?
    ensures var r' := Synchronise(r, week, aflRoundExists, landed).value;
            && (Differs(r.rows, week, k) ==> k in r'.rows && r'.rows[k].revision == (if k in r.rows then r.rows[k].revision else 0) + 1)
            && (k in r.rows && !r.rows[k].removed && Absent(week, k) ==>
                  k in r'.rows && r'.rows[k] == r.rows[k].(removed := true, revision := r.rows[k].revision + 1))
            && (k in r.rows && !Differs(r.rows, week, k) && (r.rows[k].removed || !Absent(week, k)) ==> k in r'.rows && r'.rows[k] == r.rows[k])
            && (k in r'.rows ==> k in r.rows || Differs(r.rows, week, k))
  {
    var order := PlanMoves(r.rows, week).value;
    OrderIsPending(r.rows, week);
    ConfigureAllRows(Removed(r.rows, ToRemove(r.rows, week)), order, landed, k);
    MovedIffDiffers(r.rows, week, order, k);
    assert Absent(week, k) <==> k !in Keys(week.triggers);
    if k in r.rows && !r.rows[k].removed && Absent(week, k) {
      assert k in Obsolete(r.rows, week);
      assert k in Obsolete(r.rows, week) - week.removedKeys <==> k !in week.removedKeys;
      assert k in ToRemove(r.rows, week);
    }
  }

  lemma MovedIffDiffers(rows: map<Key, Row>, week: Week, order: seq<Trigger>, k: Key)
    requires forall t :: t in order <==> t in week.triggers && !InStep(rows, t)
    ensures Moved(order, k) <==> Differs(rows, week, k)
  {
    if Differs(rows, week, k) {
      var t :| t in week.triggers && t.key == k
               && !(k in rows && !rows[k].removed && rows[k].position == t.position && rows[k].matches == t.matches);
      assert t in order;
    }
    if Moved(order, k) {
      var i :| 0 <= i < |order| && order[i].key == k;
      assert order[i] in order;
    }
  }

  /** The mapping head moves on exactly when it pointed elsewhere, by one revision. */
  lemma SynchroniseRemaps(r: Round, week: Week, aflRoundExists: bool, landed: set<Key>)
    requires Synchronise(r, week, aflRoundExists, landed).Ok?
    ensures var r' := Synchronise(r, week, aflRoundExists, landed).value;
            && r'.mapping.Some? && r'.mapping.value.season == week.season && r'.mapping.value.round == week.round
            && r'.mapping.value.revision
               == (if r.mapping.None? then 1
                   else if r.mapping.value.season == week.season && r.mapping.value.round == week.round then r.mapping.value.revision
                   else r.mapping.value.revision + 1)
  {
  }

  // ----- Exactly when it is accepted -----

  /** Both plans as their own repository keeps them. */
  ghost predicate WellKept(r: Round, week: Week) {
    && SingleMain(Active(r.rows))
    && DistinctKeys(week.triggers)
    && (forall t, u :: t in week.triggers && u in week.triggers && t.position.kind == Main && u.position.kind == Main ==> t == u)
    && (forall k :: k in r.rows && r.rows[k].activated ==> !r.rows[k].removed)
  }

  lemma TargetSingleMain(r: Round, week: Week)
    requires WellKept(r, week) && Obsolete(r.rows, week) <= week.removedKeys && PlanMoves(r.rows, week).Ok?
    ensures SingleMain(MoveAll(Active(r.rows) - ToRemove(r.rows, week), PlanMoves(r.rows, week).value))
  {
    var plan := Active(r.rows) - ToRemove(r.rows, week);
    var order := PlanMoves(r.rows, week).value;
    var target := MoveAll(plan, order);
    OrderIsPending(r.rows, week);
    forall k | k in target ensures exists t :: t in week.triggers && t.key == k && t.position == target[k] {
      MoveAllAt(plan, order, k);
      if Moved(order, k) {
        var i :| 0 <= i < |order| && order[i].key == k;
        assert order[i] in week.triggers;
      } else {
        assert k in Keys(week.triggers);
        var t :| t in week.triggers && t.key == k;
        assert InStep(r.rows, t);
      }
    }
  }

  /** With nothing activated in the way, the planned order is written exactly when it hands the main role over
      and nothing it moves activates meanwhile. */
  lemma OrderWritable(r: Round, week: Week, landed: set<Key>)
    requires WellKept(r, week) && Obsolete(r.rows, week) <= week.removedKeys && !Locked(r.rows, week) && PlanMoves(r.rows, week).Ok?
    ensures ConfigureAll(Removed(r.rows, ToRemove(r.rows, week)), PlanMoves(r.rows, week).value, landed).Ok?
       <==> HandsOver(Active(r.rows) - ToRemove(r.rows, week), PlanMoves(r.rows, week).value) && !Overtaken(r.rows, week, landed)
  {
    var rows := Removed(r.rows, ToRemove(r.rows, week));
    var order := PlanMoves(r.rows, week).value;
    OrderIsPending(r.rows, week);
    TargetSingleMain(r, week);
    RemovedActive(r.rows, ToRemove(r.rows, week));
    WritableIffHandsOver(Active(rows), order);
    ConfigureAllIff(rows, order, landed);
    forall i | 0 <= i < |order| ensures !(order[i].key in rows && rows[order[i].key].activated) {
      assert order[i] in week.triggers && !InStep(r.rows, order[i]);
      PendingMember(r.rows, week.triggers, order[i]);
    }
    if Overtaken(r.rows, week, landed) {
      var t :| t in week.triggers && !InStep(r.rows, t) && t.key in r.rows && t.key in landed;
      assert t in order;
    } else {
      forall i | 0 <= i < |order| ensures !(order[i].key in rows && order[i].key in landed) {
        assert order[i] in week.triggers && !InStep(r.rows, order[i]);
      }
    }
  }

  /** A trigger about to be changed activates between validation and its write. */
  predicate Overtaken(rows: map<Key, Row>, week: Week, landed: set<Key>) {
    exists t :: t in week.triggers && !InStep(rows, t) && t.key in rows && t.key in landed
  }

  /** The finals week's triggers whose row here is missing, removed or different, in their order. */
  function Differing(rows: map<Key, Row>, ts: seq<Trigger>): seq<Trigger> {
    if ts == [] then []
    else
      var t := ts[0];
      (if t.key in rows && !rows[t.key].removed && rows[t.key].position == t.position && rows[t.key].matches == t.matches then [] else [t])
      + Differing(rows, ts[1..])
  }

  /** The active positions of the keys the finals week still has. */
  function Remaining(rows: map<Key, Row>, ts: seq<Trigger>): Plan {
    map k | k in rows && !rows[k].removed && (exists t :: t in ts && t.key == k) :: rows[k].position
  }

  lemma {:induction false} DifferingConcat(rows: map<Key, Row>, a: seq<Trigger>, b: seq<Trigger>)
    ensures Differing(rows, a + b) == Differing(rows, a) + Differing(rows, b)
  {
    if a == [] {
      assert a + b == b;
    } else {
      assert (a + b)[1..] == a[1..] + b;
      DifferingConcat(rows, a[1..], b);
    }
  }

  lemma {:induction false} DifferingArePending(rows: map<Key, Row>, ts: seq<Trigger>)
    ensures Differing(rows, ts) == Pending(rows, ts)
  {
    if ts != [] {
      var n := |ts| - 1;
      assert ts == ts[..n] + [ts[n]];
      DifferingArePending(rows, ts[..n]);
      DifferingConcat(rows, ts[..n], [ts[n]]);
      assert [ts[n]][1..] == [];
    }
  }

  lemma RemainingIsLeft(rows: map<Key, Row>, week: Week)
    requires Obsolete(rows, week) <= week.removedKeys
    ensures Remaining(rows, week.triggers) == Active(rows) - ToRemove(rows, week)
  {
    forall k ensures k in Keys(week.triggers) <==> exists t :: t in week.triggers && t.key == k {}
  }

  lemma LockedMeans(rows: map<Key, Row>, week: Week)
    ensures Locked(rows, week)
       <==> || (exists k :: k in week.removedKeys && k in rows && !rows[k].removed && rows[k].activated
                            && forall t :: t in week.triggers ==> t.key != k)
            || (exists t :: t in week.triggers && t.key in rows && !rows[t.key].removed && rows[t.key].activated
                            && (rows[t.key].position != t.position || rows[t.key].matches != t.matches))
  {
    forall k ensures k in ToRemove(rows, week)
                <==> k in week.removedKeys && k in rows && !rows[k].removed && forall t :: t in week.triggers ==> t.key != k
    {
      assert k in Keys(week.triggers) <==> exists t :: t in week.triggers && t.key == k;
    }
    forall t: Trigger ensures t in Pending(rows, week.triggers) <==> t in week.triggers && !InStep(rows, t) {
      PendingMember(rows, week.triggers, t);
    }
  }

  lemma ObsoleteMeans(rows: map<Key, Row>, week: Week)
    ensures Obsolete(rows, week) <= week.removedKeys
       <==> forall k :: k in rows && !rows[k].removed ==> k in week.removedKeys || exists t :: t in week.triggers && t.key == k
  {
    forall k ensures k in Obsolete(rows, week) <==> k in rows && !rows[k].removed && !exists t :: t in week.triggers && t.key == k {
      assert k in Keys(week.triggers) <==> exists t :: t in week.triggers && t.key == k;
    }
  }

  lemma RemovalsOvertakenMeans(rows: map<Key, Row>, week: Week, landed: set<Key>)
    ensures ToRemove(rows, week) * landed != {}
       <==> exists k :: k in week.removedKeys && k in rows && !rows[k].removed && k in landed
                        && forall t :: t in week.triggers ==> t.key != k
  {
    forall k ensures k in ToRemove(rows, week)
                <==> k in week.removedKeys && k in rows && !rows[k].removed && forall t :: t in week.triggers ==> t.key != k
    {
      assert k in Keys(week.triggers) <==> exists t :: t in week.triggers && t.key == k;
    }
    if k :| k in week.removedKeys && k in rows && !rows[k].removed && k in landed && forall t :: t in week.triggers ==> t.key != k {
      assert k in ToRemove(rows, week) * landed;
    }
  }

  /**
   Synchronisation is accepted exactly when the frozen mapping agrees; the AFL
   round exists if the mapping must move; every active trigger is one of the
   finals week's or was removed there; none of those removed there, and no
   trigger that differs from the finals week's, has activated or activates
   before its write; and some safe order of the moves exists, the one found
   handing the main role over.
   */
  lemma SynchroniseAcceptedIff(r: Round, week: Week, aflRoundExists: bool, landed: set<Key>)
    requires WellKept(r, week)
    ensures Synchronise(r, week, aflRoundExists, landed).Ok?
       <==> && (r.frozen.Some? ==> r.frozen.value == (week.season, week.round))
            && (aflRoundExists || (r.mapping.Some? && r.mapping.value.season == week.season && r.mapping.value.round == week.round))
            && (forall k :: k in r.rows && !r.rows[k].removed ==> k in week.removedKeys || exists t :: t in week.triggers && t.key == k)
            && !(exists k :: k in week.removedKeys && k in r.rows && !r.rows[k].removed && (r.rows[k].activated || k in landed)
                             && forall t :: t in week.triggers ==> t.key != k)
            && !(exists t :: t in week.triggers && t.key in r.rows && !r.rows[t.key].removed && r.rows[t.key].activated
                             && (r.rows[t.key].position != t.position || r.rows[t.key].matches != t.matches))
            && !(exists t :: t in week.triggers && t.key in r.rows && t.key in landed
                             && (r.rows[t.key].removed || r.rows[t.key].position != t.position || r.rows[t.key].matches != t.matches))
            && var planned := Planned(Ordering, Differing(r.rows, week.triggers), Remaining(r.rows, week.triggers));
               planned.Ok? && HandsOver(Remaining(r.rows, week.triggers), planned.value)
  {
    SynchroniseDecided(r, week, aflRoundExists, landed);
    LockedMeans(r.rows, week);
    ObsoleteMeans(r.rows, week);
    RemovalsOvertakenMeans(r.rows, week, landed);
    DifferingArePending(r.rows, week.triggers);
    if Obsolete(r.rows, week) <= week.removedKeys { RemainingIsLeft(r.rows, week); }
  }

  lemma SynchroniseDecided(r: Round, week: Week, aflRoundExists: bool, landed: set<Key>)
    requires WellKept(r, week)
    ensures Synchronise(r, week, aflRoundExists, landed).Ok?
       <==> && FrozenInStep(r, week) && (MappingInStep(r, week) || aflRoundExists)
            && Obsolete(r.rows, week) <= week.removedKeys && !Locked(r.rows, week)
            && ToRemove(r.rows, week) * landed == {} && !Overtaken(r.rows, week, landed)
            && PlanMoves(r.rows, week).Ok?
            && HandsOver(Active(r.rows) - ToRemove(r.rows, week), PlanMoves(r.rows, week).value)
  {
    if Obsolete(r.rows, week) <= week.removedKeys && !Locked(r.rows, week) && PlanMoves(r.rows, week).Ok? {
      assert Obsolete(r.rows, week) - week.removedKeys == {};
      OrderWritable(r, week, landed);
    } else {
      assert Validate(r.rows, week).Err? by {
        if !(Obsolete(r.rows, week) <= week.removedKeys) {
          var k :| k in Obsolete(r.rows, week) && k !in week.removedKeys;
          assert k in Obsolete(r.rows, week) - week.removedKeys;
        }
      }
    }
  }

  // ----- A plan the planner's order cannot be written for -----

  /** Three moves in a row, one plan at a time. */
  lemma ThreeMoves(rule: Rule, plan: Plan, x: Trigger, y: Trigger, z: Trigger)
    ensures MoveAll(plan, [x]) == Move(plan, x)
    ensures MoveAll(plan, [x, y]) == Move(Move(plan, x), y)
    ensures Safe(rule, plan, [x, y, z])
       <==> CanMove(rule, plan, x) && CanMove(rule, Move(plan, x), y) && CanMove(rule, Move(Move(plan, x), y), z)
  {
    assert [x][..0] == [] && [x, y][..1] == [x] && [x, y, z][..2] == [x, y];
    assert MoveAll(plan, []) == plan && Safe(rule, plan, []);
    assert Safe(rule, plan, [x]) <==> CanMove(rule, plan, x);
    assert Safe(rule, plan, [x, y]) <==> Safe(rule, plan, [x]) && CanMove(rule, MoveAll(plan, [x]), y);
  }

  /** Main trigger 0 at sequence 5 and selective 1 at 1 ... */
  const BEFORE: Plan := map[0 := Position(Main, 5), 1 := Position(Selective, 1)]

  /** ... are to become selective 0 at 1, selective 1 at 2 and main 2 at 9. */
  const OLD_MAIN := Trigger(0, Position(Selective, 1), {0})
  const SHIFTED := Trigger(1, Position(Selective, 2), {1})
  const NEW_MAIN := Trigger(2, Position(Main, 9), {2})

  const STALE_ROUND := Round(map[0 := Row(Position(Main, 5), {0}, 1, false, false), 1 := Row(Position(Selective, 1), {1}, 1, false, false)],
                             Some(Mapping(2026, 25, 1)), None)

  const NEXT_WEEK := Week(2026, 25, [OLD_MAIN, SHIFTED, NEW_MAIN], {})

  lemma FirstPass()
    ensures Pass(Ordering, [OLD_MAIN, SHIFTED, NEW_MAIN], [], BEFORE) == ([OLD_MAIN], [SHIFTED, NEW_MAIN])
    ensures CanMove(Ordering, MoveAll(BEFORE, [SHIFTED, NEW_MAIN]), OLD_MAIN)
  {
    ThreeMoves(Ordering, BEFORE, SHIFTED, NEW_MAIN, OLD_MAIN);
    FirstMoves();
    assert [] + [OLD_MAIN] == [OLD_MAIN] && [OLD_MAIN] + [SHIFTED] == [OLD_MAIN, SHIFTED] && [] + [SHIFTED] == [SHIFTED];
    assert [OLD_MAIN, SHIFTED] + [NEW_MAIN] == [OLD_MAIN, SHIFTED, NEW_MAIN] && [SHIFTED] + [NEW_MAIN] == [SHIFTED, NEW_MAIN];
    PassSnoc(Ordering, [], OLD_MAIN, [], BEFORE);
    PassSnoc(Ordering, [OLD_MAIN], SHIFTED, [], BEFORE);
    PassSnoc(Ordering, [OLD_MAIN, SHIFTED], NEW_MAIN, [], BEFORE);
  }

  lemma FirstMoves()
    ensures !Movable(BEFORE, OLD_MAIN) && Movable(BEFORE, SHIFTED) && Movable(Move(BEFORE, SHIFTED), NEW_MAIN)
    ensures Movable(Move(Move(BEFORE, SHIFTED), NEW_MAIN), OLD_MAIN)
  {
    assert Occupied(BEFORE, OLD_MAIN) by { assert 1 in BEFORE && BEFORE[1].sequence == 1; }
  }

  /** The first pass keeps 0 back behind 1 and moves 1 and 2; the second moves 0. */
  lemma PlannedLate()
    ensures Planned(Ordering, [OLD_MAIN, SHIFTED, NEW_MAIN], BEFORE) == Ok([SHIFTED, NEW_MAIN, OLD_MAIN])
  {
    FirstPass();
    PassSnoc(Ordering, [], OLD_MAIN, [SHIFTED, NEW_MAIN], BEFORE);
    assert [] + [OLD_MAIN] == [OLD_MAIN] && [SHIFTED, NEW_MAIN] + [OLD_MAIN] == [SHIFTED, NEW_MAIN, OLD_MAIN];
    assert Passes(Ordering, [], [SHIFTED, NEW_MAIN, OLD_MAIN], BEFORE) == Ok([SHIFTED, NEW_MAIN, OLD_MAIN]);
    assert Passes(Ordering, [OLD_MAIN], [SHIFTED, NEW_MAIN], BEFORE) == Ok([SHIFTED, NEW_MAIN, OLD_MAIN]);
  }

  lemma AllPending()
    ensures Pending(STALE_ROUND.rows, [OLD_MAIN, SHIFTED, NEW_MAIN]) == [OLD_MAIN, SHIFTED, NEW_MAIN]
  {
    var rows := STALE_ROUND.rows;
    assert [OLD_MAIN][..0] == [] && [OLD_MAIN, SHIFTED][..1] == [OLD_MAIN] && [OLD_MAIN, SHIFTED, NEW_MAIN][..2] == [OLD_MAIN, SHIFTED];
    assert Pending(rows, [OLD_MAIN]) == [OLD_MAIN];
    assert Pending(rows, [OLD_MAIN, SHIFTED]) == [OLD_MAIN, SHIFTED];
  }

  /** Writing 1 succeeds; writing 2 meets 0 still main. */
  lemma SecondWriteRefused(rows: map<Key, Row>)
    requires Active(rows) == BEFORE && forall k :: k in rows ==> !rows[k].activated
    ensures ConfigureAll(rows, [SHIFTED, NEW_MAIN, OLD_MAIN], {}) == Err(SecondMain)
  {
    assert [SHIFTED][..0] == [] && [SHIFTED, NEW_MAIN][..1] == [SHIFTED] && [SHIFTED, NEW_MAIN, OLD_MAIN][..2] == [SHIFTED, NEW_MAIN];
    assert Movable(BEFORE, SHIFTED);
    assert ConfigureAll(rows, [], {}) == Ok(rows) && Configure(rows, SHIFTED, {}).Ok?;
    ConfigureActive(rows, SHIFTED, {});
    var next := Configure(rows, SHIFTED, {}).value;
    assert ConfigureAll(rows, [SHIFTED], {}) == Ok(next);
    assert Active(next) == Move(BEFORE, SHIFTED);
    assert Active(next)[0].kind == Main;
    assert Configure(next, NEW_MAIN, {}) == Err(SecondMain);
    assert ConfigureAll(rows, [SHIFTED, NEW_MAIN], {}) == Err(SecondMain);
  }

  /**
   The gap is real: this round and week are what each repository keeps, the
   planner returns 1, 2, 0, writing 2 meets 0 still main and the transaction is
   refused, although 1, 0, 2 would have been written.
   */
  lemma PlannerCanMissTheHandover()
    ensures WellKept(STALE_ROUND, NEXT_WEEK) && Legal(Active(STALE_ROUND.rows))
    ensures Synchronise(STALE_ROUND, NEXT_WEEK, true, {}) == Err(SecondMain)
    ensures Writable(Active(STALE_ROUND.rows), [SHIFTED, OLD_MAIN, NEW_MAIN])
    ensures Planned(OneMain, Pending(STALE_ROUND.rows, NEXT_WEEK.triggers), Active(STALE_ROUND.rows)).Ok?
  {
    StaleIsWellKept();
    AllPending();
    RefusedAtTheSecondWrite();
    AnotherOrderIsWritable();
  }

  lemma StaleIsActive()
    ensures Active(STALE_ROUND.rows) == BEFORE
  {
  }

  lemma BeforeIsLegal()
    ensures Legal(BEFORE) && SingleMain(BEFORE)
  {
  }

  lemma NextWeekIsKept()
    ensures DistinctKeys(NEXT_WEEK.triggers)
    ensures forall t, u :: t in NEXT_WEEK.triggers && u in NEXT_WEEK.triggers && t.position.kind == Main && u.position.kind == Main ==> t == u
  {
    forall t | t in NEXT_WEEK.triggers && t.position.kind == Main ensures t == NEW_MAIN {}
  }

  lemma StaleIsWellKept()
    ensures WellKept(STALE_ROUND, NEXT_WEEK) && Active(STALE_ROUND.rows) == BEFORE && Legal(BEFORE)
  {
    StaleIsActive();
    BeforeIsLegal();
    NextWeekIsKept();
  }

  lemma OtherMoves()
    ensures CanMove(OneMain, BEFORE, SHIFTED) && CanMove(OneMain, Move(BEFORE, SHIFTED), OLD_MAIN)
    ensures CanMove(OneMain, Move(Move(BEFORE, SHIFTED), OLD_MAIN), NEW_MAIN)
  {
  }

  lemma Swapped<T>(x: T, y: T, z: T)
    ensures multiset([x, y, z]) == multiset([y, x, z])
  {
    assert [x, y, z] == [x] + [y] + [z] && [y, x, z] == [y] + [x] + [z];
  }

  lemma AnotherOrderIsWritable()
    ensures Writable(BEFORE, [SHIFTED, OLD_MAIN, NEW_MAIN])
    ensures Planned(OneMain, [OLD_MAIN, SHIFTED, NEW_MAIN], BEFORE).Ok?
  {
    ThreeMoves(OneMain, BEFORE, SHIFTED, OLD_MAIN, NEW_MAIN);
    OtherMoves();
    Swapped(SHIFTED, OLD_MAIN, NEW_MAIN);
    var order, triggers := [SHIFTED, OLD_MAIN, NEW_MAIN], [OLD_MAIN, SHIFTED, NEW_MAIN];
    assert Reorders(order, triggers) && Writable(BEFORE, order);
    WritableOrderExistsIff(triggers, BEFORE);
  }

  lemma NothingObsolete()
    ensures Obsolete(STALE_ROUND.rows, NEXT_WEEK) == {} && ToRemove(STALE_ROUND.rows, NEXT_WEEK) == {}
  {
    var ts := NEXT_WEEK.triggers;
    assert ts[0] in ts && ts[1] in ts;
    assert 0 in Keys(ts) && 1 in Keys(ts);
    assert Active(STALE_ROUND.rows).Keys == {0, 1};
  }

  lemma NothingLocked()
    ensures !Locked(STALE_ROUND.rows, NEXT_WEEK)
  {
    NothingObsolete();
  }

  lemma PlannedForTheRound()
    ensures PlanMoves(STALE_ROUND.rows, NEXT_WEEK) == Ok([SHIFTED, NEW_MAIN, OLD_MAIN])
  {
    StaleIsActive();
    AllPending();
    NothingObsolete();
    assert BEFORE - {} == BEFORE;
    PlannedLate();
  }

  lemma ValidatedLate()
    ensures Validate(STALE_ROUND.rows, NEXT_WEEK) == Ok([SHIFTED, NEW_MAIN, OLD_MAIN])
  {
    NothingObsolete();
    NothingLocked();
    PlannedForTheRound();
  }

  lemma RefusedAtTheSecondWrite()
    ensures Synchronise(STALE_ROUND, NEXT_WEEK, true, {}) == Err(SecondMain)
  {
    ValidatedLate();
    NothingObsolete();
    StaleIsWellKept();
    assert Removed(STALE_ROUND.rows, {}) == STALE_ROUND.rows;
    SecondWriteRefused(STALE_ROUND.rows);
  }
}
