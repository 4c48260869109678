/** One round's triggers over any run of the writes that reach them: what always holds, and what only some writes keep. */
module TriggerRuns {
  import opened Options
  import opened TriggerPlan
  import opened TriggerSync

  type Rows = map<Key, Row>

  // ----- The unordered writes -----

  /** A brand-new key; only a second main trigger is refused, not a sequence out of order. */
  function Create(rows: Rows, t: Trigger): Result<Rows, Refusal> {
    if !NoOtherMain(Active(rows), t) then Err(SecondMain)
    else if t.key in rows then Err(Rejected)
    else Ok(rows[t.key := Row(t.position, t.matches, 1, false, false)])
  }

  /** A new configuration for an existing key, removed or not, again without the ordering rules. */
  function Revise(rows: Rows, t: Trigger): Result<Rows, Refusal> {
    if t.key !in rows || rows[t.key].activated then Err(Rejected)
    else if !NoOtherMain(Active(rows), t) then Err(SecondMain)
    else Ok(rows[t.key := rows[t.key].(position := t.position, matches := t.matches, revision := rows[t.key].revision + 1, removed := false)])
  }

  function Remove(rows: Rows, k: Key): Result<Rows, Refusal> {
    if k !in rows || rows[k].removed || rows[k].activated then Err(Rejected)
    else Ok(Removed(rows, {k}))
  }

  /** A trigger of the active plan fires; a removed one never does. */
  function Activate(rows: Rows, k: Key): Result<Rows, Refusal> {
    if !IsActive(rows, k) then Err(Rejected) else Ok(rows[k := rows[k].(activated := true)])
  }

  datatype Step =
    | StepCreate(t: Trigger)
    | StepRevise(t: Trigger)
    | StepConfigure(t: Trigger)
    | StepRemove(key: Key)
    | StepActivate(key: Key)
    | StepSynchronise(week: Week, aflRoundExists: bool, landed: set<Key>)

  function Apply(r: Round, step: Step): Round {
    match step
    case StepCreate(t) => Written(r, Create(r.rows, t))
    case StepRevise(t) => Written(r, Revise(r.rows, t))
    case StepConfigure(t) => Written(r, Configure(r.rows, t, {}))
    case StepRemove(k) => Written(r, Remove(r.rows, k))
    case StepActivate(k) => Written(r, Activate(r.rows, k))
    case StepSynchronise(week, exists', landed) =>
      var done := Synchronise(r, week, exists', landed);
      if done.Ok? then done.value else r
  }

  function Written(r: Round, rows: Result<Rows, Refusal>): Round {
    if rows.Ok? then r.(rows := rows.value) else r
  }

  function Run(r: Round, steps: seq<Step>): Round
    decreases |steps|
  {
    if steps == [] then r else Run(Apply(r, steps[0]), steps[1..])
  }

  // ----- When a write is accepted -----

  /** No other key of the active plan is main. */
  predicate FreeOfMain(rows: Rows, key: Key) {
    forall k :: k in rows && !rows[k].removed && k != key ==> rows[k].position.kind != Main
  }

  lemma FreeOfMainMeans(rows: Rows, t: Trigger)
    ensures NoOtherMain(Active(rows), t) <==> (t.position.kind == Main ==> FreeOfMain(rows, t.key))
  {
    assert forall k :: k in Active(rows) <==> k in rows && !rows[k].removed;
  }

  /** A key is created once, and revised until it has activated; neither may add a second main trigger. */
  lemma RawWriteAcceptedIff(rows: Rows, t: Trigger)
    ensures Create(rows, t).Ok? <==> t.key !in rows && (t.position.kind == Main ==> FreeOfMain(rows, t.key))
    ensures Revise(rows, t).Ok? <==> t.key in rows && !rows[t.key].activated && (t.position.kind == Main ==> FreeOfMain(rows, t.key))
    ensures Create(rows, t).Ok? ==> Create(rows, t).value == rows[t.key := Row(t.position, t.matches, 1, false, false)]
    ensures Revise(rows, t).Ok? ==>
              Revise(rows, t).value == rows[t.key := Row(t.position, t.matches, rows[t.key].revision + 1, false, false)]
  {
    FreeOfMainMeans(rows, t);
  }

  /** Only an active trigger that has not fired can be removed, and only an active one fires. */
  lemma RemovalAndActivationAcceptedIff(rows: Rows, k: Key)
    ensures Remove(rows, k).Ok? <==> k in rows && !rows[k].removed && !rows[k].activated
    ensures Activate(rows, k).Ok? <==> k in rows && !rows[k].removed
    ensures Remove(rows, k).Ok? ==> Remove(rows, k).value == rows[k := rows[k].(removed := true, revision := rows[k].revision + 1)]
    ensures Activate(rows, k).Ok? ==> Activate(rows, k).value == rows[k := rows[k].(activated := true)]
  {
    if Remove(rows, k).Ok? {
      var rows' := Removed(rows, {k});
      forall x | x in rows ensures rows'[x] == rows[k := rows[k].(removed := true, revision := rows[k].revision + 1)][x] {}
    }
  }

  /** A configuration that agrees with the rest of the plan is written, unless it adds a second main trigger or the
      trigger has activated, before or meanwhile. */
  lemma ConfigureAcceptedIff(rows: Rows, t: Trigger, landed: set<Key>)
    ensures Configure(rows, t, landed).Ok?
       <==> && (forall k :: k in rows && !rows[k].removed && k != t.key ==> Compatible(t.position, rows[k].position))
            && (t.position.kind == Main ==> FreeOfMain(rows, t.key))
            && (t.key in rows ==> !rows[t.key].activated && t.key !in landed)
  {
    FreeOfMainMeans(rows, t);
    MovableMeans(Active(rows), t);
    assert forall k :: k in Active(rows) <==> k in rows && !rows[k].removed;
  }

  lemma MovableMeans(plan: Plan, t: Trigger)
    ensures Movable(plan, t) <==> forall k :: k in plan && k != t.key ==> Compatible(t.position, plan[k])
  {
    MovableIffCompatible(Ordering, plan, t);
  }

  // ----- What every write keeps -----

  /** At most one main trigger, and nothing activated is removed. */
  ghost predicate Kept(rows: Rows) {
    SingleMain(Active(rows)) && forall k :: k in rows && rows[k].activated ==> !rows[k].removed
  }

  /** Writing one active position keeps the single main trigger when no other is main. */
  lemma OneWriteKeeps(rows: Rows, rows': Rows, t: Trigger)
    requires Kept(rows) && NoOtherMain(Active(rows), t) && Active(rows') == Move(Active(rows), t)
    requires forall k :: k in rows' && rows'[k].activated ==> !rows'[k].removed
    ensures Kept(rows')
  {
  }

  lemma ConfigureKeeps(rows: Rows, t: Trigger, landed: set<Key>)
    requires Kept(rows) && Configure(rows, t, landed).Ok?
    ensures Kept(Configure(rows, t, landed).value)
  {
    ConfigureActive(rows, t, landed);
    OneWriteKeeps(rows, Configure(rows, t, landed).value, t);
  }

  lemma {:induction false} ConfigureAllKeeps(rows: Rows, order: seq<Trigger>, landed: set<Key>)
    requires Kept(rows) && ConfigureAll(rows, order, landed).Ok?
    ensures Kept(ConfigureAll(rows, order, landed).value)
  {
    if order != [] {
      var n := |order| - 1;
      ConfigureAllKeeps(rows, order[..n], landed);
      ConfigureKeeps(ConfigureAll(rows, order[..n], landed).value, order[n], landed);
    }
  }

  lemma RemovalKeeps(rows: Rows, ks: set<Key>)
    requires Kept(rows) && forall k :: k in ks && k in rows ==> !rows[k].activated
    ensures Kept(Removed(rows, ks))
  {
    RemovedActive(rows, ks);
  }

  lemma SynchroniseKeeps(r: Round, week: Week, aflRoundExists: bool, landed: set<Key>)
    requires Kept(r.rows) && Synchronise(r, week, aflRoundExists, landed).Ok?
    ensures Kept(Synchronise(r, week, aflRoundExists, landed).value.rows)
  {
    assert !Locked(r.rows, week);
    RemovalKeeps(r.rows, ToRemove(r.rows, week));
    ConfigureAllKeeps(Removed(r.rows, ToRemove(r.rows, week)), PlanMoves(r.rows, week).value, landed);
  }

  lemma RawWritesKeep(rows: Rows, t: Trigger)
    requires Kept(rows)
    ensures Create(rows, t).Ok? ==> Kept(Create(rows, t).value) && Active(Create(rows, t).value) == Move(Active(rows), t)
    ensures Revise(rows, t).Ok? ==> Kept(Revise(rows, t).value) && Active(Revise(rows, t).value) == Move(Active(rows), t)
  {
    if Create(rows, t).Ok? {
      assert Active(Create(rows, t).value) == Move(Active(rows), t);
      OneWriteKeeps(rows, Create(rows, t).value, t);
    }
    if Revise(rows, t).Ok? {
      assert Active(Revise(rows, t).value) == Move(Active(rows), t);
      OneWriteKeeps(rows, Revise(rows, t).value, t);
    }
  }

  lemma ActivationKeeps(rows: Rows, k: Key)
    requires Kept(rows) && Activate(rows, k).Ok?
    ensures Kept(Activate(rows, k).value) && Active(Activate(rows, k).value) == Active(rows)
  {
    assert Active(Activate(rows, k).value) == Active(rows);
  }

  lemma StepKeeps(r: Round, step: Step)
    requires Kept(r.rows)
    ensures Kept(Apply(r, step).rows)
  {
    match step
    case StepCreate(t) => RawWritesKeep(r.rows, t);
    case StepRevise(t) => RawWritesKeep(r.rows, t);
    case StepConfigure(t) => if Configure(r.rows, t, {}).Ok? { ConfigureKeeps(r.rows, t, {}); }
    case StepRemove(k) => if Remove(r.rows, k).Ok? { RemovalKeeps(r.rows, {k}); }
    case StepActivate(k) => if Activate(r.rows, k).Ok? { ActivationKeeps(r.rows, k); }
    case StepSynchronise(week, exists', landed) =>
      if Synchronise(r, week, exists', landed).Ok? { SynchroniseKeeps(r, week, exists', landed); }
  }

  /** Over any run a round has at most one main trigger and nothing activated is ever removed. */
  lemma {:induction false} RunKeeps(r: Round, steps: seq<Step>)
    requires Kept(r.rows)
    ensures Kept(Run(r, steps).rows)
    decreases |steps|
  {
    if steps != [] {
      StepKeeps(r, steps[0]);
      RunKeeps(Apply(r, steps[0]), steps[1..]);
    }
  }

  // ----- The ordering rules -----

  lemma FewerKeepsLegal(plan: Plan, ks: set<Key>)
    requires Legal(plan)
    ensures Legal(plan - ks)
  {
  }

  lemma SynchroniseKeepsLegal(r: Round, week: Week, aflRoundExists: bool, landed: set<Key>)
    requires Kept(r.rows) && Legal(Active(r.rows)) && Synchronise(r, week, aflRoundExists, landed).Ok?
    ensures Legal(Active(Synchronise(r, week, aflRoundExists, landed).value.rows))
  {
    var ks, order := ToRemove(r.rows, week), PlanMoves(r.rows, week).value;
    var plan := Active(r.rows) - ks;
    RemovedActive(r.rows, ks);
    FewerKeepsLegal(Active(r.rows), ks);
    LawfulMeans(plan);
    ConfigureAllActive(Removed(r.rows, ks), order, landed);
    SafeKeepsLegal(OneMain, plan, order);
    assert order[..|order|] == order;
    LawfulMeans(MoveAll(plan, order));
  }

  predicate Ordered(step: Step) {
    !step.StepCreate? && !step.StepRevise?
  }

  lemma OrderedStepKeepsLegal(r: Round, step: Step)
    requires Kept(r.rows) && Legal(Active(r.rows)) && Ordered(step)
    ensures Legal(Active(Apply(r, step).rows))
  {
    match step
    case StepConfigure(t) =>
      if Configure(r.rows, t, {}).Ok? {
        ConfigureActive(r.rows, t, {});
        LawfulMeans(Active(r.rows));
        MoveKeepsLawful(Ordering, Active(r.rows), t);
        LawfulMeans(Move(Active(r.rows), t));
      }
    case StepRemove(k) => RemovedActive(r.rows, {k}); FewerKeepsLegal(Active(r.rows), {k});
    case StepActivate(k) => if Activate(r.rows, k).Ok? { ActivationKeeps(r.rows, k); }
    case StepSynchronise(week, exists', landed) =>
      if Synchronise(r, week, exists', landed).Ok? { SynchroniseKeepsLegal(r, week, exists', landed); }
  }

  /** Runs of the ordered writes keep sequences distinct and every selective before every main. */
  lemma {:induction false} OrderedRunKeepsLegal(r: Round, steps: seq<Step>)
    requires Kept(r.rows) && Legal(Active(r.rows)) && forall i :: 0 <= i < |steps| ==> Ordered(steps[i])
    ensures Legal(Active(Run(r, steps).rows))
    decreases |steps|
  {
    if steps != [] {
      StepKeeps(r, steps[0]);
      OrderedStepKeepsLegal(r, steps[0]);
      OrderedRunKeepsLegal(Apply(r, steps[0]), steps[1..]);
    }
  }

  /** Creating or revising a trigger keeps an ordered plan ordered exactly when the ordered write would have been allowed. */
  lemma RawWriteKeepsLegalIff(rows: Rows, t: Trigger)
    requires Kept(rows) && Legal(Active(rows))
    ensures Create(rows, t).Ok? ==> (Legal(Active(Create(rows, t).value)) <==> Movable(Active(rows), t))
    ensures Revise(rows, t).Ok? ==> (Legal(Active(Revise(rows, t).value)) <==> Movable(Active(rows), t))
  {
    RawWritesKeep(rows, t);
    MoveLegalIff(Active(rows), t);
  }

  lemma MoveLegalIff(plan: Plan, t: Trigger)
    requires Legal(plan)
    ensures Legal(Move(plan, t)) <==> Movable(plan, t)
  {
    MovableIffCompatible(Ordering, plan, t);
    LawfulMeans(plan);
    if Movable(plan, t) {
      MoveKeepsLawful(Ordering, plan, t);
      LawfulMeans(Move(plan, t));
    }
    if Legal(Move(plan, t)) {
      forall k | k in plan && k != t.key ensures Agree(Ordering, t.position, plan[k]) {
        assert Compatible(Move(plan, t)[t.key], Move(plan, t)[k]);
      }
    }
  }

  ghost predicate WeekInOrder(week: Week) {
    DistinctKeys(week.triggers)
    && forall t, u :: t in week.triggers && u in week.triggers && t.key != u.key ==> Compatible(t.position, u.position)
  }

  /** Whatever state the plan was in, an accepted synchronisation with an ordered finals week leaves it ordered. */
  lemma SynchroniseRestoresOrder(r: Round, week: Week, aflRoundExists: bool, landed: set<Key>)
    requires WeekInOrder(week) && Synchronise(r, week, aflRoundExists, landed).Ok?
    ensures Legal(Active(Synchronise(r, week, aflRoundExists, landed).value.rows))
  {
    var rows := Synchronise(r, week, aflRoundExists, landed).value.rows;
    SynchroniseConverges(r, week, aflRoundExists, landed);
    forall j, k | j in Active(rows) && k in Active(rows) && j != k ensures Compatible(Active(rows)[j], Active(rows)[k]) {
      assert IsActive(rows, j) && IsActive(rows, k);
      var t :| t in week.triggers && t.key == j;
      var u :| u in week.triggers && u.key == k;
      assert InStep(rows, t) && InStep(rows, u);
    }
  }
}
