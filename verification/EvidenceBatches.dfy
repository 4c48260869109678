/** Evidence batches: nested blocks on each thread, each observing exactly the calls made directly inside it. */
module EvidenceBatches {
  import opened Options
  import opened Resilience

  datatype Batch = Batch(touched: bool, allFresh: bool)
  {
    predicate IsFresh() { touched && allFresh }
  }

  const NEW_BATCH := Batch(false, true)

  function Observed(b: Batch, status: Status): Batch {
    Batch(true, b.allFresh && status == Fresh)
  }

  /** What one thread does to its own batch state. */
  datatype Op = Open | Close | Saw(status: Status)

  /** A thread's batches in the order it opened them, the active one, and what each open block will restore. */
  datatype Local = Local(batches: seq<Batch>, active: Option<nat>, frames: seq<Option<nat>>)
  {
    predicate Valid() {
      && (active.Some? ==> active.value < |batches|)
      && forall i :: 0 <= i < |frames| ==> (frames[i].Some? ==> frames[i].value < |batches|)
    }
  }

  const IDLE := Local([], None, [])

  function Do(s: Local, op: Op): (r: Local)
    requires s.Valid()
    ensures r.Valid() && |r.batches| >= |s.batches|
  {
    match op
    case Open => Local(s.batches + [NEW_BATCH], Some(|s.batches|), s.frames + [s.active])
    case Close => if s.frames == [] then s else Local(s.batches, s.frames[|s.frames| - 1], s.frames[..|s.frames| - 1])
    case Saw(status) =>
      if s.active.None? then s
      else s.(batches := s.batches[s.active.value := Observed(s.batches[s.active.value], status)])
  }

  function DoAll(s: Local, ops: seq<Op>): (r: Local)
    requires s.Valid()
    ensures r.Valid() && |r.batches| >= |s.batches|
    decreases |ops|
  {
    if ops == [] then s else DoAll(Do(s, ops[0]), ops[1..])
  }

  lemma {:induction false} DoConcat(s: Local, a: seq<Op>, b: seq<Op>)
    requires s.Valid()
    ensures DoAll(s, a + b) == DoAll(DoAll(s, a), b)
    decreases |a|
  {
    if a == [] {
      assert a + b == b;
    } else {
      assert (a + b)[1..] == a[1..] + b;
      DoConcat(Do(s, a[0]), a[1..], b);
    }
  }

  // ----- Blocks -----

  /** Code inside a batch: calls, and further batches around more code. */
  datatype Block = Called(status: Status) | With(body: seq<Block>)

  function Flat(body: seq<Block>): seq<Op> {
    if body == [] then [] else FlatOne(body[0]) + Flat(body[1..])
  }

  function FlatOne(b: Block): seq<Op> {
    match b
    case Called(status) => [Saw(status)]
    case With(body) => [Open] + Flat(body) + [Close]
  }

  /** The calls made directly in a body, not in a batch nested in it. */
  function Direct(body: seq<Block>): seq<Status> {
    if body == [] then [] else (if body[0].Called? then [body[0].status] else []) + Direct(body[1..])
  }

  function ObservedAll(b: Batch, statuses: seq<Status>): Batch
    decreases |statuses|
  {
    if statuses == [] then b else ObservedAll(Observed(b, statuses[0]), statuses[1..])
  }

  lemma {:induction false} ObservedConcat(b: Batch, first: seq<Status>, rest: seq<Status>)
    ensures ObservedAll(b, first + rest) == ObservedAll(ObservedAll(b, first), rest)
    decreases |first|
  {
    if first == [] {
      assert first + rest == rest;
    } else {
      assert (first + rest)[1..] == first[1..] + rest;
      ObservedConcat(Observed(b, first[0]), first[1..], rest);
    }
  }

  /** Running a body adds its direct calls to the active batch, leaves every other earlier batch alone,
      and hands back the same active batch and frames it started with. */
  ghost predicate RanBody(s: Local, r: Local, statuses: seq<Status>)
    requires s.Valid()
  {
    && r.active == s.active && r.frames == s.frames && |r.batches| >= |s.batches|
    && forall i :: 0 <= i < |s.batches| ==>
         r.batches[i] == if s.active == Some(i) then ObservedAll(s.batches[i], statuses) else s.batches[i]
  }

  lemma {:induction false} BodyRuns(s: Local, body: seq<Block>)
    requires s.Valid()
    ensures RanBody(s, DoAll(s, Flat(body)), Direct(body))
    decreases body, 1
  {
    if body != [] {
      var mid := DoAll(s, FlatOne(body[0]));
      DoConcat(s, FlatOne(body[0]), Flat(body[1..]));
      BlockRuns(s, body[0]);
      BodyRuns(mid, body[1..]);
      if s.active.Some? {
        var i := s.active.value;
        ObservedConcat(s.batches[i], if body[0].Called? then [body[0].status] else [], Direct(body[1..]));
      }
    }
  }

  lemma {:induction false} BlockRuns(s: Local, b: Block)
    requires s.Valid()
    ensures RanBody(s, DoAll(s, FlatOne(b)), if b.Called? then [b.status] else [])
    decreases b, 0
  {
    match b
    case Called(status) =>
      assert FlatOne(b)[1..] == [];
      assert DoAll(s, FlatOne(b)) == Do(s, Saw(status));
      assert [status][1..] == [];
    case With(body) =>
      BatchRuns(s, body);
  }

  /** A whole batch: the new batch holds its own direct calls, and nothing else has changed. */
  lemma {:induction false} BatchRuns(s: Local, body: seq<Block>)
    requires s.Valid()
    ensures var r := DoAll(s, [Open] + Flat(body) + [Close]);
            && RanBody(s, r, [])
            && |r.batches| > |s.batches| && r.batches[|s.batches|] == ObservedAll(NEW_BATCH, Direct(body))
    decreases body, 2
  {
    var entered := Do(s, Open);
    var ran := DoAll(entered, Flat(body));
    var closed := Do(ran, Close);
    BodyRuns(entered, body);
    DoConcat(s, [Open] + Flat(body), [Close]);
    DoConcat(s, [Open], Flat(body));
    assert [Open][1..] == [] && [Close][1..] == [];
    assert DoAll(s, [Open]) == entered;
    assert DoAll(ran, [Close]) == closed;
    assert closed.frames == s.frames;
  }

  lemma {:induction false} FreshIs(b: Batch, statuses: seq<Status>)
    ensures ObservedAll(b, statuses) == Batch(b.touched || statuses != [], b.allFresh && forall i :: 0 <= i < |statuses| ==> statuses[i] == Fresh)
    decreases |statuses|
  {
    if statuses != [] { FreshIs(Observed(b, statuses[0]), statuses[1..]); }
  }

  // ----- Threads -----

  type Thread = nat

  function StateOf(threads: map<Thread, Local>, t: Thread): Local {
    if t in threads then threads[t] else IDLE
  }

  ghost predicate AllValid(threads: map<Thread, Local>) {
    forall t :: t in threads ==> threads[t].Valid()
  }

  function Interleave(threads: map<Thread, Local>, events: seq<(Thread, Op)>): (r: map<Thread, Local>)
    requires AllValid(threads)
    ensures AllValid(r)
    decreases |events|
  {
    if events == [] then threads
    else Interleave(threads[events[0].0 := Do(StateOf(threads, events[0].0), events[0].1)], events[1..])
  }

  /** What one thread did, in its own order. */
  function Own(events: seq<(Thread, Op)>, t: Thread): seq<Op>
    decreases |events|
  {
    if events == [] then [] else (if events[0].0 == t then [events[0].1] else []) + Own(events[1..], t)
  }

  /** However threads interleave, each one's batches depend only on what it did itself. */
  lemma {:induction false} ThreadsAreIsolated(threads: map<Thread, Local>, events: seq<(Thread, Op)>, t: Thread)
    requires AllValid(threads)
    ensures StateOf(Interleave(threads, events), t) == DoAll(StateOf(threads, t), Own(events, t))
    decreases |events|
  {
    if events != [] {
      var next := threads[events[0].0 := Do(StateOf(threads, events[0].0), events[0].1)];
      ThreadsAreIsolated(next, events[1..], t);
      if events[0].0 == t {
        assert Own(events, t)[0] == events[0].1 && Own(events, t)[1..] == Own(events[1..], t);
      } else {
        assert Own(events, t) == Own(events[1..], t);
      }
    }
  }

  lemma {:induction false} InterleaveConcat(threads: map<Thread, Local>, a: seq<(Thread, Op)>, b: seq<(Thread, Op)>)
    requires AllValid(threads)
    ensures Interleave(threads, a + b) == Interleave(Interleave(threads, a), b)
    decreases |a|
  {
    if a == [] {
      assert a + b == b;
    } else {
      assert (a + b)[1..] == a[1..] + b;
      InterleaveConcat(threads[a[0].0 := Do(StateOf(threads, a[0].0), a[0].1)], a[1..], b);
    }
  }

  /** One more event. */
  lemma InterleaveSnoc(threads: map<Thread, Local>, events: seq<(Thread, Op)>, t: Thread, op: Op)
    requires AllValid(threads)
    ensures var before := Interleave(threads, events);
            Interleave(threads, events + [(t, op)]) == before[t := Do(StateOf(before, t), op)]
  {
    InterleaveConcat(threads, events, [(t, op)]);
    assert [(t, op)][1..] == [];
  }

  /**
   Asked inside the block, as publication and sign-off ask it: the batch is
   fresh exactly when the block has made a call of its own and every one so far
   was live, whatever nested batches saw and whatever other threads did.
   */
  lemma OpenBatchSeesItsCallsSoFar(threads: map<Thread, Local>, events: seq<(Thread, Op)>, t: Thread, body: seq<Block>)
    requires AllValid(threads) && Own(events, t) == [Open] + Flat(body)
    ensures var s, r := StateOf(threads, t), StateOf(Interleave(threads, events), t);
            && r.active == Some(|s.batches|) && |s.batches| < |r.batches|
            && (r.batches[|s.batches|].IsFresh() <==> Direct(body) != [] && forall i :: 0 <= i < |Direct(body)| ==> Direct(body)[i] == Fresh)
            && r.batches[..|s.batches|] == s.batches
  {
    var s := StateOf(threads, t);
    var entered := Do(s, Open);
    ThreadsAreIsolated(threads, events, t);
    DoConcat(s, [Open], Flat(body));
    assert [Open][1..] == [] && DoAll(s, [Open]) == entered;
    BodyRuns(entered, body);
    FreshIs(NEW_BATCH, Direct(body));
  }

  /** A batch is fresh exactly when it saw at least one call of its own and every one of them was live,
      whatever its nested batches saw and whatever other threads did meanwhile; every earlier batch,
      the enclosing one included, is as it was. */
  lemma BatchSeesItsOwnCalls(threads: map<Thread, Local>, events: seq<(Thread, Op)>, t: Thread, body: seq<Block>)
    requires AllValid(threads) && Own(events, t) == [Open] + Flat(body) + [Close]
    ensures var s, r := StateOf(threads, t), StateOf(Interleave(threads, events), t);
            && |s.batches| < |r.batches|
            && (r.batches[|s.batches|].IsFresh() <==> Direct(body) != [] && forall i :: 0 <= i < |Direct(body)| ==> Direct(body)[i] == Fresh)
            && r.active == s.active && r.batches[..|s.batches|] == s.batches
  {
    ThreadsAreIsolated(threads, events, t);
    BatchRuns(StateOf(threads, t), body);
    FreshIs(NEW_BATCH, Direct(body));
  }
}
