/** The client object: one cache and clock for the process, one active batch per thread. */
module ResilientClient {
  import opened Options
  import opened Resilience
  import opened EvidenceBatches

  class EvidenceBatch {
    var touched: bool
    var allFresh: bool

    function Seen(): Batch
      reads this
    {
      Batch(touched, allFresh)
    }

    constructor ()
      ensures Seen() == NEW_BATCH
    {
      touched, allFresh := false, true;
    }

    method Observe(status: Status)
      modifies this
      ensures Seen() == Observed(old(Seen()), status)
    {
      touched := true;
      if status != Fresh { allFresh := false; }
    }

    predicate IsEvidenceFresh()
      reads this
    {
      touched && allFresh
    }
  }

  /** These objects are the batches of a thread, and this one its active batch. */
  ghost predicate Represents(local: Local, objects: seq<EvidenceBatch>, current: Option<EvidenceBatch>)
    reads objects
  {
    && |objects| == |local.batches|
    && (forall i :: 0 <= i < |objects| ==> objects[i].Seen() == local.batches[i])
    && current == At(objects, local.active)
  }

  function At(objects: seq<EvidenceBatch>, i: Option<nat>): Option<EvidenceBatch> {
    if i.Some? && i.value < |objects| then Some(objects[i.value]) else None
  }

  /** No batch is shared, between threads or within one. */
  ghost predicate Unshared(made: map<Thread, seq<EvidenceBatch>>) {
    forall t, u, i, j :: t in made && u in made && 0 <= i < |made[t]| && 0 <= j < |made[u]| && made[t][i] == made[u][j] ==>
      t == u && i == j
  }

  lemma OneMoreBatch(made: map<Thread, seq<EvidenceBatch>>, t: Thread, batch: EvidenceBatch)
    requires Unshared(made) && forall u, i :: u in made && 0 <= i < |made[u]| ==> made[u][i] != batch
    ensures Unshared(made[t := (if t in made then made[t] else []) + [batch]])
  {
  }

  /** An event moves its own thread on and leaves every other thread alone. */
  lemma Advances(events: seq<(Thread, Op)>, t: Thread, op: Op)
    ensures var before, after := Interleave(map[], events), Interleave(map[], events + [(t, op)]);
            && StateOf(after, t) == Do(StateOf(before, t), op)
            && forall u :: u != t ==> StateOf(after, u) == StateOf(before, u)
  {
    InterleaveSnoc(map[], events, t, op);
  }

  /** What leaving the innermost open block makes active again. */
  function Restored(local: Local, objects: seq<EvidenceBatch>): Option<EvidenceBatch> {
    if local.frames == [] then None else At(objects, local.frames[|local.frames| - 1])
  }

  lemma Entered(local: Local, objects: seq<EvidenceBatch>, current: Option<EvidenceBatch>, batch: EvidenceBatch)
    requires local.Valid() && Represents(local, objects, current) && batch.Seen() == NEW_BATCH
    ensures Represents(Do(local, Open), objects + [batch], Some(batch))
    ensures Restored(Do(local, Open), objects + [batch]) == current
  {
  }

  lemma Left(local: Local, objects: seq<EvidenceBatch>, current: Option<EvidenceBatch>)
    requires local.Valid() && Represents(local, objects, current) && local.frames != []
    ensures Represents(Do(local, Close), objects, Restored(local, objects))
  {
  }

  class ResilientAflClient<V(!new)> {
    const policy: RetryPolicy
    const windows: map<Endpoint, real>
    var cache: Cache<V>
    var now: real
    var active: map<Thread, EvidenceBatch>
    ghost var log: seq<Fetch<V>>

    /** Every opening, closing and observation so far, and every batch each thread has opened, in its order. */
    ghost var events: seq<(Thread, Op)>
    ghost var made: map<Thread, seq<EvidenceBatch>>

    ghost function Contents(): Client<V>
      reads this
    {
      Client(cache, now, log)
    }

    ghost function Threads(): (threads: map<Thread, Local>)
      reads this
      ensures AllValid(threads)
    {
      Interleave(map[], events)
    }

    ghost function MadeBy(t: Thread): seq<EvidenceBatch>
      reads this
    {
      if t in made then made[t] else []
    }

    ghost function Batches(): set<EvidenceBatch>
      reads this
    {
      set t, i | t in made && 0 <= i < |made[t]| :: made[t][i]
    }

    ghost function Current(t: Thread): Option<EvidenceBatch>
      reads this
    {
      if t in active then Some(active[t]) else None
    }

    /** The objects of one thread hold exactly the batches its events amount to. */
    ghost predicate Holds(t: Thread)
      reads this, Batches()
    {
      Represents(StateOf(Threads(), t), MadeBy(t), Current(t))
    }

    ghost predicate Valid()
      reads this, Batches()
    {
      Unshared(made) && forall t: Thread :: Holds(t)
    }

    /** The batch that was active when the thread's innermost open block was entered. */
    ghost function Enclosing(t: Thread): Option<EvidenceBatch>
      reads this
    {
      Restored(StateOf(Threads(), t), MadeBy(t))
    }

    constructor (retry: RetryPolicy, overrides: map<Endpoint, real>, start: real)
      ensures policy == retry && windows == DEFAULT_WINDOWS + overrides
      ensures Contents() == Client(map[], start, []) && CacheOk(Contents()) && active == map[]
      ensures Valid() && events == []
    {
      policy, windows := retry, DEFAULT_WINDOWS + overrides;
      cache, now, active, log := map[], start, map[], [];
      events, made := [], map[];
    }

    function ActiveBatch(t: Thread): set<object>
      reads this
    {
      if t in active then {active[t]} else {}
    }

    /** One call: retries first, then the cache, then the calling thread's innermost batch. */
    method Fetch(t: Thread, call: Call<V>) returns (served: Served<V>)
      requires Valid() && CacheOk(Contents()) && call.idle >= 0.0 && call.upstream.Valid()
      modifies this`cache, this`now, this`log, this`events, ActiveBatch(t)
      ensures served == Resilience.Result(old(Contents()), policy, windows, call)
      ensures Contents() == After(old(Contents()), policy, call) && CacheOk(Contents())
      ensures Valid() && events == old(events) + [(t, Saw(StatusOf(served)))]
      ensures t in active ==> active[t].Seen() == Observed(old(active[t].Seen()), StatusOf(served))
    {
      served := Obtain(call);
      forall u: Thread ensures Holds(u) {
        assert old(Holds(u));
      }
      Record(t, StatusOf(served));
    }

    method Obtain(call: Call<V>) returns (served: Served<V>)
      requires CacheOk(Contents()) && call.idle >= 0.0 && call.upstream.Valid()
      modifies this`cache, this`now, this`log
      ensures served == Resilience.Result(old(Contents()), policy, windows, call)
      ensures Contents() == After(old(Contents()), policy, call) && CacheOk(Contents())
    {
      AfterKeeps(Contents(), policy, call);
      var reply, o := CallWithRetry(policy, call.upstream, now + call.idle);
      now := o.now;
      match reply {
        case Answer(value) =>
          cache := cache[(call.endpoint, call.key) := Entry(value, now)];
          log := log + [Resilience.Fetch(call.endpoint, call.key, value, now)];
          served := Live(value);
        case Raise(fault) =>
          var window := Window(windows, call.endpoint);
          if !Retryable(Classify(fault)) {
            served := Fails(fault);
          } else if (call.endpoint, call.key) in cache && now - cache[(call.endpoint, call.key)].fetchedAt <= window {
            served := Stale(cache[(call.endpoint, call.key)].value, now - cache[(call.endpoint, call.key)].fetchedAt);
          } else {
            served := NoEvidence;
          }
      }
    }

    /** The thread's innermost batch, if any, observes the status; no other batch does. */
    method Record(t: Thread, status: Status)
      requires Valid()
      modifies this`events, ActiveBatch(t)
      ensures Valid() && events == old(events) + [(t, Saw(status))]
      ensures t in active ==> active[t].Seen() == Observed(old(active[t].Seen()), status)
    {
      assert Holds(t);
      Advances(events, t, Saw(status));
      if t in active { active[t].Observe(status); }
      events := events + [(t, Saw(status))];
      forall u: Thread ensures Holds(u) {
        assert old(Holds(u));
      }
    }

    /** Enter a block: a new batch becomes this thread's active one; the caller keeps what to restore. */
    method OpenBatch(t: Thread) returns (batch: EvidenceBatch, previous: Option<EvidenceBatch>)
      requires Valid()
      modifies this`active, this`events, this`made
      ensures fresh(batch) && batch.Seen() == NEW_BATCH && active == old(active)[t := batch]
      ensures previous == if t in old(active) then Some(old(active)[t]) else None
      ensures Valid() && events == old(events) + [(t, Open)] && previous == Enclosing(t)
    {
      assert Holds(t);
      Advances(events, t, Open);
      batch := new EvidenceBatch();
      OneMoreBatch(made, t, batch);
      Entered(StateOf(Threads(), t), MadeBy(t), Current(t), batch);
      previous := if t in active then Some(active[t]) else None;
      active := active[t := batch];
      made := made[t := MadeBy(t) + [batch]];
      events := events + [(t, Open)];
      assert Holds(t);
      forall u: Thread | u != t ensures Holds(u) {
        assert old(Holds(u));
      }
    }

    /** Leave a block: the enclosing batch, if any, is active again. */
    method CloseBatch(t: Thread, previous: Option<EvidenceBatch>)
      requires Valid() && StateOf(Threads(), t).frames != [] && previous == Enclosing(t)
      modifies this`active, this`events
      ensures Valid() && events == old(events) + [(t, Close)]
      ensures active == if previous.Some? then old(active)[t := previous.value] else old(active) - {t}
    {
      assert Holds(t);
      Advances(events, t, Close);
      active := if previous.Some? then active[t := previous.value] else active - {t};
      events := events + [(t, Close)];
      Left(old(StateOf(Threads(), t)), old(MadeBy(t)), old(Current(t)));
      assert Holds(t);
      forall u: Thread | u != t ensures Holds(u) {
        assert old(Holds(u));
      }
    }
  }

  /**
   Inside an open block the thread's active batch object is fresh exactly when
   the block's own calls so far have all been live, and there has been one.
   */
  lemma FreshInsideBlock<V(!new)>(c: ResilientAflClient<V>, since: nat, t: Thread, body: seq<Block>)
    requires c.Valid() && since <= |c.events| && Own(c.events[since..], t) == [Open] + Flat(body)
    ensures t in c.active
    ensures c.active[t].IsEvidenceFresh() <==> Direct(body) != [] && forall i :: 0 <= i < |Direct(body)| ==> Direct(body)[i] == Fresh
  {
    var before := Interleave(map[], c.events[..since]);
    assert c.events == c.events[..since] + c.events[since..];
    InterleaveConcat(map[], c.events[..since], c.events[since..]);
    OpenBatchSeesItsCallsSoFar(before, c.events[since..], t, body);
    assert c.Holds(t);
    var mine := |StateOf(before, t).batches|;
    assert c.active[t].Seen() == StateOf(c.Threads(), t).batches[mine];
  }
}
