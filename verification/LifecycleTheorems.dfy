/** What every run of the round lifecycle keeps, and what compare-and-swap is worth. */
module LifecycleTheorems {
  import opened Options
  import opened Lifecycle

  // ----- What one write does -----

  /** Exactly these matchups get exactly their next version; nothing else moves. */
  ghost predicate Wrote(t: Tables, next: Tables, ids: seq<MatchupId>, scores: map<MatchupId, Score>, correcting: bool)
    requires forall m :: m in ids ==> m < |t.matchups| && m in scores
  {
    && |next.matchups| == |t.matchups|
    && (forall m :: 0 <= m < |t.matchups| ==> next.matchups[m] == if m in ids then Written(t.matchups[m], correcting) else t.matchups[m])
    && (forall k: (MatchupId, nat) :: k in next.results <==>
          k in t.results || (k.0 in ids && k.1 == NextVersion(t.matchups[k.0], correcting)))
    && (forall k: (MatchupId, nat) :: k in next.results ==>
          next.results[k] == if k.0 in ids && k.1 == NextVersion(t.matchups[k.0], correcting) then scores[k.0] else t.results[k])
  }

  lemma WroteOneMore(t: Tables, mid: Tables, front: seq<MatchupId>, m: MatchupId, scores: map<MatchupId, Score>, correcting: bool)
    requires m !in front && m < |t.matchups| && m in scores && forall x :: x in front ==> x < |t.matchups| && x in scores
    requires Wrote(t, mid, front, scores, correcting)
    ensures forall x :: x in front + [m] <==> x in front || x == m
    ensures Wrote(t, WriteResult(mid, m, scores[m], correcting), front + [m], scores, correcting)
  {
    assert forall x :: x in front + [m] <==> x in front || x == m;
    assert mid.matchups[m] == t.matchups[m];
  }

  lemma {:induction false} WriteResultsAre(t: Tables, ids: seq<MatchupId>, scores: map<MatchupId, Score>, correcting: bool)
    requires Distinct(ids) && forall m :: m in ids ==> m < |t.matchups| && m in scores
    ensures Wrote(t, WriteResults(t, ids, scores, correcting), ids, scores, correcting)
  {
    if ids != [] {
      var n := |ids| - 1;
      LastIsNew(ids);
      WriteResultsAre(t, ids[..n], scores, correcting);
      WroteOneMore(t, WriteResults(t, ids[..n], scores, correcting), ids[..n], ids[n], scores, correcting);
    }
  }

  lemma LastIsNew(ids: seq<MatchupId>)
    requires Distinct(ids) && ids != []
    ensures var n := |ids| - 1; ids == ids[..n] + [ids[n]] && ids[n] in ids && ids[n] !in ids[..n] && (forall m :: m in ids[..n] ==> m in ids)
  {
  }

  lemma {:induction false} LockedSame(a: seq<Matchup>, b: seq<Matchup>, r: RoundId)
    requires |a| == |b| && forall m :: 0 <= m < |a| ==> a[m].round == b[m].round
    ensures Locked(a, r) == Locked(b, r)
  {
    if a != [] { LockedSame(a[..|a| - 1], b[..|b| - 1], r); }
  }

  lemma {:induction false} LockedAppend(a: seq<Matchup>, b: seq<Matchup>, r: RoundId)
    ensures (forall m :: 0 <= m < |b| ==> b[m].round != r) ==> Locked(a + b, r) == Locked(a, r)
    ensures (forall m :: 0 <= m < |a| ==> a[m].round != r) && (forall m :: 0 <= m < |b| ==> b[m].round == r) ==> |Locked(a + b, r)| == |b|
  {
    if b == [] {
      assert a + b == a;
      if forall m :: 0 <= m < |a| ==> a[m].round != r { NoneLocked(a, r); }
    } else {
      var n := |b| - 1;
      LockedAppend(a, b[..n], r);
      assert (a + b)[..|a + b| - 1] == a + b[..n];
      assert (a + b)[|a + b| - 1] == b[n];
    }
  }

  lemma {:induction false} NoneLocked(a: seq<Matchup>, r: RoundId)
    requires forall m :: 0 <= m < |a| ==> a[m].round != r
    ensures Locked(a, r) == []
  {
    if a != [] { NoneLocked(a[..|a| - 1], r); }
  }

  // ----- The invariant -----

  lemma CreateKeeps(t: Tables, r: RoundId, pairs: seq<(nat, nat)>, ok: bool)
    requires Inv(t) && CreateRound(t, r, pairs, ok).Ok?
    ensures Inv(CreateRound(t, r, pairs, ok).value)
  {
    var rows := NewMatchups(r, pairs);
    var next := CreateRound(t, r, pairs, ok).value;
    forall x | x in next.rounds ensures |Locked(next.matchups, x)| == 5 {
      LockedAppend(t.matchups, rows, x);
      if x == r {
        forall m | 0 <= m < |t.matchups| ensures t.matchups[m].round != r { assert RoundOk(t, m); }
      }
    }
    forall m | 0 <= m < |next.matchups| ensures VersionsOk(next, m) && RoundOk(next, m) {
      if m < |t.matchups| { assert VersionsOk(t, m) && RoundOk(t, m); }
    }
  }

  lemma WroteKeepsVersions(t: Tables, next: Tables, ids: seq<MatchupId>, scores: map<MatchupId, Score>, correcting: bool, m: MatchupId)
    requires forall x :: x in ids ==> x < |t.matchups| && x in scores
    requires Wrote(t, next, ids, scores, correcting) && m < |t.matchups| && VersionsOk(t, m)
    requires m in ids ==> (t.matchups[m].effective.Some? <==> correcting)
    ensures VersionsOk(next, m)
  {
    forall v: nat
      ensures (m, v) in next.results <==> next.matchups[m].effective.Some? && 1 <= v <= next.matchups[m].effective.value
    {
      var k: (MatchupId, nat) := (m, v);
      assert k in next.results <==> k in t.results || (k.0 in ids && k.1 == NextVersion(t.matchups[k.0], correcting));
    }
  }

  /** Publishing or correcting a whole round. */
  lemma RoundWriteKeeps(t: Tables, r: RoundId, scores: map<MatchupId, Score>, correcting: bool, version: nat)
    requires Inv(t) && r in t.rounds && (correcting <==> t.rounds[r].state == Final)
    requires forall m :: m in Locked(t.matchups, r) ==> m < |t.matchups| && m in scores
    ensures Inv(WriteResults(t, Locked(t.matchups, r), scores, correcting).(rounds := t.rounds[r := Round(Final, version)]))
  {
    var ids := Locked(t.matchups, r);
    var wrote := WriteResults(t, ids, scores, correcting);
    var next := wrote.(rounds := t.rounds[r := Round(Final, version)]);
    LockedAre(t.matchups, r);
    WriteResultsAre(t, ids, scores, correcting);
    forall m | 0 <= m < |t.matchups| ensures VersionsOk(next, m) && RoundOk(next, m) {
      assert VersionsOk(t, m) && RoundOk(t, m);
      WroteKeepsVersions(t, wrote, ids, scores, correcting, m);
      assert VersionsOk(wrote, m);
    }
    forall x | x in next.rounds ensures |Locked(next.matchups, x)| == 5 { LockedSame(t.matchups, next.matchups, x); }
  }

  lemma PublishKeeps(t: Tables, r: RoundId, scores: map<MatchupId, Score>, version: Option<nat>, reviews: map<MatchupId, nat>)
    requires Inv(t) && PublishResults(t, r, scores, version, reviews).Ok?
    ensures Inv(PublishResults(t, r, scores, version, reviews).value)
  {
    RoundWriteKeeps(t, r, scores, false, t.rounds[r].version + 1);
  }

  lemma CorrectKeeps(t: Tables, r: RoundId, scores: map<MatchupId, Score>, reason: string, version: Option<nat>, reviews: map<MatchupId, nat>)
    requires Inv(t) && CorrectResults(t, r, scores, reason, version, reviews).Ok?
    ensures Inv(CorrectResults(t, r, scores, reason, version, reviews).value)
  {
    RoundWriteKeeps(t, r, scores, true, t.rounds[r].version + 1);
  }

  lemma OneWriteKeeps(t: Tables, m: MatchupId, score: Score)
    requires Inv(t) && m < |t.matchups| && t.matchups[m].effective.Some?
    ensures Inv(WriteResult(t, m, score, true))
  {
    var next := WriteResult(t, m, score, true);
    assert VersionsOk(t, m) && RoundOk(t, m);
    forall x | 0 <= x < |t.matchups| ensures VersionsOk(next, x) && RoundOk(next, x) {
      assert VersionsOk(t, x) && RoundOk(t, x);
    }
    forall r | r in next.rounds ensures |Locked(next.matchups, r)| == 5 { LockedSame(t.matchups, next.matchups, r); }
  }

  lemma SmallStepKeeps(t: Tables, step: Step)
    requires Inv(t) && Attempt(t, step).Ok? && (step.Move? || step.Ruling?)
    ensures Inv(Attempt(t, step).value)
  {
    var next := Attempt(t, step).value;
    forall x | 0 <= x < |t.matchups| ensures VersionsOk(next, x) && RoundOk(next, x) {
      assert VersionsOk(t, x) && RoundOk(t, x);
    }
    forall r | r in next.rounds ensures |Locked(next.matchups, r)| == 5 { LockedSame(t.matchups, next.matchups, r); }
  }

  lemma StepKeeps(t: Tables, step: Step)
    requires Inv(t)
    ensures Inv(Apply(t, step))
  {
    if Attempt(t, step).Ok? {
      match step
      case Create(r, pairs, ok) => CreateKeeps(t, r, pairs, ok);
      case Move(_, _, _) => SmallStepKeeps(t, step);
      case Ruling(_, _) => SmallStepKeeps(t, step);
      case Publish(r, scores, version, reviews) => PublishKeeps(t, r, scores, version, reviews);
      case Correct(r, scores, reason, version, reviews) => CorrectKeeps(t, r, scores, reason, version, reviews);
      case CorrectOne(m, score, _, _) => OneWriteKeeps(t, m, score);
    }
  }

  lemma {:induction false} RunKeeps(t: Tables, steps: seq<Step>)
    requires Inv(t)
    ensures Inv(Run(t, steps))
    decreases |steps|
  {
    if steps != [] {
      StepKeeps(t, steps[0]);
      RunKeeps(Apply(t, steps[0]), steps[1..]);
    }
  }

  // ----- History -----

  function Rank(s: RoundState): nat {
    match s
    case Upcoming => 0
    case Open => 1
    case Live => 2
    case Review => 3
    case Final => 4
  }

  /** What no step can undo: results, rounds' progress, reviews and effective versions. */
  ghost predicate Remembers(t: Tables, next: Tables) {
    && (forall k :: k in t.results ==> k in next.results && next.results[k] == t.results[k])
    && (forall r :: r in t.rounds ==> r in next.rounds && Rank(t.rounds[r].state) <= Rank(next.rounds[r].state) && t.rounds[r].version <= next.rounds[r].version)
    && |t.matchups| <= |next.matchups|
    && (forall m :: 0 <= m < |t.matchups| ==> Onward(t.matchups[m], next.matchups[m]))
  }

  predicate Onward(a: Matchup, b: Matchup) {
    && a.(effective := None, review := 0) == b.(effective := None, review := 0)
    && a.review <= b.review
    && (a.effective.Some? ==> b.effective.Some? && a.effective.value <= b.effective.value)
  }

  lemma WroteRemembers(t: Tables, next: Tables, ids: seq<MatchupId>, scores: map<MatchupId, Score>, correcting: bool)
    requires forall x :: x in ids ==> x < |t.matchups| && x in scores
    requires Wrote(t, next, ids, scores, correcting) && !VersionTaken(t, ids, correcting)
    requires forall m :: m in ids ==> (t.matchups[m].effective.Some? <==> correcting)
    ensures forall k :: k in t.results ==> k in next.results && next.results[k] == t.results[k]
    ensures forall m :: 0 <= m < |t.matchups| ==> Onward(t.matchups[m], next.matchups[m])
  {
    forall k: (MatchupId, nat) | k in t.results ensures k in next.results && next.results[k] == t.results[k] {
      assert k == (k.0, k.1);
      assert !(k.0 in ids && k.1 == NextVersion(t.matchups[k.0], correcting));
    }
  }

  lemma RoundWriteRemembers(t: Tables, r: RoundId, scores: map<MatchupId, Score>, correcting: bool, version: nat)
    requires Inv(t) && r in t.rounds && (correcting <==> t.rounds[r].state == Final) && t.rounds[r].version <= version
    requires forall m :: m in Locked(t.matchups, r) ==> m < |t.matchups| && m in scores
    requires !VersionTaken(t, Locked(t.matchups, r), correcting)
    ensures Remembers(t, WriteResults(t, Locked(t.matchups, r), scores, correcting).(rounds := t.rounds[r := Round(Final, version)]))
  {
    var ids := Locked(t.matchups, r);
    LockedStates(t, r);
    WriteResultsAre(t, ids, scores, correcting);
    WroteRemembers(t, WriteResults(t, ids, scores, correcting), ids, scores, correcting);
  }

  lemma PublishRemembers(t: Tables, r: RoundId, scores: map<MatchupId, Score>, version: Option<nat>, reviews: map<MatchupId, nat>)
    requires Inv(t) && PublishResults(t, r, scores, version, reviews).Ok?
    ensures Remembers(t, PublishResults(t, r, scores, version, reviews).value)
  {
    RoundWriteRemembers(t, r, scores, false, t.rounds[r].version + 1);
  }

  lemma CorrectRemembers(t: Tables, r: RoundId, scores: map<MatchupId, Score>, reason: string, version: Option<nat>, reviews: map<MatchupId, nat>)
    requires Inv(t) && CorrectResults(t, r, scores, reason, version, reviews).Ok?
    ensures Remembers(t, CorrectResults(t, r, scores, reason, version, reviews).value)
  {
    RoundWriteRemembers(t, r, scores, true, t.rounds[r].version + 1);
  }

  lemma LockedStates(t: Tables, r: RoundId)
    requires Inv(t) && r in t.rounds
    ensures Distinct(Locked(t.matchups, r))
    ensures forall m :: m in Locked(t.matchups, r) ==> m < |t.matchups| && (t.matchups[m].effective.Some? <==> t.rounds[r].state == Final)
  {
    LockedAre(t.matchups, r);
    forall m | m in Locked(t.matchups, r) ensures t.matchups[m].effective.Some? <==> t.rounds[r].state == Final { assert RoundOk(t, m); }
  }

  lemma StepRemembers(t: Tables, step: Step)
    requires Inv(t)
    ensures Remembers(t, Apply(t, step))
  {
    if Attempt(t, step).Ok? {
      match step
      case Create(_, _, _) => SmallStepRemembers(t, step);
      case Move(_, _, _) => SmallStepRemembers(t, step);
      case Ruling(_, _) => SmallStepRemembers(t, step);
      case CorrectOne(m, score, _, _) => OneWriteRemembers(t, m, score);
      case Publish(r, scores, version, reviews) => PublishRemembers(t, r, scores, version, reviews);
      case Correct(r, scores, reason, version, reviews) => CorrectRemembers(t, r, scores, reason, version, reviews);
    }
  }

  lemma SmallStepRemembers(t: Tables, step: Step)
    requires Inv(t) && Attempt(t, step).Ok? && (step.Create? || step.Move? || step.Ruling?)
    ensures Remembers(t, Attempt(t, step).value)
  {
    assert Attempt(t, step).value.results == t.results;
  }

  lemma OneWriteRemembers(t: Tables, m: MatchupId, score: Score)
    requires m < |t.matchups| && t.matchups[m].effective.Some? && (m, NextVersion(t.matchups[m], true)) !in t.results
    ensures Remembers(t, WriteResult(t, m, score, true))
  {
  }

  lemma RemembersTransitive(a: Tables, b: Tables, c: Tables)
    requires Remembers(a, b) && Remembers(b, c)
    ensures Remembers(a, c)
  {
    forall k | k in a.results ensures k in c.results && c.results[k] == a.results[k] { assert k in b.results; }
    forall m | 0 <= m < |a.matchups| ensures Onward(a.matchups[m], c.matchups[m]) {
      assert Onward(a.matchups[m], b.matchups[m]) && Onward(b.matchups[m], c.matchups[m]);
    }
  }

  /** Official versions are never rewritten, rounds never go back, and a final round is final for good. */
  lemma {:induction false} RunRemembers(t: Tables, steps: seq<Step>)
    requires Inv(t)
    ensures Remembers(t, Run(t, steps))
    decreases |steps|
  {
    if steps != [] {
      StepKeeps(t, steps[0]);
      StepRemembers(t, steps[0]);
      RunRemembers(Apply(t, steps[0]), steps[1..]);
      RemembersTransitive(t, Apply(t, steps[0]), Run(t, steps));
    }
  }

  /** An accepted step that writes this round's row: a transition, a publication or a round-wide correction of it. */
  predicate WritesRound(t: Tables, step: Step, r: RoundId) {
    Attempt(t, step).Ok? && (
      || (step.Move? && step.r == r)
      || (step.Publish? && step.r == r)
      || (step.Correct? && step.r == r))
  }

  /** A round moves one state at a time, and its version goes up by one exactly when its row is written. */
  lemma StatesAdvanceByOne(t: Tables, step: Step, r: RoundId)
    requires Inv(t) && r in t.rounds
    ensures r in Apply(t, step).rounds
    ensures var a, b := t.rounds[r], Apply(t, step).rounds[r];
            && b.version == a.version + (if WritesRound(t, step, r) then 1 else 0)
            && Rank(b.state) == Rank(a.state) + (if WritesRound(t, step, r) && !step.Correct? then 1 else 0)
            && (!WritesRound(t, step, r) ==> b == a)
  {
    if Attempt(t, step).Ok? && (step.Publish? || step.Correct?) { LockedAre(t.matchups, step.r); }
  }

  function RoundWriters(t: Tables, steps: seq<Step>, r: RoundId): nat
    decreases |steps|
  {
    if steps == [] then 0
    else (if WritesRound(t, steps[0], r) then 1 else 0) + RoundWriters(Apply(t, steps[0]), steps[1..], r)
  }

  /** Over any run a round's version counts the committed writers of its row. */
  lemma {:induction false} RoundVersionCounts(t: Tables, steps: seq<Step>, r: RoundId)
    requires Inv(t) && r in t.rounds
    ensures r in Run(t, steps).rounds
    ensures Run(t, steps).rounds[r].version == t.rounds[r].version + RoundWriters(t, steps, r)
    decreases |steps|
  {
    if steps != [] {
      StatesAdvanceByOne(t, steps[0], r);
      StepKeeps(t, steps[0]);
      RoundVersionCounts(Apply(t, steps[0]), steps[1..], r);
    }
  }

  /** A publication or round-wide correction prepared against this version of the round. */
  predicate ExpectsRound(step: Step, r: RoundId, version: nat) {
    || (step.Publish? && step.r == r && step.expectedRound == Some(version))
    || (step.Correct? && step.r == r && step.expectedRound == Some(version))
  }

  /** Of two round-wide writers that expect the same version of a round at most one commits, whatever runs in between. */
  lemma AtMostOneRoundWriterCommits(t: Tables, first: Step, between: seq<Step>, second: Step, r: RoundId, version: nat)
    requires Inv(t) && ExpectsRound(first, r, version) && ExpectsRound(second, r, version)
    requires Attempt(t, first).Ok?
    ensures Attempt(Run(Apply(t, first), between), second).Err?
  {
    FoundRoundExpected(t, first, r, version);
    StatesAdvanceByOne(t, first, r);
    StepKeeps(t, first);
    RoundVersionCounts(Apply(t, first), between, r);
    var last := Run(Apply(t, first), between);
    StaleRoundRefused(last, second, r, version);
  }

  lemma FoundRoundExpected(t: Tables, step: Step, r: RoundId, version: nat)
    requires ExpectsRound(step, r, version) && Attempt(t, step).Ok?
    ensures r in t.rounds && t.rounds[r].version == version && WritesRound(t, step, r)
  {
  }

  lemma StaleRoundRefused(t: Tables, step: Step, r: RoundId, version: nat)
    requires ExpectsRound(step, r, version) && r in t.rounds && t.rounds[r].version != version
    ensures Attempt(t, step).Err?
  {
  }

  predicate FirstPublished(t: Tables, next: Tables, scores: map<MatchupId, Score>, m: MatchupId) {
    && m < |t.matchups| && t.matchups[m].effective == None
    && m < |next.matchups| && next.matchups[m].effective == Some(1)
    && (m, 1) in next.results && m in scores && next.results[(m, 1)] == scores[m]
  }

  /** A step makes a round final only by publishing it, from review, with all five results. */
  lemma FinalOnlyByPublication(t: Tables, step: Step, r: RoundId)
    requires Inv(t) && r in Apply(t, step).rounds && Apply(t, step).rounds[r].state == Final
    requires r in t.rounds ==> t.rounds[r].state != Final
    ensures step.Publish? && step.r == r && r in t.rounds && t.rounds[r].state == Review
    ensures forall m :: m in Locked(t.matchups, r) ==> FirstPublished(t, Apply(t, step), step.scores, m)
  {
    LockedAre(t.matchups, r);
    assert Attempt(t, step).Ok? && step.Publish?;
    var ids := Locked(t.matchups, r);
    WriteResultsAre(t, ids, step.scores, false);
    forall m | m in ids
      ensures FirstPublished(t, Apply(t, step), step.scores, m)
    {
      assert RoundOk(t, m);
      var k: (MatchupId, nat) := (m, 1);
      assert k in WriteResults(t, ids, step.scores, false).results;
    }
  }

  /** The result table's primary key and the incomplete-round guard never have to refuse anything. */
  lemma DefensiveGuardsNeverFire(t: Tables, step: Step)
    requires Inv(t)
    ensures Attempt(t, step) != Err(DuplicateVersion) && Attempt(t, step) != Err(Incomplete) && Attempt(t, step) != Err(NotFive)
  {
    if step.Publish? || step.Correct? {
      var ids := Locked(t.matchups, step.r);
      LockedAre(t.matchups, step.r);
      forall m | m in ids ensures VersionsOk(t, m) && RoundOk(t, m) {}
    } else if step.CorrectOne? && step.m < |t.matchups| {
      assert VersionsOk(t, step.m) && RoundOk(t, step.m);
    }
  }

  /** ... so the checks on the round and on the submitted results decide alone. */
  lemma PublishDecides(t: Tables, r: RoundId, scores: map<MatchupId, Score>, version: Option<nat>, reviews: map<MatchupId, nat>)
    requires Inv(t)
    ensures PublishResults(t, r, scores, version, reviews).Ok?
       <==> CheckRound(t, r, version, Review).Ok? && CheckResults(t, r, scores, reviews).Ok?
  {
    DefensiveGuardsNeverFire(t, Publish(r, scores, version, reviews));
  }

  lemma CorrectDecides(t: Tables, r: RoundId, scores: map<MatchupId, Score>, reason: string, version: Option<nat>, reviews: map<MatchupId, nat>)
    requires Inv(t)
    ensures CorrectResults(t, r, scores, reason, version, reviews).Ok?
       <==> reason != "" && CheckRound(t, r, version, Final).Ok? && CheckResults(t, r, scores, reviews).Ok?
  {
    DefensiveGuardsNeverFire(t, Correct(r, scores, reason, version, reviews));
  }

  // ----- Compare and swap -----

  /** An accepted step that moves this matchup's review on: a ruling on it, or a correction that includes it. */
  predicate Writes(t: Tables, step: Step, m: MatchupId) {
    Attempt(t, step).Ok? && (
      || (step.Ruling? && step.m == m)
      || (step.CorrectOne? && step.m == m)
      || (step.Correct? && m in Locked(t.matchups, step.r)))
  }

  predicate Corrects(t: Tables, step: Step, m: MatchupId) {
    Writes(t, step, m) && !step.Ruling?
  }

  function Writers(t: Tables, steps: seq<Step>, m: MatchupId): nat
    decreases |steps|
  {
    if steps == [] then 0
    else (if Writes(t, steps[0], m) then 1 else 0) + Writers(Apply(t, steps[0]), steps[1..], m)
  }

  function Corrections(t: Tables, steps: seq<Step>, m: MatchupId): nat
    decreases |steps|
  {
    if steps == [] then 0
    else (if Corrects(t, steps[0], m) then 1 else 0) + Corrections(Apply(t, steps[0]), steps[1..], m)
  }

  /** Review up by one when written, effective version up by one when corrected. */
  predicate Counted(a: Matchup, b: Matchup, writers: nat, corrections: nat) {
    && b.review == a.review + writers
    && (a.effective.Some? ==> b.effective == Some(a.effective.value + corrections))
  }

  lemma RoundWriteCounts(t: Tables, r: RoundId, scores: map<MatchupId, Score>, correcting: bool, m: MatchupId)
    requires Inv(t) && r in t.rounds && (correcting <==> t.rounds[r].state == Final) && m < |t.matchups|
    requires forall x :: x in Locked(t.matchups, r) ==> x < |t.matchups| && x in scores
    ensures var moved := if correcting && m in Locked(t.matchups, r) then 1 else 0;
            Counted(t.matchups[m], WriteResults(t, Locked(t.matchups, r), scores, correcting).matchups[m], moved, moved)
  {
    LockedAre(t.matchups, r);
    assert RoundOk(t, m);
    WriteResultsAre(t, Locked(t.matchups, r), scores, correcting);
  }

  lemma StepCounts(t: Tables, step: Step, m: MatchupId)
    requires Inv(t) && m < |t.matchups|
    ensures m < |Apply(t, step).matchups|
    ensures Counted(t.matchups[m], Apply(t, step).matchups[m], if Writes(t, step, m) then 1 else 0, if Corrects(t, step, m) then 1 else 0)
  {
    if Attempt(t, step).Ok? {
      match step
      case Create(_, _, _) =>
      case Move(_, _, _) =>
      case Ruling(_, _) =>
      case CorrectOne(_, _, _, _) =>
      case Publish(r, scores, _, _) => RoundWriteCounts(t, r, scores, false, m);
      case Correct(r, scores, _, _, _) => RoundWriteCounts(t, r, scores, true, m);
    }
  }

  /** Over any run a matchup's review counts its committed writers, and its effective version its corrections. */
  lemma {:induction false} RunCounts(t: Tables, steps: seq<Step>, m: MatchupId)
    requires Inv(t) && m < |t.matchups|
    ensures var last := Run(t, steps);
            && m < |last.matchups|
            && Counted(t.matchups[m], last.matchups[m], Writers(t, steps, m), Corrections(t, steps, m))
    decreases |steps|
  {
    if steps != [] {
      StepCounts(t, steps[0], m);
      StepKeeps(t, steps[0]);
      RunCounts(Apply(t, steps[0]), steps[1..], m);
    }
  }

  /** The score a correcting step submits for a matchup. */
  function Submitted(step: Step, m: MatchupId): Option<Score> {
    match step
    case CorrectOne(_, score, _, _) => Some(score)
    case Correct(_, scores, _, _, _) => if m in scores then Some(scores[m]) else None
    case _ => None
  }

  /** An accepted correction makes exactly the submitted scores effective, as one new version each, and leaves every
      matchup it does not name as it was. */
  lemma CorrectionWritesItsScores(t: Tables, step: Step, m: MatchupId)
    requires Inv(t) && Attempt(t, step).Ok? && (step.Correct? || step.CorrectOne?) && m < |t.matchups|
    ensures var next := Apply(t, step);
            && |next.matchups| == |t.matchups|
            && (!Corrects(t, step, m) ==> next.matchups[m] == t.matchups[m])
            && (Corrects(t, step, m) ==>
                  t.matchups[m].effective.Some?
                  && var version := t.matchups[m].effective.value + 1;
                     next.matchups[m].effective == Some(version) && (m, version) !in t.results
                     && (m, version) in next.results && Some(next.results[(m, version)]) == Submitted(step, m))
  {
    assert VersionsOk(t, m) && RoundOk(t, m);
    if step.Correct? {
      var ids := Locked(t.matchups, step.r);
      LockedStates(t, step.r);
      WriteResultsAre(t, ids, step.scores, true);
      if m in ids {
        var k: (MatchupId, nat) := (m, NextVersion(t.matchups[m], true));
        assert k in WriteResults(t, ids, step.scores, true).results;
      }
    }
  }

  /** The step names the review version of this matchup it was prepared against. */
  predicate Expects(step: Step, m: MatchupId, review: nat) {
    || (step.Ruling? && step.m == m && step.expectedReview == Some(review))
    || (step.CorrectOne? && step.m == m && step.expectedReview == Some(review))
    || (step.Correct? && m in step.expected && step.expected[m] == review)
    || (step.Publish? && m in step.expected && step.expected[m] == review)
  }

  /** An accepted step that expects a version and covers the matchup found exactly that version. */
  lemma AcceptedFoundExpected(t: Tables, step: Step, m: MatchupId, review: nat)
    requires Inv(t) && m < |t.matchups| && Expects(step, m, review) && Attempt(t, step).Ok?
    requires step.Publish? || step.Correct? ==> m in Locked(t.matchups, step.r)
    ensures t.matchups[m].review == review
  {
    if step.Publish? || step.Correct? {
      LockedAre(t.matchups, step.r);
      assert !ReviewMoved(t.matchups, Locked(t.matchups, step.r), step.expected);
    }
  }

  /** No lost update: once a writer that expected a review version commits, no later step expecting that same
      version for that matchup can commit, whatever happens in between and whether it is round-wide or single. */
  lemma AtMostOneCommits(t: Tables, first: Step, between: seq<Step>, second: Step, m: MatchupId, review: nat)
    requires Inv(t) && m < |t.matchups|
    requires Expects(first, m, review) && Expects(second, m, review)
    requires Writes(t, first, m)
    requires second.Publish? || second.Correct? ==> m in Locked(Run(Apply(t, first), between).matchups, second.r)
    ensures Attempt(Run(Apply(t, first), between), second).Err?
  {
    StepKeeps(t, first);
    StepCounts(t, first, m);
    RunKeeps(Apply(t, first), between);
    RunCounts(Apply(t, first), between, m);
    LockedWrites(t, first, m);
    AcceptedFoundExpected(t, first, m, review);
    var last := Run(Apply(t, first), between);
    if Attempt(last, second).Ok? {
      AcceptedFoundExpected(last, second, m, review);
      assert false;
    }
  }

  lemma LockedWrites(t: Tables, step: Step, m: MatchupId)
    requires Writes(t, step, m)
    ensures step.Publish? || step.Correct? ==> m in Locked(t.matchups, step.r)
  {
  }

  /** A publication or correction that commits with the review version the caller read sees every ruling and
      correction committed on that matchup: there has been none since. */
  lemma CommitSeesEveryWriter(t: Tables, between: seq<Step>, step: Step, m: MatchupId)
    requires Inv(t) && m < |t.matchups| && Expects(step, m, t.matchups[m].review)
    requires step.Publish? || step.Correct? ==> m in Locked(Run(t, between).matchups, step.r)
    requires Attempt(Run(t, between), step).Ok?
    ensures Writers(t, between, m) == 0
  {
    RunKeeps(t, between);
    RunCounts(t, between, m);
    AcceptedFoundExpected(Run(t, between), step, m, t.matchups[m].review);
  }

  /** A single correction leaves the round row where it was, so a round-wide correction prepared before it
      still commits over it exactly when it names no review version for that matchup. */
  lemma RoundCorrectionOverridesIff(t: Tables, m: MatchupId, score: Score, why: string, step: Step)
    requires Inv(t) && step.Correct? && Attempt(t, step).Ok? && m in Locked(t.matchups, step.r)
    requires m < |t.matchups| && Attempt(t, CorrectOne(m, score, why, None)).Ok?
    ensures Apply(t, CorrectOne(m, score, why, None)).rounds == t.rounds
    ensures Attempt(Apply(t, CorrectOne(m, score, why, None)), step).Ok? <==> m !in step.expected
  {
    var one := CorrectOne(m, score, why, None);
    var next := Apply(t, one);
    var ids := Locked(t.matchups, step.r);
    LockedAre(t.matchups, step.r);
    StepKeeps(t, one);
    LockedSame(t.matchups, next.matchups, step.r);
    DefensiveGuardsNeverFire(next, step);
    assert !ReviewMoved(t.matchups, ids, step.expected);
    if m in step.expected {
      assert next.matchups[m].review != step.expected[m];
      assert ReviewMoved(next.matchups, ids, step.expected);
    } else {
      assert !ReviewMoved(next.matchups, ids, step.expected);
    }
  }
}
