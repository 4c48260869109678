/** Ordinary rounds: a forward-only state machine over append-only result versions, guarded by compare-and-swap. */
module Lifecycle {
  import opened Options

  type RoundId = nat
  type MatchupId = nat

  datatype RoundState = Upcoming | Open | Live | Review | Final

  function LegalTransitions(s: RoundState): set<RoundState> {
    match s
    case Upcoming => {Open}
    case Open => {Live}
    case Live => {Review}
    case Review => {}
    case Final => {}
  }

  datatype Round = Round(state: RoundState, version: nat)

  datatype Matchup = Matchup(round: RoundId, home: nat, away: nat, effective: Option<nat>, review: nat)

  datatype Score = Score(home: real, away: real)

  /** The lifecycle, matchup and official-result tables; results are keyed by matchup and version. */
  datatype Tables = Tables(rounds: map<RoundId, Round>, matchups: seq<Matchup>, results: map<(MatchupId, nat), Score>)

  datatype Refusal = NoSuchRow | AlreadyExists | BadFixture | ContextChanged | IllegalTransition | Stale
                   | WrongState | NotFive | WrongResultSet | Incomplete | ReasonRequired | DuplicateVersion

  // ----- Creation and transitions -----

  predicate Distinct(s: seq<nat>) {
    forall i, j :: 0 <= i < j < |s| ==> s[i] != s[j]
  }

  function Sides(pairs: seq<(nat, nat)>): seq<nat> {
    if pairs == [] then [] else Sides(pairs[..|pairs| - 1]) + [pairs[|pairs| - 1].0, pairs[|pairs| - 1].1]
  }

  function NewMatchups(r: RoundId, pairs: seq<(nat, nat)>): (ms: seq<Matchup>)
    ensures |ms| == |pairs|
    ensures forall i :: 0 <= i < |ms| ==> ms[i] == Matchup(r, pairs[i].0, pairs[i].1, None, 1)
  {
    if pairs == [] then []
    else
      var n := |pairs| - 1;
      NewMatchups(r, pairs[..n]) + [Matchup(r, pairs[n].0, pairs[n].1, None, 1)]
  }

  /** `contextOk` is what the frozen fixture and the accepted mapping say, outside these tables. */
  function CreateRound(t: Tables, r: RoundId, pairs: seq<(nat, nat)>, contextOk: bool): Result<Tables, Refusal> {
    if r in t.rounds then Err(AlreadyExists)
    else if |pairs| != 5 || !Distinct(Sides(pairs)) then Err(BadFixture)
    else if !contextOk then Err(ContextChanged)
    else Ok(t.(rounds := t.rounds[r := Round(Upcoming, 1)], matchups := t.matchups + NewMatchups(r, pairs)))
  }

  function Transition(t: Tables, r: RoundId, target: RoundState, contextOk: bool): Result<Tables, Refusal> {
    if r !in t.rounds then Err(NoSuchRow)
    else if target !in LegalTransitions(t.rounds[r].state) then Err(IllegalTransition)
    else if t.rounds[r].state == Upcoming && !contextOk then Err(ContextChanged)
    else Ok(t.(rounds := t.rounds[r := Round(target, t.rounds[r].version + 1)]))
  }

  // ----- Results -----

  /** The matchups of a round, in their order. */
  function Locked(matchups: seq<Matchup>, r: RoundId): seq<MatchupId> {
    if matchups == [] then []
    else
      var n := |matchups| - 1;
      Locked(matchups[..n], r) + (if matchups[n].round == r then [n] else [])
  }

  function Ids(s: seq<MatchupId>): set<MatchupId> { set m | m in s }

  /** Some matchup's review has moved on from what the caller read. */
  predicate ReviewMoved(matchups: seq<Matchup>, ids: seq<MatchupId>, expected: map<MatchupId, nat>)
    requires forall m :: m in ids ==> m < |matchups|
  {
    exists m :: m in ids && m in expected && matchups[m].review != expected[m]
  }

  lemma {:induction false} LockedAre(matchups: seq<Matchup>, r: RoundId)
    ensures var ids := Locked(matchups, r);
            && Distinct(ids)
            && forall m :: m in ids <==> 0 <= m < |matchups| && matchups[m].round == r
  {
    if matchups != [] {
      var n := |matchups| - 1;
      LockedAre(matchups[..n], r);
      assert n !in Locked(matchups[..n], r);
    }
  }

  /** Publication writes version 1; a correction writes the one after the effective version. */
  function NextVersion(m: Matchup, correcting: bool): nat {
    if correcting && m.effective.Some? then m.effective.value + 1 else 1
  }

  /** The matchup once its next version is effective; a correction also moves its review on. */
  function Written(m: Matchup, correcting: bool): Matchup {
    m.(effective := Some(NextVersion(m, correcting)), review := if correcting then m.review + 1 else m.review)
  }

  function WriteResult(t: Tables, m: MatchupId, score: Score, correcting: bool): Tables
    requires m < |t.matchups|
  {
    t.(results := t.results[(m, NextVersion(t.matchups[m], correcting)) := score],
       matchups := t.matchups[m := Written(t.matchups[m], correcting)])
  }

  function WriteResults(t: Tables, ids: seq<MatchupId>, scores: map<MatchupId, Score>, correcting: bool): (r: Tables)
    requires forall m :: m in ids ==> m < |t.matchups| && m in scores
    ensures |r.matchups| == |t.matchups| && r.rounds == t.rounds
  {
    if ids == [] then t
    else
      var n := |ids| - 1;
      assert forall m :: m in ids[..n] ==> m in ids;
      WriteResult(WriteResults(t, ids[..n], scores, correcting), ids[n], scores[ids[n]], correcting)
  }

  /** The primary key of the result table would refuse one of the versions about to be written. */
  predicate VersionTaken(t: Tables, ids: seq<MatchupId>, correcting: bool)
    requires forall m :: m in ids ==> m < |t.matchups|
  {
    exists m :: m in ids && (m, NextVersion(t.matchups[m], correcting)) in t.results
  }

  function CheckRound(t: Tables, r: RoundId, expectedRound: Option<nat>, state: RoundState): Result<(), Refusal> {
    if r !in t.rounds then Err(NoSuchRow)
    else if expectedRound.Some? && t.rounds[r].version != expectedRound.value then Err(Stale)
    else if t.rounds[r].state != state then Err(WrongState)
    else Ok(())
  }

  function CheckResults(t: Tables, r: RoundId, scores: map<MatchupId, Score>, expected: map<MatchupId, nat>): (c: Result<(), Refusal>)
    ensures c.Ok? ==> forall m :: m in Locked(t.matchups, r) ==> m < |t.matchups| && m in scores
  {
    var ids := Locked(t.matchups, r);
    LockedAre(t.matchups, r);
    if |ids| != 5 then Err(NotFive)
    else if scores.Keys != Ids(ids) then Err(WrongResultSet)
    else if ReviewMoved(t.matchups, ids, expected) then Err(Stale)
    else
      assert forall m :: m in ids ==> m in Ids(ids);
      Ok(())
  }

  /** The first official versions of all five matchups, and the final state, or nothing. */
  function PublishResults(t: Tables, r: RoundId, scores: map<MatchupId, Score>, expectedRound: Option<nat>, expected: map<MatchupId, nat>): Result<Tables, Refusal> {
    var _ :- CheckRound(t, r, expectedRound, Review);
    var _ :- CheckResults(t, r, scores, expected);
    var ids := Locked(t.matchups, r);
    if VersionTaken(t, ids, false) then Err(DuplicateVersion)
    else Ok(WriteResults(t, ids, scores, false).(rounds := t.rounds[r := Round(Final, t.rounds[r].version + 1)]))
  }

  function CorrectResults(t: Tables, r: RoundId, scores: map<MatchupId, Score>, reason: string, expectedRound: Option<nat>, expected: map<MatchupId, nat>): Result<Tables, Refusal> {
    if reason == "" then Err(ReasonRequired)
    else
      var _ :- CheckRound(t, r, expectedRound, Final);
      var _ :- CheckResults(t, r, scores, expected);
      var ids := Locked(t.matchups, r);
      if exists m :: m in ids && t.matchups[m].effective.None? then Err(Incomplete)
      else if VersionTaken(t, ids, true) then Err(DuplicateVersion)
      else Ok(WriteResults(t, ids, scores, true).(rounds := t.rounds[r := t.rounds[r].(version := t.rounds[r].version + 1)]))
  }

  function CorrectMatchup(t: Tables, m: MatchupId, score: Score, reason: string, expected: Option<nat>): Result<Tables, Refusal> {
    if reason == "" then Err(ReasonRequired)
    else if m >= |t.matchups| then Err(NoSuchRow)
    else if expected.Some? && t.matchups[m].review != expected.value then Err(Stale)
    else if t.matchups[m].round !in t.rounds || t.rounds[t.matchups[m].round].state != Final then Err(WrongState)
    else if t.matchups[m].effective.None? then Err(Incomplete)
    else if (m, NextVersion(t.matchups[m], true)) in t.results then Err(DuplicateVersion)
    else Ok(WriteResult(t, m, score, true))
  }

  /** A scorer's ruling on a matchup: its contents live elsewhere, its review version moves on here. */
  function Judge(t: Tables, m: MatchupId, expected: Option<nat>): Result<Tables, Refusal> {
    if m >= |t.matchups| then Err(NoSuchRow)
    else if expected.Some? && t.matchups[m].review != expected.value then Err(Stale)
    else Ok(t.(matchups := t.matchups[m := t.matchups[m].(review := t.matchups[m].review + 1)]))
  }

  // ----- Runs -----

  datatype Step =
    | Create(r: RoundId, pairs: seq<(nat, nat)>, contextOk: bool)
    | Move(r: RoundId, target: RoundState, contextOk: bool)
    | Publish(r: RoundId, scores: map<MatchupId, Score>, expectedRound: Option<nat>, expected: map<MatchupId, nat>)
    | Correct(r: RoundId, scores: map<MatchupId, Score>, reason: string, expectedRound: Option<nat>, expected: map<MatchupId, nat>)
    | CorrectOne(m: MatchupId, score: Score, reason: string, expectedReview: Option<nat>)
    | Ruling(m: MatchupId, expectedReview: Option<nat>)

  function Attempt(t: Tables, step: Step): Result<Tables, Refusal> {
    match step
    case Create(r, pairs, ok) => CreateRound(t, r, pairs, ok)
    case Move(r, target, ok) => Transition(t, r, target, ok)
    case Publish(r, scores, version, reviews) => PublishResults(t, r, scores, version, reviews)
    case Correct(r, scores, reason, version, reviews) => CorrectResults(t, r, scores, reason, version, reviews)
    case CorrectOne(m, score, reason, review) => CorrectMatchup(t, m, score, reason, review)
    case Ruling(m, review) => Judge(t, m, review)
  }

  /** A refused step changes nothing. */
  function Apply(t: Tables, step: Step): Tables {
    var r := Attempt(t, step);
    if r.Ok? then r.value else t
  }

  function Run(t: Tables, steps: seq<Step>): Tables
    decreases |steps|
  {
    if steps == [] then t else Run(Apply(t, steps[0]), steps[1..])
  }

  const EMPTY := Tables(map[], [], map[])

  // ----- The invariant -----

  /** Versions of a matchup are exactly 1 up to its effective one. */
  ghost predicate VersionsOk(t: Tables, m: MatchupId)
    requires m < |t.matchups|
  {
    && (t.matchups[m].effective.Some? ==> t.matchups[m].effective.value >= 1)
    && forall v: nat :: (m, v) in t.results <==> t.matchups[m].effective.Some? && 1 <= v <= t.matchups[m].effective.value
  }

  /** A matchup has an official result exactly when its round is final. */
  predicate RoundOk(t: Tables, m: MatchupId)
    requires m < |t.matchups|
  {
    && t.matchups[m].round in t.rounds
    && (t.matchups[m].effective.Some? <==> t.rounds[t.matchups[m].round].state == Final)
  }

  ghost predicate Inv(t: Tables) {
    && (forall m :: 0 <= m < |t.matchups| ==> VersionsOk(t, m) && RoundOk(t, m))
    && (forall k :: k in t.results ==> k.0 < |t.matchups|)
    && (forall r :: r in t.rounds ==> |Locked(t.matchups, r)| == 5)
  }
}
