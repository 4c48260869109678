/** The lifecycle repository: each method one transaction, its per-matchup loops inside. */
module LifecycleRepository {
  import opened Options
  import opened Lifecycle
  import opened LifecycleTheorems

  class LifecycleDatabase {
    var rounds: map<RoundId, Round>
    var matchups: seq<Matchup>
    var results: map<(MatchupId, nat), Score>

    function Contents(): Tables
      reads this
    {
      Tables(rounds, matchups, results)
    }

    constructor ()
      ensures Contents() == EMPTY && Inv(Contents())
    {
      rounds, matchups, results := map[], [], map[];
    }

    /** A lifecycle row at version one and the five fixture pairs, or nothing. */
    method CreateOrdinaryRound(r: RoundId, pairs: seq<(nat, nat)>, contextOk: bool) returns (refusal: Option<Refusal>)
      modifies this
      ensures Contents() == Apply(old(Contents()), Create(r, pairs, contextOk))
      ensures refusal.None? <==> CreateRound(old(Contents()), r, pairs, contextOk).Ok?
    {
      if r in rounds { return Some(AlreadyExists); }
      if |pairs| != 5 || !Distinct(Sides(pairs)) { return Some(BadFixture); }
      if !contextOk { return Some(ContextChanged); }
      rounds := rounds[r := Round(Upcoming, 1)];
      ghost var before := matchups;
      for i := 0 to |pairs|
        invariant matchups == before + NewMatchups(r, pairs)[..i]
        invariant rounds == old(rounds)[r := Round(Upcoming, 1)] && results == old(results)
      {
        matchups := matchups + [Matchup(r, pairs[i].0, pairs[i].1, None, 1)];
      }
      return None;
    }

    method MoveRound(r: RoundId, target: RoundState, contextOk: bool) returns (refusal: Option<Refusal>)
      modifies this`rounds
      ensures Contents() == Apply(old(Contents()), Move(r, target, contextOk))
      ensures refusal.None? <==> Transition(old(Contents()), r, target, contextOk).Ok?
    {
      if r !in rounds { return Some(NoSuchRow); }
      var row := rounds[r];
      if target !in LegalTransitions(row.state) { return Some(IllegalTransition); }
      if row.state == Upcoming && !contextOk { return Some(ContextChanged); }
      rounds := rounds[r := Round(target, row.version + 1)];
      return None;
    }

    method LockedMatchups(r: RoundId) returns (ids: seq<MatchupId>)
      ensures ids == Locked(matchups, r)
    {
      ids := [];
      for m := 0 to |matchups|
        invariant ids == Locked(matchups[..m], r)
      {
        assert matchups[..m + 1][..m] == matchups[..m];
        if matchups[m].round == r { ids := ids + [m]; }
      }
      assert matchups[..|matchups|] == matchups;
    }

    method ReviewVersionsMoved(ids: seq<MatchupId>, expected: map<MatchupId, nat>) returns (moved: bool)
      requires forall m :: m in ids ==> m < |matchups|
      ensures moved <==> ReviewMoved(matchups, ids, expected)
    {
      for i := 0 to |ids|
        invariant forall m :: m in ids[..i] ==> m in ids
        invariant forall m :: m in ids[..i] && m in expected ==> matchups[m].review == expected[m]
      {
        var m := ids[i];
        assert m in ids && ids[..i + 1] == ids[..i] + [m];
        if m in expected && matchups[m].review != expected[m] { return true; }
      }
      assert ids[..|ids|] == ids;
      return false;
    }

    method CheckRoundAndResults(r: RoundId, scores: map<MatchupId, Score>, expectedRound: Option<nat>, expected: map<MatchupId, nat>, state: RoundState)
      returns (c: Result<seq<MatchupId>, Refusal>)
      ensures c.Ok? <==> CheckRound(Contents(), r, expectedRound, state).Ok? && CheckResults(Contents(), r, scores, expected).Ok?
      ensures c.Ok? ==> c.value == Locked(matchups, r) && forall m :: m in c.value ==> m < |matchups| && m in scores
    {
      if r !in rounds { return Err(NoSuchRow); }
      if expectedRound.Some? && rounds[r].version != expectedRound.value { return Err(Stale); }
      if rounds[r].state != state { return Err(WrongState); }
      var ids := LockedMatchups(r);
      LockedAre(matchups, r);
      if |ids| != 5 { return Err(NotFive); }
      if scores.Keys != Ids(ids) { return Err(WrongResultSet); }
      var moved := ReviewVersionsMoved(ids, expected);
      if moved { return Err(Stale); }
      assert forall m :: m in ids ==> m in Ids(ids);
      return Ok(ids);
    }

    /** The loop shared by publication and correction: insert the version, then repoint the matchup at it. */
    method WriteEach(ids: seq<MatchupId>, scores: map<MatchupId, Score>, correcting: bool)
      requires forall m :: m in ids ==> m < |matchups| && m in scores
      modifies this`results, this`matchups
      ensures Contents() == WriteResults(old(Contents()), ids, scores, correcting)
    {
      ghost var start := Contents();
      for i := 0 to |ids|
        invariant |matchups| == |start.matchups|
        invariant (forall m :: m in ids[..i] ==> m in ids) && Contents() == WriteResults(start, ids[..i], scores, correcting)
      {
        var m := ids[i];
        assert m in ids && ids[..i + 1][..i] == ids[..i] && forall x :: x in ids[..i + 1] ==> x in ids;
        var version := NextVersion(matchups[m], correcting);
        results := results[(m, version) := scores[m]];
        matchups := matchups[m := Written(matchups[m], correcting)];
      }
      assert ids[..|ids|] == ids;
    }

    /** All five version-one results and the final state commit together, or nothing does. */
    method PublishRound(r: RoundId, scores: map<MatchupId, Score>, expectedRound: Option<nat>, expected: map<MatchupId, nat>)
      returns (refusal: Option<Refusal>)
      requires Inv(Contents())
      modifies this
      ensures Contents() == Apply(old(Contents()), Publish(r, scores, expectedRound, expected)) && Inv(Contents())
      ensures refusal.None? <==> PublishResults(old(Contents()), r, scores, expectedRound, expected).Ok?
    {
      StepKeeps(Contents(), Publish(r, scores, expectedRound, expected));
      PublishDecides(Contents(), r, scores, expectedRound, expected);
      var ids := CheckRoundAndResults(r, scores, expectedRound, expected, Review);
      if ids.Err? { return Some(ids.error); }
      var version := rounds[r].version + 1;
      WriteEach(ids.value, scores, false);
      rounds := rounds[r := Round(Final, version)];
      return None;
    }

    /** One new version for every matchup of a final round. */
    method CorrectRound(r: RoundId, scores: map<MatchupId, Score>, reason: string, expectedRound: Option<nat>, expected: map<MatchupId, nat>)
      returns (refusal: Option<Refusal>)
      requires Inv(Contents())
      modifies this
      ensures Contents() == Apply(old(Contents()), Correct(r, scores, reason, expectedRound, expected)) && Inv(Contents())
      ensures refusal.None? <==> CorrectResults(old(Contents()), r, scores, reason, expectedRound, expected).Ok?
    {
      StepKeeps(Contents(), Correct(r, scores, reason, expectedRound, expected));
      CorrectDecides(Contents(), r, scores, reason, expectedRound, expected);
      if reason == "" { return Some(ReasonRequired); }
      var ids := CheckRoundAndResults(r, scores, expectedRound, expected, Final);
      if ids.Err? { return Some(ids.error); }
      var version := rounds[r].version + 1;
      WriteEach(ids.value, scores, true);
      rounds := rounds[r := rounds[r].(version := version)];
      return None;
    }

    /** One new version for one matchup; the round row is not touched. */
    method CorrectMatchupResult(m: MatchupId, score: Score, reason: string, expected: Option<nat>) returns (refusal: Option<Refusal>)
      requires Inv(Contents())
      modifies this`results, this`matchups
      ensures Contents() == Apply(old(Contents()), CorrectOne(m, score, reason, expected)) && Inv(Contents())
      ensures refusal.None? <==> CorrectMatchup(old(Contents()), m, score, reason, expected).Ok?
    {
      StepKeeps(Contents(), CorrectOne(m, score, reason, expected));
      DefensiveGuardsNeverFire(Contents(), CorrectOne(m, score, reason, expected));
      if reason == "" { return Some(ReasonRequired); }
      if m >= |matchups| { return Some(NoSuchRow); }
      if expected.Some? && matchups[m].review != expected.value { return Some(Stale); }
      if matchups[m].round !in rounds || rounds[matchups[m].round].state != Final { return Some(WrongState); }
      if matchups[m].effective.None? { return Some(Incomplete); }
      var version := matchups[m].effective.value + 1;
      results := results[(m, version) := score];
      matchups := matchups[m := matchups[m].(effective := Some(version), review := matchups[m].review + 1)];
      return None;
    }
  }
}
