/** The ladder's inputs are the round lifecycle's results: whatever the lifecycle does, the rulings' histories stay legal. */
module LadderResults {
  import opened Options
  import LadderFold
  import opened LadderRulings
  import Lifecycle
  import opened LifecycleTheorems

  /** The number each round plays in the fixture, and which rounds belong to the competition. */
  datatype Season = Season(number: Lifecycle.RoundId -> int, ours: Lifecycle.RoundId -> bool)

  /** All official versions of a matchup, the first one first. */
  function VersionsTo(t: Lifecycle.Tables, m: nat, n: nat): (scores: seq<Score>)
    ensures |scores| == n
    ensures forall v {:trigger scores[v]} :: 0 <= v < n ==> scores[v] == ScoreAt(t, m, v + 1)
  {
    if n == 0 then [] else VersionsTo(t, m, n - 1) + [ScoreAt(t, m, n)]
  }

  function ScoreAt(t: Lifecycle.Tables, m: nat, v: nat): Score {
    if (m, v) in t.results then Score(t.results[(m, v)].home, t.results[(m, v)].away) else Score(0.0, 0.0)
  }

  function Effective(t: Lifecycle.Tables, m: nat): nat
    requires m < |t.matchups|
  {
    if t.matchups[m].effective.Some? then t.matchups[m].effective.value else 0
  }

  function FixturesOf(t: Lifecycle.Tables, season: Season, n: nat): (fixtures: seq<Fixture>)
    requires n <= |t.matchups|
    ensures |fixtures| == n
    ensures forall m :: 0 <= m < n ==>
              fixtures[m] == Fixture(season.number(t.matchups[m].round), t.matchups[m].home, t.matchups[m].away)
  {
    if n == 0 then []
    else FixturesOf(t, season, n - 1) + [Fixture(season.number(t.matchups[n - 1].round), t.matchups[n - 1].home, t.matchups[n - 1].away)]
  }

  function ResultsOf(t: Lifecycle.Tables, n: nat): (results: seq<seq<Score>>)
    requires n <= |t.matchups|
    ensures |results| == n
    ensures forall m :: 0 <= m < n ==> results[m] == VersionsTo(t, m, Effective(t, m))
  {
    if n == 0 then [] else ResultsOf(t, n - 1) + [VersionsTo(t, n - 1, Effective(t, n - 1))]
  }

  predicate Counts(t: Lifecycle.Tables, season: Season, m: nat)
    requires m < |t.matchups|
  {
    var r := t.matchups[m].round;
    season.ours(r) && r in t.rounds && t.rounds[r].state == Lifecycle.Final
  }

  function WorldOf(t: Lifecycle.Tables, season: Season): World {
    World(FixturesOf(t, season, |t.matchups|), ResultsOf(t, |t.matchups|), set m: nat | m < |t.matchups| && Counts(t, season, m))
  }

  /** A final round's matchups all have an official result, so the world is one the ladder can read. */
  lemma WorldIsValid(t: Lifecycle.Tables, season: Season)
    requires Lifecycle.Inv(t)
    ensures ValidWorld(WorldOf(t, season))
  {
    var w := WorldOf(t, season);
    forall m | m in w.counted ensures m < |w.fixtures| && w.results[m] != [] {
      assert Lifecycle.RoundOk(t, m) && Lifecycle.VersionsOk(t, m);
    }
  }

  /** What the ladder counts for a matchup is its effective version, with that version's scores. */
  lemma CountsTheEffectiveVersion(t: Lifecycle.Tables, season: Season, m: nat)
    requires Lifecycle.Inv(t) && m < |t.matchups| && Counts(t, season, m)
    ensures ValidWorld(WorldOf(t, season)) && m in WorldOf(t, season).counted
    ensures t.matchups[m].effective.Some? && (m, t.matchups[m].effective.value) in t.results
    ensures var k, r := t.matchups[m], t.results[(m, t.matchups[m].effective.value)];
            MatchOf(WorldOf(t, season), m)
            == LadderFold.Match(season.number(k.round), m, k.effective.value, k.home, k.away, r.home, r.away)
  {
    WorldIsValid(t, season);
    assert Lifecycle.RoundOk(t, m) && Lifecycle.VersionsOk(t, m);
    var version := t.matchups[m].effective.value;
    assert WorldOf(t, season).results[m][version - 1] == ScoreAt(t, m, version);
  }

  /** Only appending: later tables hold every earlier version of a matchup as it was. */
  lemma VersionsGrow(t: Lifecycle.Tables, next: Lifecycle.Tables, m: nat)
    requires Lifecycle.Inv(t) && Remembers(t, next) && m < |t.matchups|
    ensures m < |next.matchups| && VersionsTo(t, m, Effective(t, m)) <= VersionsTo(next, m, Effective(next, m))
  {
    assert Onward(t.matchups[m], next.matchups[m]) && Lifecycle.VersionsOk(t, m);
    var front := VersionsTo(t, m, Effective(t, m));
    var all := VersionsTo(next, m, Effective(next, m));
    forall i | 0 <= i < |front| ensures front[i] == all[i] {
      assert (m, i + 1) in t.results;
    }
  }

  lemma StillCounts(t: Lifecycle.Tables, next: Lifecycle.Tables, season: Season, m: nat)
    requires Remembers(t, next) && m < |t.matchups| && Counts(t, season, m)
    ensures m < |next.matchups| && Counts(next, season, m)
  {
    assert Onward(t.matchups[m], next.matchups[m]);
    var r := t.matchups[m].round;
    assert Rank(t.rounds[r].state) <= Rank(next.rounds[r].state);
  }

  lemma RememberedExtends(t: Lifecycle.Tables, next: Lifecycle.Tables, season: Season)
    requires Lifecycle.Inv(t) && Remembers(t, next)
    ensures Extends(WorldOf(t, season), WorldOf(next, season))
  {
    var w, later := WorldOf(t, season), WorldOf(next, season);
    forall m | 0 <= m < |t.matchups| ensures w.fixtures[m] == later.fixtures[m] && w.results[m] <= later.results[m] {
      assert Onward(t.matchups[m], next.matchups[m]);
      VersionsGrow(t, next, m);
    }
    forall m | m in w.counted ensures m in later.counted { StillCounts(t, next, season, m); }
  }

  /**
   Any run of the lifecycle is a legal step of the rulings' history: its
   world stays valid, versions are only appended and counted matchups stay
   counted.
   */
  lemma LifecycleRunExtends(t: Lifecycle.Tables, season: Season, steps: seq<Lifecycle.Step>)
    requires Lifecycle.Inv(t)
    ensures ValidWorld(WorldOf(t, season)) && ValidWorld(WorldOf(Lifecycle.Run(t, steps), season))
    ensures Extends(WorldOf(t, season), WorldOf(Lifecycle.Run(t, steps), season))
  {
    var next := Lifecycle.Run(t, steps);
    LifecycleTheorems.RunKeeps(t, steps);
    LifecycleTheorems.RunRemembers(t, steps);
    WorldIsValid(t, season);
    WorldIsValid(next, season);
    RememberedExtends(t, next, season);
  }

  /** The competition's league follows the lifecycle: its next world is a step the rulings allow. */
  lemma LifecycleStepIsLegal(s: State, competition: nat, t: Lifecycle.Tables, season: Season, steps: seq<Lifecycle.Step>)
    requires Lifecycle.Inv(t) && competition in s.leagues && s.leagues[competition].world == WorldOf(t, season)
    ensures LadderRulings.Legal(s, Results(competition, WorldOf(Lifecycle.Run(t, steps), season)))
  {
    LifecycleRunExtends(t, season, steps);
  }
}
