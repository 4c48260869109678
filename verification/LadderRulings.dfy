/** The append-and-supersede store of tie rulings, and why a fresh ruling still decides the tie it was made for. */
module LadderRulings {
  import opened Options
  import opened Ordering
  import opened LadderFold
  import opened LadderRanking
  import opened LadderTheorems

  // ----- Official results under a competition -----

  datatype Fixture = Fixture(round: int, home: Id, away: Id)

  datatype Score = Score(home: real, away: real)

  /** Matchups by number, each with all its official versions; `counted` are those whose round is final. */
  datatype World = World(fixtures: seq<Fixture>, results: seq<seq<Score>>, counted: set<nat>)

  predicate ValidWorld(w: World) {
    && |w.results| == |w.fixtures|
    && forall m :: m in w.counted ==> m < |w.fixtures| && w.results[m] != []
  }

  /** Matchups keep their fixture, versions are only appended, and a final round stays final. */
  predicate Extends(w: World, next: World) {
    && w.fixtures <= next.fixtures
    && |w.results| <= |next.results|
    && (forall m :: 0 <= m < |w.results| ==> w.results[m] <= next.results[m])
    && w.counted <= next.counted
  }

  function MatchOf(w: World, m: nat): Match
    requires ValidWorld(w) && m in w.counted
  {
    var f, score := w.fixtures[m], w.results[m][|w.results[m]| - 1];
    Match(f.round, m, |w.results[m]|, f.home, f.away, score.home, score.away)
  }

  /** The effective result of every counted matchup below `n`. */
  function Inputs(w: World, n: nat): seq<Match>
    requires ValidWorld(w)
  {
    if n == 0 then []
    else Inputs(w, n - 1) + (if n - 1 in w.counted then [MatchOf(w, n - 1)] else [])
  }

  datatype League = League(season: nat, entries: seq<Id>, world: World)

  datatype Scope = Scope(season: nat, competition: nat, through: int)

  function LadderOf(league: League, through: int, scale: Scale, before: (Id, Id) -> bool): Option<Snapshot>
    requires ValidWorld(league.world)
  {
    Ladder(league.entries, Inputs(league.world, |league.world.fixtures|), through, scale, before)
  }

  // ----- The store -----

  datatype Ruling = Ruling(scope: Scope, group: set<Id>, decided: seq<Id>, references: seq<Reference>,
                           active: bool, supersededBy: Option<nat>)

  datatype Refusal = TooFew | Repeats | UnknownCompetition | WrongSeason | NotTied

  datatype Recorded = Recorded(rulings: seq<Ruling>, id: nat, created: bool)

  function Members(ids: seq<Id>): set<Id> { set e | e in ids }

  predicate TiedRow(row: Row, group: set<Id>) { row.tied && Members(row.group) == group }

  predicate IsTied(rows: seq<Row>, group: set<Id>) {
    exists i :: 0 <= i < |rows| && TiedRow(rows[i], group)
  }

  function ReferenceOrder(): (Reference, Reference) -> bool {
    (a: Reference, b: Reference) => a.matchup < b.matchup
  }

  /** The frozen form of a reference list: by matchup. */
  function Encoded(references: seq<Reference>): seq<Reference> {
    Sorted(ReferenceOrder(), references)
  }

  predicate ActiveFor(r: Ruling, scope: Scope, group: set<Id>) {
    r.active && r.scope == scope && r.group == group
  }

  /** The first active ruling from position `i` on. */
  function FindActive(rulings: seq<Ruling>, scope: Scope, group: set<Id>, i: nat): (r: Option<nat>)
    requires i <= |rulings|
    ensures r.Some? ==> i <= r.value < |rulings| && ActiveFor(rulings[r.value], scope, group)
    ensures r.None? ==> forall j :: i <= j < |rulings| ==> !ActiveFor(rulings[j], scope, group)
    decreases |rulings| - i
  {
    if i == |rulings| then None
    else if ActiveFor(rulings[i], scope, group) then Some(i)
    else FindActive(rulings, scope, group, i + 1)
  }

  function Supersede(rulings: seq<Ruling>, existing: Option<nat>, newest: Ruling): seq<Ruling>
    requires existing.Some? ==> existing.value < |rulings|
  {
    if existing.None? then rulings + [newest]
    else rulings[existing.value := rulings[existing.value].(active := false, supersededBy := Some(|rulings|))] + [newest]
  }

  function Decide(rulings: seq<Ruling>, scope: Scope, order: seq<Id>, references: seq<Reference>): Recorded {
    var existing := FindActive(rulings, scope, Members(order), 0);
    if existing.Some? && rulings[existing.value].decided == order && rulings[existing.value].references == references then
      Recorded(rulings, existing.value, false)
    else
      Recorded(Supersede(rulings, existing, Ruling(scope, Members(order), order, references, true, None)), |rulings|, true)
  }

  type Leagues = map<nat, League>

  ghost predicate ValidLeagues(leagues: Leagues) {
    forall c :: c in leagues ==> ValidWorld(leagues[c].world)
  }

  function Record(rulings: seq<Ruling>, leagues: Leagues, scope: Scope, order: seq<Id>, scale: Scale, before: (Id, Id) -> bool): Result<Recorded, Refusal>
    requires ValidLeagues(leagues)
  {
    if |order| < 2 then Err(TooFew)
    else if !Distinct(order) then Err(Repeats)
    else if scope.competition !in leagues then Err(UnknownCompetition)
    else
      var league := leagues[scope.competition];
      var ladder := LadderOf(league, scope.through, scale, before);
      if ladder.None? then Err(UnknownCompetition)
      else if league.season != scope.season then Err(WrongSeason)
      else if !IsTied(ladder.value.rows, Members(order)) then Err(NotTied)
      else Ok(Decide(rulings, scope, order, Encoded(ladder.value.references)))
  }

  // ----- What every run keeps -----

  datatype State = State(leagues: Leagues, rulings: seq<Ruling>)

  datatype Step =
    | Results(competition: nat, next: World)
    | Rule(scope: Scope, order: seq<Id>)

  ghost predicate Legal(s: State, step: Step) {
    step.Results? ==> step.competition in s.leagues ==>
      ValidWorld(step.next) && Extends(s.leagues[step.competition].world, step.next)
  }

  function Apply(s: State, step: Step, scale: Scale, before: (Id, Id) -> bool): State
    requires ValidLeagues(s.leagues)
  {
    match step
    case Results(c, next) =>
      if c in s.leagues then s.(leagues := s.leagues[c := s.leagues[c].(world := next)]) else s
    case Rule(scope, order) =>
      var r := Record(s.rulings, s.leagues, scope, order, scale, before);
      if r.Ok? then s.(rulings := r.value.rulings) else s
  }

  /** At most one ruling is active for a scope and group. */
  predicate OneActive(rulings: seq<Ruling>) {
    forall i, j :: 0 <= i < j < |rulings| && rulings[i].active && rulings[j].active ==>
      rulings[i].scope != rulings[j].scope || rulings[i].group != rulings[j].group
  }

  /** A ruling is active exactly while nothing supersedes it; what does is a later ruling on the same tie. */
  predicate ChainsForward(rulings: seq<Ruling>) {
    forall i :: 0 <= i < |rulings| ==>
      (rulings[i].active <==> rulings[i].supersededBy == None) &&
      (rulings[i].supersededBy.Some? ==> SupersededBy(rulings, i, rulings[i].supersededBy.value))
  }

  predicate SupersededBy(rulings: seq<Ruling>, i: nat, j: nat)
    requires i < |rulings|
  {
    i < j < |rulings| && rulings[j].scope == rulings[i].scope && rulings[j].group == rulings[i].group
  }

  /** The ruling was made on the ladder of an earlier state of the same results. */
  ghost predicate MadeOn(r: Ruling, league: League, w: World, scale: Scale, before: (Id, Id) -> bool) {
    && ValidWorld(w) && Extends(w, league.world)
    && league.season == r.scope.season
    && LadderOf(league.(world := w), r.scope.through, scale, before).Some?
    && var ladder := LadderOf(league.(world := w), r.scope.through, scale, before).value;
       r.references == Encoded(ladder.references) && IsTied(ladder.rows, r.group)
  }

  ghost predicate Witnessed(r: Ruling, leagues: Leagues, scale: Scale, before: (Id, Id) -> bool)
    requires ValidLeagues(leagues)
  {
    && Distinct(r.decided) && |r.decided| >= 2 && Members(r.decided) == r.group
    && r.scope.competition in leagues
    && exists w :: MadeOn(r, leagues[r.scope.competition], w, scale, before)
  }

  ghost predicate Inv(s: State, scale: Scale, before: (Id, Id) -> bool) {
    && ValidLeagues(s.leagues)
    && OneActive(s.rulings)
    && ChainsForward(s.rulings)
    && forall i :: 0 <= i < |s.rulings| ==> Witnessed(s.rulings[i], s.leagues, scale, before)
  }

  lemma ExtendsTransitive(a: World, b: World, c: World)
    requires Extends(a, b) && Extends(b, c)
    ensures Extends(a, c)
  {
    forall m | 0 <= m < |a.results| ensures a.results[m] <= c.results[m] {
      assert a.results[m] <= b.results[m] <= c.results[m];
    }
  }

  lemma ExtendsItself(w: World)
    ensures Extends(w, w)
  {
  }

  lemma StillWitnessed(r: Ruling, leagues: Leagues, c: nat, next: World, scale: Scale, before: (Id, Id) -> bool)
    requires ValidLeagues(leagues) && c in leagues && ValidWorld(next) && Extends(leagues[c].world, next)
    requires Witnessed(r, leagues, scale, before)
    ensures Witnessed(r, leagues[c := leagues[c].(world := next)], scale, before)
  {
    var later := leagues[c := leagues[c].(world := next)];
    var w :| MadeOn(r, leagues[r.scope.competition], w, scale, before);
    if r.scope.competition == c { ExtendsTransitive(w, leagues[c].world, next); }
    assert later[r.scope.competition].(world := w) == leagues[r.scope.competition].(world := w);
    assert MadeOn(r, later[r.scope.competition], w, scale, before);
  }

  lemma DecideKeeps(rulings: seq<Ruling>, scope: Scope, order: seq<Id>, references: seq<Reference>)
    requires OneActive(rulings) && ChainsForward(rulings)
    ensures var r := Decide(rulings, scope, order, references).rulings;
            && OneActive(r) && ChainsForward(r)
            && |r| >= |rulings|
            && (forall i :: 0 <= i < |rulings| ==> r[i].(active := false, supersededBy := None) == rulings[i].(active := false, supersededBy := None))
            && (forall i :: |rulings| <= i < |r| ==> r[i] == Ruling(scope, Members(order), order, references, true, None))
  {
  }

  lemma ResultsKeep(s: State, c: nat, next: World, scale: Scale, before: (Id, Id) -> bool)
    requires Inv(s, scale, before) && c in s.leagues && ValidWorld(next) && Extends(s.leagues[c].world, next)
    ensures Inv(s.(leagues := s.leagues[c := s.leagues[c].(world := next)]), scale, before)
  {
    forall i | 0 <= i < |s.rulings| ensures Witnessed(s.rulings[i], s.leagues[c := s.leagues[c].(world := next)], scale, before) {
      StillWitnessed(s.rulings[i], s.leagues, c, next, scale, before);
    }
  }

  lemma RuleKeeps(s: State, scope: Scope, order: seq<Id>, references: seq<Reference>, scale: Scale, before: (Id, Id) -> bool)
    requires Inv(s, scale, before)
    requires Witnessed(Ruling(scope, Members(order), order, references, true, None), s.leagues, scale, before)
    ensures Inv(s.(rulings := Decide(s.rulings, scope, order, references).rulings), scale, before)
  {
    DecideKeeps(s.rulings, scope, order, references);
    RulingsWitnessed(s, Decide(s.rulings, scope, order, references).rulings, scale, before);
  }

  lemma StepKeeps(s: State, step: Step, scale: Scale, before: (Id, Id) -> bool)
    requires Inv(s, scale, before) && Legal(s, step)
    ensures Inv(Apply(s, step, scale, before), scale, before)
  {
    match step
    case Results(c, next) =>
      if c in s.leagues { ResultsKeep(s, c, next, scale, before); }
    case Rule(scope, order) =>
      if Record(s.rulings, s.leagues, scope, order, scale, before).Ok? {
        NewIsWitnessed(s, scope, order, scale, before);
        var references := Encoded(LadderOf(s.leagues[scope.competition], scope.through, scale, before).value.references);
        RuleKeeps(s, scope, order, references, scale, before);
      }
  }

  lemma NewIsWitnessed(s: State, scope: Scope, order: seq<Id>, scale: Scale, before: (Id, Id) -> bool)
    requires ValidLeagues(s.leagues) && Record(s.rulings, s.leagues, scope, order, scale, before).Ok?
    ensures var references := Encoded(LadderOf(s.leagues[scope.competition], scope.through, scale, before).value.references);
            Witnessed(Ruling(scope, Members(order), order, references, true, None), s.leagues, scale, before)
  {
    var league := s.leagues[scope.competition];
    ExtendsItself(league.world);
    assert league.(world := league.world) == league;
    var references := Encoded(LadderOf(league, scope.through, scale, before).value.references);
    assert MadeOn(Ruling(scope, Members(order), order, references, true, None), league, league.world, scale, before);
  }

  /** Being superseded does not change what a ruling was made on. */
  lemma RulingsWitnessed(s: State, rulings: seq<Ruling>, scale: Scale, before: (Id, Id) -> bool)
    requires Inv(s, scale, before) && |rulings| >= |s.rulings|
    requires forall i :: 0 <= i < |s.rulings| ==> rulings[i].(active := false, supersededBy := None) == s.rulings[i].(active := false, supersededBy := None)
    requires forall i :: |s.rulings| <= i < |rulings| ==> Witnessed(rulings[i], s.leagues, scale, before)
    requires OneActive(rulings) && ChainsForward(rulings)
    ensures Inv(s.(rulings := rulings), scale, before)
  {
    forall i | 0 <= i < |s.rulings| ensures Witnessed(rulings[i], s.leagues, scale, before) {
      var r := s.rulings[i];
      assert Witnessed(r, s.leagues, scale, before);
      var w :| MadeOn(r, s.leagues[r.scope.competition], w, scale, before);
      assert rulings[i].scope == r.scope && rulings[i].group == r.group && rulings[i].references == r.references && rulings[i].decided == r.decided;
      assert MadeOn(rulings[i], s.leagues[r.scope.competition], w, scale, before);
    }
  }

  ghost predicate LegalRun(s: State, steps: seq<Step>, scale: Scale, before: (Id, Id) -> bool)
    requires ValidLeagues(s.leagues)
    decreases |steps|
  {
    steps == [] ||
    (Legal(s, steps[0]) && ValidLeagues(Apply(s, steps[0], scale, before).leagues)
     && LegalRun(Apply(s, steps[0], scale, before), steps[1..], scale, before))
  }

  ghost function Run(s: State, steps: seq<Step>, scale: Scale, before: (Id, Id) -> bool): State
    requires ValidLeagues(s.leagues) && LegalRun(s, steps, scale, before)
    decreases |steps|
  {
    if steps == [] then s else Run(Apply(s, steps[0], scale, before), steps[1..], scale, before)
  }

  /** However results and rulings interleave. */
  lemma {:induction false} RunKeeps(s: State, steps: seq<Step>, scale: Scale, before: (Id, Id) -> bool)
    requires Inv(s, scale, before) && LegalRun(s, steps, scale, before)
    ensures Inv(Run(s, steps, scale, before), scale, before)
    decreases |steps|
  {
    if steps != [] {
      StepKeeps(s, steps[0], scale, before);
      RunKeeps(Apply(s, steps[0], scale, before), steps[1..], scale, before);
    }
  }
}
