/**
 The rows of one finals bracket and every transaction that writes them, each
 as a total function from the tables before to the tables after, or to the
 refusal raised. A row's identifier is its position in its table, so a fresh
 identifier is the table's length.
 */
module FinalsTables {
  import opened Options

  type Entry = nat

  datatype Slot = Bye | QualifyingFinal | EliminationFinal | SecondSemi | FirstSemi | Preliminary | GrandFinal

  datatype Stage = PreFinals | Week1EliminationFinal | Week2FirstSemiFinal | Week3PreliminaryFinal

  datatype RoundState = Upcoming | Open | Live | Review | Final

  /** One version of one matchup's official result. */
  datatype Source = Source(matchup: nat, version: nat)

  datatype Score = Score(home: real, away: real)

  /** finals_bracket_pairing; the week number is a function of the slot. */
  datatype Pairing = Pairing(slot: Slot, matchup: Option<nat>, home: Entry, away: Option<Entry>,
                             source1: Option<Source>, source2: Option<Source>,
                             active: bool, supersededBy: Option<nat>)

  /** finals_bracket_elimination */
  datatype Elimination = Elimination(stage: Stage, entry: Entry, sourcePairing: Option<nat>,
                                     active: bool, supersededBy: Option<nat>)

  /** bbbffl_matchup */
  datatype Matchup = Matchup(week: int, order: int, home: Entry, away: Entry,
                             effective: Option<nat>, reviewVersion: nat)

  /** Everything that counts as play state besides an official result. */
  datatype Play = Play(lineups: set<(int, Entry)>, activations: set<int>, rulings: set<nat>, calculations: map<nat, nat>)

  datatype State = State(
    seeds: seq<Entry>,
    pairings: seq<Pairing>,
    eliminations: seq<Elimination>,
    matchups: seq<Matchup>,
    results: map<Source, Score>,
    rounds: map<int, RoundState>,
    play: Play,
    premiers: seq<Entry>)

  datatype Refusal =
    | NotTenSeeds | BadWeek | NoSuchRow | RoundExists | IllegalTransition | SupersededConcurrently
    | Incomplete | StaleResult | MissingExpectedVersion | AlreadyAdvanced | NotInReview | StaleSnapshot
    | NotReady | NotPublished | DownstreamPlayState | NoPairingYet

  // ----- Slots, weeks and lookups -----

  function WeekOf(slot: Slot): int {
    match slot
    case Bye | QualifyingFinal | EliminationFinal => 1
    case SecondSemi | FirstSemi => 2
    case Preliminary => 3
    case GrandFinal => 4
  }

  function OrderOf(slot: Slot): int {
    match slot
    case Bye => 0
    case QualifyingFinal | SecondSemi | Preliminary | GrandFinal => 1
    case EliminationFinal | FirstSemi => 2
  }

  function SlotAt(week: int, order: int): Slot {
    if week == 1 then if order == 1 then QualifyingFinal else EliminationFinal
    else if week == 2 then if order == 1 then SecondSemi else FirstSemi
    else if week == 3 then Preliminary
    else GrandFinal
  }

  function ExpectedMatchCount(week: int): int {
    if week == 1 || week == 2 then 2 else 1
  }

  /** The two contests whose results decide week `week + 1`. */
  function SourceSlots(week: int): (Slot, Slot) {
    if week == 1 then (QualifyingFinal, EliminationFinal)
    else if week == 2 then (SecondSemi, FirstSemi)
    else (SecondSemi, Preliminary)
  }

  function TargetSlots(week: int): seq<Slot> {
    if week == 1 then [SecondSemi, FirstSemi] else if week == 2 then [Preliminary] else [GrandFinal]
  }

  function StageAfter(week: int): Stage {
    if week == 1 then Week1EliminationFinal
    else if week == 2 then Week2FirstSemiFinal
    else Week3PreliminaryFinal
  }

  /** The active row of a slot: the newest one, should there be several. */
  function FindActive(rows: seq<Pairing>, slot: Slot): (r: Option<nat>)
    ensures r.Some? ==> r.value < |rows| && rows[r.value].active && rows[r.value].slot == slot
    ensures r.None? ==> forall i :: 0 <= i < |rows| ==> !(rows[i].active && rows[i].slot == slot)
  {
    if rows == [] then None
    else if rows[|rows| - 1].active && rows[|rows| - 1].slot == slot then Some(|rows| - 1)
    else FindActive(rows[..|rows| - 1], slot)
  }

  function FindElimination(rows: seq<Elimination>, stage: Stage): (r: Option<nat>)
    ensures r.Some? ==> r.value < |rows| && rows[r.value].active && rows[r.value].stage == stage
    ensures r.None? ==> forall i :: 0 <= i < |rows| ==> !(rows[i].active && rows[i].stage == stage)
  {
    if rows == [] then None
    else if rows[|rows| - 1].active && rows[|rows| - 1].stage == stage then Some(|rows| - 1)
    else FindElimination(rows[..|rows| - 1], stage)
  }

  // ----- Deciding a match -----

  /** Frozen seed rank: the position in the seed order, lower is better. */
  function Rank(seeds: seq<Entry>, e: Entry): (r: nat)
    ensures r < |seeds| ==> seeds[r] == e
    ensures e in seeds ==> r < |seeds|
    ensures forall i :: 0 <= i < r && i < |seeds| ==> seeds[i] != e
  {
    if seeds == [] then 0
    else if seeds[0] == e then 0
    else 1 + Rank(seeds[1..], e)
  }

  /** Winner, then loser; a tie goes to the higher frozen seed. */
  function WinnerLoser(seeds: seq<Entry>, home: Entry, away: Entry, score: Score): (Entry, Entry) {
    if score.home > score.away then (home, away)
    else if score.away > score.home then (away, home)
    else if Rank(seeds, home) < Rank(seeds, away) then (home, away)
    else (away, home)
  }

  /** The better seeded of two entries: the first of them met in the frozen seed order. */
  function BetterSeeded(seeds: seq<Entry>, a: Entry, b: Entry): Entry {
    if seeds == [] || seeds[0] == a then a
    else if seeds[0] == b then b
    else BetterSeeded(seeds[1..], a, b)
  }

  /** The premier as the review step records it. */
  function Premier(seeds: seq<Entry>, home: Entry, away: Entry, score: Score): Entry {
    if score.home != score.away then
      if score.home > score.away then home else away
    else BetterSeeded(seeds, home, away)
  }

  /** A slot's active row joined with its matchup's effective result. */
  datatype Contest = Contest(row: nat, matchup: nat, version: nat, home: Entry, away: Entry, score: Score)

  function MatchupOf(s: State, slot: Slot): Result<nat, Refusal> {
    match FindActive(s.pairings, slot)
    case None => Err(Incomplete)
    case Some(i) => match s.pairings[i].matchup
      case None => Err(Incomplete)
      case Some(m) => Ok(m)
  }

  function EffectiveVersion(s: State, m: nat): Result<nat, Refusal> {
    if m >= |s.matchups| then Err(NoSuchRow)
    else match s.matchups[m].effective
      case None => Err(Incomplete)
      case Some(v) => Ok(v)
  }

  function ContestAt(s: State, slot: Slot): Result<Contest, Refusal> {
    var m :- MatchupOf(s, slot);
    var v :- EffectiveVersion(s, m);
    var i := FindActive(s.pairings, slot).value;
    if Source(m, v) !in s.results || s.pairings[i].away.None? then Err(NoSuchRow)
    else Ok(Contest(i, m, v, s.pairings[i].home, s.pairings[i].away.value, s.results[Source(m, v)]))
  }

  function Winner(s: State, c: Contest): Entry {
    WinnerLoser(s.seeds, c.home, c.away, c.score).0
  }

  function Loser(s: State, c: Contest): Entry {
    WinnerLoser(s.seeds, c.home, c.away, c.score).1
  }

  // ----- Deriving the next week -----

  datatype Derived = Derived(slot: Slot, home: Entry, away: Entry, source1: Source, source2: Option<Source>)

  datatype Derivation = Derivation(pairings: seq<Derived>, stage: Stage, eliminated: Entry, sourcePairing: nat, gate: Slot)

  function SourceOf(c: Contest): Source {
    Source(c.matchup, c.version)
  }

  function Derive(s: State, week: int): Result<Derivation, Refusal> {
    var a :- ContestAt(s, SourceSlots(week).0);
    var b :- ContestAt(s, SourceSlots(week).1);
    if |s.seeds| == 0 then Err(NoSuchRow)
    else if week == 1 then
      Ok(Derivation([Derived(SecondSemi, s.seeds[0], Winner(s, a), SourceOf(a), None),
                     Derived(FirstSemi, Loser(s, a), Winner(s, b), SourceOf(a), Some(SourceOf(b)))],
                    Week1EliminationFinal, Loser(s, b), b.row, FirstSemi))
    else if week == 2 then
      Ok(Derivation([Derived(Preliminary, Loser(s, a), Winner(s, b), SourceOf(a), Some(SourceOf(b)))],
                    Week2FirstSemiFinal, Loser(s, b), b.row, Preliminary))
    else
      Ok(Derivation([Derived(GrandFinal, Winner(s, a), Winner(s, b), SourceOf(a), Some(SourceOf(b)))],
                    Week3PreliminaryFinal, Loser(s, b), b.row, GrandFinal))
  }

  // ----- The optional staleness guard -----

  /** A caller may name the version it last saw of each prerequisite; an entry holding None opts out. */
  type Expected = Option<map<nat, Option<nat>>>

  function SourceMatchups(s: State, week: int): Result<(nat, nat), Refusal> {
    var a :- MatchupOf(s, SourceSlots(week).0);
    var b :- MatchupOf(s, SourceSlots(week).1);
    Ok((a, b))
  }

  predicate CompleteExpected(ids: (nat, nat), expected: Expected) {
    expected.Some? ==> ids.0 in expected.value && ids.1 in expected.value
  }

  function LockVersion(s: State, m: nat, expected: Expected): Result<nat, Refusal> {
    if m >= |s.matchups| then Err(NoSuchRow)
    else if expected.Some? && m in expected.value && expected.value[m].Some?
            && s.matchups[m].effective != expected.value[m] then Err(StaleResult)
    else EffectiveVersion(s, m)
  }

  /** Prerequisites are locked in ascending identifier order; the first refusal wins. */
  function LockSources(s: State, ids: (nat, nat), expected: Expected): Result<(), Refusal> {
    var low, high := if ids.0 <= ids.1 then ids.0 else ids.1, if ids.0 <= ids.1 then ids.1 else ids.0;
    var _ :- LockVersion(s, low, expected);
    var _ :- LockVersion(s, high, expected);
    Ok(())
  }

  // ----- Creation -----

  function FreshRow(slot: Slot, home: Entry, away: Option<Entry>): Pairing {
    Pairing(slot, None, home, away, None, None, true, None)
  }

  function CreateBracket(seeds: seq<Entry>): Result<State, Refusal> {
    if |seeds| != 10 || exists i, j :: 0 <= i < j < 10 && seeds[i] == seeds[j] then Err(NotTenSeeds)
    else Ok(State(
      seeds,
      [FreshRow(Bye, seeds[0], None),
       FreshRow(QualifyingFinal, seeds[1], Some(seeds[2])),
       FreshRow(EliminationFinal, seeds[3], Some(seeds[4]))],
      seq(5, i requires 0 <= i < 5 => Elimination(PreFinals, seeds[5 + i], None, true, None)),
      [], map[], map[], Play({}, {}, {}, map[]), []))
  }

  // ----- Rounds -----

  predicate LegalTransition(from: RoundState, to: RoundState) {
    || (from == Upcoming && to == Open)
    || (from == Open && to == Live)
    || (from == Live && to == Review)
  }

  function CreateRound(s: State, week: int): Result<State, Refusal> {
    if !(1 <= week <= 4) then Err(BadWeek)
    else if week in s.rounds then Err(RoundExists)
    else Ok(s.(rounds := s.rounds[week := Upcoming]))
  }

  function Transition(s: State, week: int, target: RoundState): Result<State, Refusal> {
    if week !in s.rounds then Err(NoSuchRow)
    else if !LegalTransition(s.rounds[week], target) then Err(IllegalTransition)
    else Ok(s.(rounds := s.rounds[week := target]))
  }

  // ----- Materialising a pairing -----

  /** Attach a matchup to one pairing row; a second attempt on the same row changes nothing. */
  function Materialise(s: State, row: nat): Result<State, Refusal> {
    if row >= |s.pairings| || s.pairings[row].slot == Bye || s.pairings[row].away.None? then Err(NoSuchRow)
    else if WeekOf(s.pairings[row].slot) !in s.rounds then Err(NoSuchRow)
    else if !s.pairings[row].active then Err(SupersededConcurrently)
    else if s.pairings[row].matchup.Some? then Ok(s)
    else
      var p := s.pairings[row];
      Ok(s.(pairings := s.pairings[row := p.(matchup := Some(|s.matchups|))],
            matchups := s.matchups + [Matchup(WeekOf(p.slot), OrderOf(p.slot), p.home, p.away.value, None, 1)]))
  }

  // ----- Publication -----

  function MatchupsOfWeek(s: State, week: int): set<nat> {
    set m | 0 <= m < |s.matchups| && s.matchups[m].week == week
  }

  /** The review of `m` this write was assembled from still describes it. */
  predicate SnapshotCurrent(s: State, m: nat, reviewVersion: nat, calculation: nat) {
    && m < |s.matchups|
    && s.matchups[m].reviewVersion == reviewVersion
    && m in s.play.calculations
    && s.play.calculations[m] == calculation
  }

  datatype Signoff = Signoff(score: Score, reviewVersion: nat, calculation: nat)

  function Published(matchups: seq<Matchup>, ids: set<nat>): seq<Matchup> {
    seq(|matchups|, i requires 0 <= i < |matchups| =>
      if i in ids then matchups[i].(effective := Some(1)) else matchups[i])
  }

  /** One first version for every signed-off matchup, beside the results already there. */
  function FirstResults(results: map<Source, Score>, signoffs: map<nat, Signoff>): (r: map<Source, Score>)
    ensures forall m {:trigger Source(m, 1)} :: m in signoffs ==> Source(m, 1) in r && r[Source(m, 1)] == signoffs[m].score
    ensures forall x: Source :: x in r <==> x in results || (x.matchup in signoffs && x.version == 1)
    ensures forall x :: x in results && !(x.matchup in signoffs && x.version == 1) ==> r[x] == results[x]
  {
    var added := map m | m in signoffs :: Source(m, 1) := signoffs[m].score;
    assert forall x: Source :: x in added ==> x.matchup in signoffs && x.version == 1;
    assert forall x: Source :: x.matchup in signoffs && x.version == 1 ==> x == Source(x.matchup, 1) && x in added;
    results + added
  }

  predicate AllCurrent(s: State, signoffs: map<nat, Signoff>) {
    forall m :: m in signoffs ==> SnapshotCurrent(s, m, signoffs[m].reviewVersion, signoffs[m].calculation)
  }

  /** The week's matchups become effective at version 1 and its round final. */
  function PublishedTables(s: State, week: int, signoffs: map<nat, Signoff>): State {
    s.(matchups := Published(s.matchups, signoffs.Keys),
       results := FirstResults(s.results, signoffs),
       rounds := s.rounds[week := Final])
  }

  function Publish(s: State, week: int, signoffs: map<nat, Signoff>): Result<State, Refusal> {
    if week !in s.rounds then Err(NoSuchRow)
    else if signoffs.Keys != MatchupsOfWeek(s, week) || |signoffs| != ExpectedMatchCount(week) then Err(NotReady)
    else if s.rounds[week] != Review then Err(NotInReview)
    else if !AllCurrent(s, signoffs) then Err(StaleSnapshot)
    else if week != 4 then Ok(PublishedTables(s, week, signoffs))
    else
      var m :- MatchupOf(s, GrandFinal);
      if m !in signoffs || m >= |s.matchups| then Err(NoSuchRow)
      else Ok(PublishedTables(s, week, signoffs).(premiers := s.premiers
                + [Premier(s.seeds, s.matchups[m].home, s.matchups[m].away, signoffs[m].score)]))
  }

  // ----- Advancing -----

  function RowFor(d: Derived, matchup: Option<nat>): Pairing {
    Pairing(d.slot, matchup, d.home, Some(d.away), Some(d.source1), d.source2, true, None)
  }

  function InsertAll(rows: seq<Pairing>, ds: seq<Derived>): seq<Pairing> {
    rows + seq(|ds|, i requires 0 <= i < |ds| => RowFor(ds[i], None))
  }

  predicate AnyAdvanced(s: State, week: int) {
    exists slot :: slot in TargetSlots(week) && FindActive(s.pairings, slot).Some?
  }

  function Advance(s: State, week: int, expected: Expected): Result<State, Refusal> {
    if !(1 <= week <= 3) then Err(BadWeek)
    else
      var ids :- SourceMatchups(s, week);
      if !CompleteExpected(ids, expected) then Err(MissingExpectedVersion)
      else if AnyAdvanced(s, week) then Err(AlreadyAdvanced)
      else
        var _ :- LockSources(s, ids, expected);
        var d :- Derive(s, week);
        Ok(s.(pairings := InsertAll(s.pairings, d.pairings),
              eliminations := s.eliminations + [Elimination(d.stage, d.eliminated, Some(d.sourcePairing), true, None)]))
  }

  // ----- Rewinding -----

  predicate HasPlayState(s: State, row: nat)
    requires row < |s.pairings|
  {
    var p := s.pairings[row];
    var week := WeekOf(p.slot);
    || (week, p.home) in s.play.lineups
    || (p.away.Some? && (week, p.away.value) in s.play.lineups)
    || week in s.play.activations
    || (p.matchup.Some?
        && (|| p.matchup.value in s.play.rulings
            || p.matchup.value in s.play.calculations
            || (p.matchup.value < |s.matchups| && s.matchups[p.matchup.value].effective.Some?)))
  }

  /** The persisted row of a slot disagrees with what the current results derive. */
  predicate Changed(s: State, d: Derived) {
    var i := FindActive(s.pairings, d.slot);
    i.Some? && var p := s.pairings[i.value];
    !(p.home == d.home && p.away == Some(d.away)
      && p.source1.Some? && p.source1.value.version == d.source1.version
      && p.source2.Some? == d.source2.Some?
      && (d.source2.Some? ==> p.source2.value.version == d.source2.value.version))
  }

  predicate Blocked(s: State, d: Derived) {
    Changed(s, d) && HasPlayState(s, FindActive(s.pairings, d.slot).value)
  }

  predicate EliminationChanged(s: State, d: Derivation) {
    var i := FindElimination(s.eliminations, d.stage);
    i.Some? && s.eliminations[i.value].entry != d.eliminated
  }

  predicate AnyBlocked(s: State, d: Derivation) {
    exists k :: 0 <= k < |d.pairings| && Blocked(s, d.pairings[k])
  }

  predicate ChangeNeeded(s: State, d: Derivation) {
    EliminationChanged(s, d) || exists k :: 0 <= k < |d.pairings| && Changed(s, d.pairings[k])
  }

  /** Supersede a slot's row by a fresh one that takes over its matchup. */
  function Replace(s: State, d: Derived): State {
    match FindActive(s.pairings, d.slot)
    case None => s
    case Some(i) =>
      var prior := s.pairings[i];
      s.(pairings := s.pairings[i := prior.(active := false, matchup := None, supersededBy := Some(|s.pairings|))]
                     + [RowFor(d, prior.matchup)],
         matchups := if prior.matchup.Some? && prior.matchup.value < |s.matchups|
                     then s.matchups[prior.matchup.value := s.matchups[prior.matchup.value].(home := d.home, away := d.away)]
                     else s.matchups)
  }

  function ReplaceChanged(s: State, d: Derived): State {
    if Changed(s, d) then Replace(s, d) else s
  }

  function ReplaceElimination(s: State, d: Derivation): State {
    match FindElimination(s.eliminations, d.stage)
    case None => s
    case Some(i) =>
      s.(eliminations := s.eliminations[i := s.eliminations[i].(active := false, supersededBy := Some(|s.eliminations|))]
                         + [Elimination(d.stage, d.eliminated, Some(d.sourcePairing), true, None)])
  }

  function RewoundPairings(s: State, d: Derivation): State {
    var s1 := if |d.pairings| > 0 then ReplaceChanged(s, d.pairings[0]) else s;
    if |d.pairings| > 1 then ReplaceChanged(s1, d.pairings[1]) else s1
  }

  /** Every write of an accepted rewind, in order: the changed pairings, then the elimination. */
  function Rewound(s: State, d: Derivation): State {
    var s' := RewoundPairings(s, d);
    if EliminationChanged(s, d) then ReplaceElimination(s', d) else s'
  }

  /** The derivation of the next week, under the lock and guard of its sources. */
  function LockedDerivation(s: State, week: int, expected: Expected): Result<Derivation, Refusal> {
    if !(1 <= week <= 3) then Err(BadWeek)
    else
      var ids :- SourceMatchups(s, week);
      if !CompleteExpected(ids, expected) then Err(MissingExpectedVersion)
      else
        var _ :- LockSources(s, ids, expected);
        Derive(s, week)
  }

  function Reconcile(s: State, derived: Result<Derivation, Refusal>): Result<State, Refusal> {
    var d :- derived;
    if AnyBlocked(s, d) then Err(DownstreamPlayState) else Ok(Rewound(s, d))
  }

  function Rewind(s: State, week: int, expected: Expected): Result<State, Refusal> {
    Reconcile(s, LockedDerivation(s, week, expected))
  }

  // ----- Correction -----

  /** Append one more version of a published result. */
  function AppendResult(s: State, m: nat, version: nat, score: Score): State
    requires m < |s.matchups|
  {
    s.(results := s.results[Source(m, version) := score],
       matchups := s.matchups[m := s.matchups[m].(effective := Some(version),
                                                  reviewVersion := s.matchups[m].reviewVersion + 1)])
  }

  /** The versions a correction re-checks under lock: those it has just read or written. */
  function ObservedVersions(s: State, ids: (nat, nat)): Expected {
    if ids.0 < |s.matchups| && ids.1 < |s.matchups| then
      Some(map[ids.0 := s.matchups[ids.0].effective, ids.1 := s.matchups[ids.1].effective])
    else None
  }

  /** Before the Grand Final: append the version and reconcile the next week in the same transaction. */
  function CorrectAndRewind(s: State, m: nat, version: nat, score: Score, ids: (nat, nat)): Result<State, Refusal>
    requires m < |s.matchups|
  {
    var s1 := AppendResult(s, m, version + 1, score);
    Rewind(s1, s.matchups[m].week, ObservedVersions(s1, ids))
  }

  /** The Grand Final: append the version and record its premier. */
  function CorrectGrandFinal(s: State, m: nat, version: nat, score: Score): State
    requires m < |s.matchups|
  {
    AppendResult(s, m, version + 1, score).(premiers := s.premiers
      + [Premier(s.seeds, s.matchups[m].home, s.matchups[m].away, score)])
  }

  /**
   The finals correction transaction. `oldVersion` and the sign-off were read
   before it began and are compared again here.
   */
  function Correct(s: State, m: nat, oldVersion: Option<nat>, signoff: Signoff): Result<State, Refusal> {
    if m >= |s.matchups| then Err(NoSuchRow)
    else
      var week := s.matchups[m].week;
      var slot := SlotAt(week, s.matchups[m].order);
      if MatchupOf(s, slot) != Ok(m) then Err(NoSuchRow)
      else if oldVersion.None? then Err(NotPublished)
      else
        var ids :- if week < 4 then SourceMatchups(s, week) else Ok((m, m));
        if s.matchups[m].effective != oldVersion || !SnapshotCurrent(s, m, signoff.reviewVersion, signoff.calculation) then
          Err(StaleSnapshot)
        else
          if week < 4 then CorrectAndRewind(s, m, oldVersion.value, signoff.score, ids)
          else Ok(CorrectGrandFinal(s, m, oldVersion.value, signoff.score))
  }

  // ----- Runs -----

  datatype Step =
    | StepCreateRound(week: int)
    | StepTransition(week: int, target: RoundState)
    | StepMaterialise(row: nat)
    | StepPlay(play: Play)
    | StepPublish(week: int, signoffs: map<nat, Signoff>)
    | StepAdvance(week: int, expected: Expected)
    | StepRewind(week: int, expected: Expected)
    | StepCorrect(matchup: nat, oldVersion: Option<nat>, signoff: Signoff)

  function Attempt(s: State, step: Step): Result<State, Refusal> {
    match step
    case StepCreateRound(w) => CreateRound(s, w)
    case StepTransition(w, t) => Transition(s, w, t)
    case StepMaterialise(r) => Materialise(s, r)
    case StepPlay(p) => Ok(s.(play := p))
    case StepPublish(w, x) => Publish(s, w, x)
    case StepAdvance(w, e) => Advance(s, w, e)
    case StepRewind(w, e) => Rewind(s, w, e)
    case StepCorrect(m, v, x) => Correct(s, m, v, x)
  }

  /** A refused transaction leaves the tables alone. */
  function Kept(s: State, r: Result<State, Refusal>): State {
    match r
    case Ok(s') => s'
    case Err(_) => s
  }

  function Apply(s: State, step: Step): State {
    Kept(s, Attempt(s, step))
  }

  function Run(s: State, steps: seq<Step>): State
    decreases |steps|
  {
    if steps == [] then s else Run(Apply(s, steps[0]), steps[1..])
  }
}
