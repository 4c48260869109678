/** The season's fixture draw: redrafted freely, frozen once, and balanced over the ten entries whenever it is frozen. */
module FixtureDraw {
  import opened Options
  import opened FixtureRotation

  type Entry = nat

  datatype Match = Match(round: nat, order: nat, home: Entry, away: Entry)

  datatype Draw = Draw(frozen: bool, version: nat, numbers: seq<Entry>, matches: seq<Match>)

  datatype Season = Season(entries: set<Entry>, roundCount: int, draw: Option<Draw>)

  datatype Refusal = NotTenEntries | WrongEntries | Frozen | RoundCount | NoDraw | VersionConflict | Incomplete

  predicate Distinct(s: seq<Entry>) {
    forall i, j :: 0 <= i < j < |s| ==> s[i] != s[j]
  }

  function Members(s: seq<Entry>): set<Entry> { set e | e in s }

  predicate Fits(round: Round) {
    forall i :: 0 <= i < |round| ==> ProperPairing(round[i])
  }

  /** One round's rows: the numbers replaced by the entries that drew them. */
  function RoundRows(numbers: seq<Entry>, k: nat, round: Round): (rows: seq<Match>)
    requires |numbers| == 10 && Fits(round)
    ensures |rows| == |round|
    ensures forall i :: 0 <= i < |rows| ==> rows[i] == Match(k, i + 1, numbers[round[i].home - 1], numbers[round[i].away - 1])
  {
    if round == [] then []
    else
      var n := |round| - 1;
      RoundRows(numbers, k, round[..n]) + [Match(k, n + 1, numbers[round[n].home - 1], numbers[round[n].away - 1])]
  }

  function Drawn(numbers: seq<Entry>, rounds: seq<Round>): seq<Match>
    requires |numbers| == 10 && forall k :: 0 <= k < |rounds| ==> Fits(rounds[k])
  {
    if rounds == [] then []
    else
      var n := |rounds| - 1;
      Drawn(numbers, rounds[..n]) + RoundRows(numbers, n + 1, rounds[n])
  }

  lemma RotationFits(n: int)
    requires n >= 1
    ensures forall k :: 0 <= k < |Rotation(n).value| ==> Fits(Rotation(n).value[k])
  {
    forall k | 0 <= k < n ensures Fits(Rotation(n).value[k]) {
      CycleRoundsMatch(k % 18);
    }
  }

  function RotationRows(numbers: seq<Entry>, n: int): seq<Match>
    requires |numbers| == 10 && n >= 1
  {
    RotationFits(n);
    Drawn(numbers, Rotation(n).value)
  }

  function CheckDraft(s: Season, numbers: seq<Entry>): Option<Refusal> {
    if |numbers| != 10 || !Distinct(numbers) then Some(NotTenEntries)
    else if |s.entries| != 10 || Members(numbers) != s.entries then Some(WrongEntries)
    else if s.draw.Some? && s.draw.value.frozen then Some(Frozen)
    else if s.roundCount < 1 then Some(RoundCount)
    else None
  }

  function NextVersion(draw: Option<Draw>): nat {
    if draw.Some? then draw.value.version + 1 else 1
  }

  function SaveDraft(s: Season, numbers: seq<Entry>): Result<Season, Refusal> {
    var refusal := CheckDraft(s, numbers);
    if refusal.Some? then Err(refusal.value)
    else Ok(s.(draw := Some(Draw(false, NextVersion(s.draw), numbers, RotationRows(numbers, s.roundCount)))))
  }

  function RowsOfRound(matches: seq<Match>, k: int): nat {
    if matches == [] then 0
    else RowsOfRound(matches[..|matches| - 1], k) + (if matches[|matches| - 1].round == k then 1 else 0)
  }

  /** Rows for exactly the season's rounds, five each. */
  predicate Complete(d: Draw, roundCount: int) {
    && |d.numbers| == 10
    && (forall i :: 0 <= i < |d.matches| ==> 1 <= d.matches[i].round <= roundCount)
    && (forall k :: 1 <= k <= roundCount ==> RowsOfRound(d.matches, k) == 5)
  }

  function Freeze(s: Season, expected: Option<nat>): Result<Season, Refusal> {
    if s.draw.None? then Err(NoDraw)
    else if s.draw.value.frozen then Err(Frozen)
    else if expected.Some? && s.draw.value.version != expected.value then Err(VersionConflict)
    else if !Complete(s.draw.value, s.roundCount) then Err(Incomplete)
    else Ok(s.(draw := Some(s.draw.value.(frozen := true, version := s.draw.value.version + 1))))
  }

  /** Besides drafting and freezing, the configured season length may change at any time. */
  datatype Step = Save(numbers: seq<Entry>) | Fix(expected: Option<nat>) | Configure(roundCount: int)

  function Apply(s: Season, step: Step): Season {
    match step
    case Save(numbers) => if SaveDraft(s, numbers).Ok? then SaveDraft(s, numbers).value else s
    case Fix(expected) => if Freeze(s, expected).Ok? then Freeze(s, expected).value else s
    case Configure(n) => s.(roundCount := n)
  }

  function Run(s: Season, steps: seq<Step>): Season
    decreases |steps|
  {
    if steps == [] then s else Run(Apply(s, steps[0]), steps[1..])
  }

  /** The draw is the rotation of some length over the ten entries. */
  ghost predicate DrawnFor(s: Season, n: int) {
    s.draw.Some? ==>
      && n >= 1 && |s.entries| == 10
      && |s.draw.value.numbers| == 10 && Distinct(s.draw.value.numbers) && Members(s.draw.value.numbers) == s.entries
      && s.draw.value.matches == RotationRows(s.draw.value.numbers, n)
  }

  ghost predicate Inv(s: Season) {
    exists n :: DrawnFor(s, n)
  }

  lemma StepKeeps(s: Season, step: Step, n: int)
    requires DrawnFor(s, n)
    ensures DrawnFor(Apply(s, step), if step.Save? && SaveDraft(s, step.numbers).Ok? then s.roundCount else n)
    ensures s.draw.Some? && s.draw.value.frozen ==> Apply(s, step).draw == s.draw
  {
  }

  /** A frozen draw never changes again, and every draw is always a whole rotation. */
  lemma {:induction false} RunKeeps(s: Season, steps: seq<Step>)
    requires Inv(s)
    ensures Inv(Run(s, steps))
    ensures s.draw.Some? && s.draw.value.frozen ==> Run(s, steps).draw == s.draw
    decreases |steps|
  {
    if steps != [] {
      var n :| DrawnFor(s, n);
      StepKeeps(s, steps[0], n);
      RunKeeps(Apply(s, steps[0]), steps[1..]);
    }
  }

  // ----- Versions -----

  /** A proposal is saved exactly for the season's ten entries, in some order, while the draw is not frozen; it is a
      new version, unfrozen. */
  lemma SaveAcceptedIff(s: Season, numbers: seq<Entry>)
    ensures SaveDraft(s, numbers).Ok?
       <==> && |numbers| == 10 && (forall i, j :: 0 <= i < j < |numbers| ==> numbers[i] != numbers[j])
            && |s.entries| == 10 && (forall e :: e in numbers <==> e in s.entries)
            && (s.draw.Some? ==> !s.draw.value.frozen) && s.roundCount >= 1
    ensures SaveDraft(s, numbers).Ok? ==>
              var s' := SaveDraft(s, numbers).value;
              && s' == s.(draw := s'.draw) && s'.draw.Some?
              && s'.draw.value.numbers == numbers && !s'.draw.value.frozen
              && s'.draw.value.version == VersionOf(s) + 1
  {
    SameEntries(numbers, s.entries);
  }

  lemma SameEntries(numbers: seq<Entry>, entries: set<Entry>)
    ensures Members(numbers) == entries <==> forall e :: e in numbers <==> e in entries
  {
    assert forall e :: e in Members(numbers) <==> e in numbers;
    if forall e :: e in numbers <==> e in entries {
      forall e ensures e in Members(numbers) <==> e in entries {}
    }
  }

  function VersionOf(s: Season): nat {
    if s.draw.Some? then s.draw.value.version else 0
  }

  /** Every accepted save and freeze is a new version, and nothing else changes the draw. */
  lemma StepVersions(s: Season, step: Step)
    ensures var s' := Apply(s, step);
            s'.draw == s.draw || VersionOf(s') == VersionOf(s) + 1
    ensures step.Fix? && Freeze(s, step.expected).Ok? ==>
              Apply(s, step) == s.(draw := Some(s.draw.value.(frozen := true, version := VersionOf(s) + 1)))
  {
  }

  lemma {:induction false} RunVersions(s: Season, steps: seq<Step>)
    ensures VersionOf(Run(s, steps)) >= VersionOf(s)
    ensures VersionOf(Run(s, steps)) == VersionOf(s) ==> Run(s, steps).draw == s.draw
    decreases |steps|
  {
    if steps != [] {
      StepVersions(s, steps[0]);
      RunVersions(Apply(s, steps[0]), steps[1..]);
    }
  }

  /** Freezing on the version reviewed freezes the very draw that was reviewed, whatever happened in between. */
  lemma FreezesWhatWasReviewed(s: Season, steps: seq<Step>)
    requires s.draw.Some? && Freeze(Run(s, steps), Some(VersionOf(s))).Ok?
    ensures Run(s, steps).draw == s.draw
    ensures Freeze(Run(s, steps), Some(VersionOf(s))).value.draw == Some(s.draw.value.(frozen := true, version := VersionOf(s) + 1))
  {
    RunVersions(s, steps);
  }

  // ----- When a freeze is accepted -----

  lemma {:induction false} RowsConcat(a: seq<Match>, b: seq<Match>, k: int)
    ensures RowsOfRound(a + b, k) == RowsOfRound(a, k) + RowsOfRound(b, k)
  {
    if b == [] {
      assert a + b == a;
    } else {
      assert (a + b)[..|a + b| - 1] == a + b[..|b| - 1];
      RowsConcat(a, b[..|b| - 1], k);
    }
  }

  lemma {:induction false} RowsAllOrNone(rows: seq<Match>, k: int, r: nat)
    requires forall i :: 0 <= i < |rows| ==> rows[i].round == r
    ensures RowsOfRound(rows, k) == if k == r then |rows| else 0
  {
    if rows != [] { RowsAllOrNone(rows[..|rows| - 1], k, r); }
  }

  lemma {:induction false} DrawnRows(numbers: seq<Entry>, rounds: seq<Round>, k: int)
    requires |numbers| == 10 && forall i :: 0 <= i < |rounds| ==> Fits(rounds[i]) && |rounds[i]| == 5
    ensures RowsOfRound(Drawn(numbers, rounds), k) == if 1 <= k <= |rounds| then 5 else 0
  {
    if rounds != [] {
      var n := |rounds| - 1;
      DrawnRows(numbers, rounds[..n], k);
      RowsAllOrNone(RoundRows(numbers, n + 1, rounds[n]), k, n + 1);
      DrawnSplit(numbers, rounds, k);
    }
  }

  lemma DrawnSplit(numbers: seq<Entry>, rounds: seq<Round>, k: int)
    requires |numbers| == 10 && rounds != [] && forall i :: 0 <= i < |rounds| ==> Fits(rounds[i])
    ensures var n := |rounds| - 1;
            RowsOfRound(Drawn(numbers, rounds), k)
            == RowsOfRound(Drawn(numbers, rounds[..n]), k) + RowsOfRound(RoundRows(numbers, n + 1, rounds[n]), k)
  {
    var n := |rounds| - 1;
    RowsConcat(Drawn(numbers, rounds[..n]), RoundRows(numbers, n + 1, rounds[n]), k);
  }

  lemma {:induction false} DrawnWithin(numbers: seq<Entry>, rounds: seq<Round>)
    requires |numbers| == 10 && forall i :: 0 <= i < |rounds| ==> Fits(rounds[i])
    ensures forall m :: m in Drawn(numbers, rounds) ==> 1 <= m.round <= |rounds|
  {
    if rounds != [] {
      var n := |rounds| - 1;
      DrawnWithin(numbers, rounds[..n]);
      forall m | m in RoundRows(numbers, n + 1, rounds[n]) ensures m.round == n + 1 {}
    }
  }

  /** A draft can be frozen exactly when it is the version reviewed and the season length has not changed since it was drawn. */
  lemma FreezeAcceptedIff(s: Season, n: int, expected: Option<nat>)
    requires DrawnFor(s, n) && s.draw.Some?
    ensures Freeze(s, expected).Ok? <==>
              !s.draw.value.frozen && (expected.None? || expected.value == s.draw.value.version) && s.roundCount == n
  {
    CompleteIff(s.draw.value, n, s.roundCount);
  }

  lemma CompleteIff(d: Draw, n: int, m: int)
    requires |d.numbers| == 10 && n >= 1 && d.matches == RotationRows(d.numbers, n)
    ensures Complete(d, m) <==> m == n
  {
    RotationFits(n);
    forall k ensures RowsOfRound(d.matches, k) == if 1 <= k <= n then 5 else 0 { DrawnRows(d.numbers, Rotation(n).value, k); }
    DrawnWithin(d.numbers, Rotation(n).value);
    if m != n { OtherLengthIsIncomplete(d, n, m); }
  }

  lemma OtherLengthIsIncomplete(d: Draw, n: int, m: int)
    requires n >= 1 && m != n && forall k :: RowsOfRound(d.matches, k) == if 1 <= k <= n then 5 else 0
    ensures !Complete(d, m)
  {
    if m < n {
      assert RowsOfRound(d.matches, n) == 5;
      SomeRow(d.matches, n);
    } else {
      assert RowsOfRound(d.matches, m) == 0;
    }
  }

  lemma {:induction false} SomeRow(matches: seq<Match>, k: int)
    requires RowsOfRound(matches, k) > 0
    ensures exists i :: 0 <= i < |matches| && matches[i].round == k
  {
    if matches[|matches| - 1].round != k { SomeRow(matches[..|matches| - 1], k); }
  }

  // ----- Balance over the entries -----

  function HostRows(rows: seq<Match>, home: Entry, away: Entry): nat {
    if rows == [] then 0
    else HostRows(rows[..|rows| - 1], home, away) + (if rows[|rows| - 1].home == home && rows[|rows| - 1].away == away then 1 else 0)
  }

  lemma {:induction false} HostConcat(a: seq<Match>, b: seq<Match>, home: Entry, away: Entry)
    ensures HostRows(a + b, home, away) == HostRows(a, home, away) + HostRows(b, home, away)
  {
    if b == [] {
      assert a + b == a;
    } else {
      assert (a + b)[..|a + b| - 1] == a + b[..|b| - 1];
      HostConcat(a, b[..|b| - 1], home, away);
    }
  }

  predicate NoRepeats(round: Round) {
    forall i, j :: 0 <= i < j < |round| ==> round[i] != round[j]
  }

  lemma SamePairing(numbers: seq<Entry>, p: Pairing, a: int, b: int)
    requires |numbers| == 10 && Distinct(numbers) && ProperPairing(p) && IsNumber(a) && IsNumber(b)
    ensures numbers[p.home - 1] == numbers[a - 1] && numbers[p.away - 1] == numbers[b - 1] <==> p == Pairing(a, b)
  {
  }

  lemma HostsSnoc(front: Round, p: Pairing, a: int, b: int)
    ensures Hosts(front + [p], a, b) <==> Hosts(front, a, b) || p == Pairing(a, b)
  {
  }

  lemma LastIsNew(round: Round)
    requires round != [] && NoRepeats(round)
    ensures var n := |round| - 1; round == round[..n] + [round[n]] && round[n] !in round[..n] && NoRepeats(round[..n])
  {
  }

  lemma HostSnoc(rows: seq<Match>, m: Match, home: Entry, away: Entry)
    ensures HostRows(rows + [m], home, away) == HostRows(rows, home, away) + (if m.home == home && m.away == away then 1 else 0)
  {
    assert (rows + [m])[..|rows + [m]| - 1] == rows;
  }

  function RowOf(numbers: seq<Entry>, k: nat, order: nat, p: Pairing): Match
    requires |numbers| == 10 && ProperPairing(p)
  {
    Match(k, order, numbers[p.home - 1], numbers[p.away - 1])
  }

  lemma OneMoreHost(numbers: seq<Entry>, k: nat, rows: seq<Match>, front: Round, p: Pairing, order: nat, a: int, b: int)
    requires |numbers| == 10 && Distinct(numbers) && ProperPairing(p) && IsNumber(a) && IsNumber(b) && p !in front
    requires HostRows(rows, numbers[a - 1], numbers[b - 1]) == if Hosts(front, a, b) then 1 else 0
    ensures HostRows(rows + [RowOf(numbers, k, order, p)], numbers[a - 1], numbers[b - 1]) == if Hosts(front + [p], a, b) then 1 else 0
  {
    SamePairing(numbers, p, a, b);
    HostSnoc(rows, RowOf(numbers, k, order, p), numbers[a - 1], numbers[b - 1]);
    HostsSnoc(front, p, a, b);
  }

  lemma RoundRowsSnoc(numbers: seq<Entry>, k: nat, round: Round)
    requires |numbers| == 10 && Fits(round) && round != []
    ensures var n := |round| - 1; RoundRows(numbers, k, round) == RoundRows(numbers, k, round[..n]) + [RowOf(numbers, k, n + 1, round[n])]
  {
  }

  /** In one round a home pairing shows up as one row, or none. */
  lemma {:induction false} RoundHosts(numbers: seq<Entry>, k: nat, round: Round, a: int, b: int)
    requires |numbers| == 10 && Distinct(numbers) && Fits(round) && IsNumber(a) && IsNumber(b) && NoRepeats(round)
    ensures HostRows(RoundRows(numbers, k, round), numbers[a - 1], numbers[b - 1]) == if Hosts(round, a, b) then 1 else 0
  {
    if round != [] {
      var n := |round| - 1;
      LastIsNew(round);
      RoundHosts(numbers, k, round[..n], a, b);
      OneMoreHost(numbers, k, RoundRows(numbers, k, round[..n]), round[..n], round[n], n + 1, a, b);
      RoundRowsSnoc(numbers, k, round);
    }
  }

  lemma {:induction false} DrawnHosts(numbers: seq<Entry>, rounds: seq<Round>, a: int, b: int)
    requires |numbers| == 10 && Distinct(numbers) && IsNumber(a) && IsNumber(b)
    requires forall k :: 0 <= k < |rounds| ==> Fits(rounds[k]) && NoRepeats(rounds[k])
    ensures HostRows(Drawn(numbers, rounds), numbers[a - 1], numbers[b - 1]) == HomeGames(rounds, a, b)
  {
    if rounds != [] {
      var n := |rounds| - 1;
      DrawnHosts(numbers, rounds[..n], a, b);
      HostConcat(Drawn(numbers, rounds[..n]), RoundRows(numbers, n + 1, rounds[n]), numbers[a - 1], numbers[b - 1]);
      RoundHosts(numbers, n + 1, rounds[n], a, b);
    }
  }

  lemma MatchingHasNoRepeats(round: Round)
    requires PerfectMatching(round)
    ensures NoRepeats(round)
  {
    forall i, j | 0 <= i < j < |round| ensures round[i] != round[j] {
      assert PlayedAt(round, round[i].home, i);
      assert PlayedAt(round, round[j].home, j);
    }
  }

  lemma RotationHosts(numbers: seq<Entry>, n: int, a: int, b: int)
    requires |numbers| == 10 && Distinct(numbers) && IsNumber(a) && IsNumber(b) && n >= 1
    ensures HostRows(RotationRows(numbers, n), numbers[a - 1], numbers[b - 1]) == HomeGames(Rotation(n).value, a, b)
  {
    RotationFits(n);
    forall k | 0 <= k < n ensures NoRepeats(Rotation(n).value[k]) {
      CycleRoundsMatch(k % 18);
      MatchingHasNoRepeats(CycleRound(k % 18));
    }
    DrawnHosts(numbers, Rotation(n).value, a, b);
  }

  /** The rows of the rotation are balanced between any two of its numbers, whoever drew them. */
  lemma NumbersBalanced(numbers: seq<Entry>, n: int, a: int, b: int)
    requires |numbers| == 10 && Distinct(numbers) && IsNumber(a) && IsNumber(b) && a != b && n >= 1
    ensures BalancedRows(RotationRows(numbers, n), n, numbers[a - 1], numbers[b - 1])
  {
    RotationIsBalanced(n, a, b);
    RotationHosts(numbers, n, a, b);
    RotationHosts(numbers, n, b, a);
  }

  /** Two entries meet the rounded-down or rounded-up ninth of the rounds, home and away games differing by at most one. */
  predicate BalancedRows(rows: seq<Match>, n: int, x: Entry, y: Entry) {
    && n / 9 <= HostRows(rows, x, y) + HostRows(rows, y, x) <= (n + 8) / 9
    && -1 <= HostRows(rows, x, y) - HostRows(rows, y, x) <= 1
  }

  /** Every frozen draw, however it was reached: any two entries are balanced over its rounds. */
  lemma FrozenDrawIsBalanced(s: Season, n: int, x: Entry, y: Entry)
    requires DrawnFor(s, n) && s.draw.Some? && x in s.entries && y in s.entries && x != y
    ensures BalancedRows(s.draw.value.matches, n, x, y)
  {
    var numbers := s.draw.value.numbers;
    assert x in numbers && y in numbers;
    var i :| 0 <= i < 10 && numbers[i] == x;
    var j :| 0 <= j < 10 && numbers[j] == y;
    NumbersBalanced(numbers, n, i + 1, j + 1);
  }

  // ----- The repository -----

  class FixtureRepository {
    const entries: set<Entry>
    var roundCount: int
    var draw: Option<Draw>

    function Contents(): Season
      reads this
    {
      Season(entries, roundCount, draw)
    }

    constructor (seasonEntries: set<Entry>, length: int)
      ensures Contents() == Season(seasonEntries, length, None) && Inv(Contents())
    {
      entries, roundCount, draw := seasonEntries, length, None;
      new;
      assert DrawnFor(Contents(), 1);
    }

    /** Replace the proposal, row by row, unless one is already frozen. */
    method SaveProposal(numbers: seq<Entry>) returns (refusal: Option<Refusal>)
      modifies this`draw
      ensures SaveDraft(old(Contents()), numbers) == if refusal.None? then Ok(Contents()) else Err(refusal.value)
      ensures refusal.Some? ==> Contents() == old(Contents())
    {
      refusal := CheckProposal(numbers);
      if refusal.None? {
        var matches := DrawRows(numbers, roundCount);
        draw := Some(Draw(false, NextVersion(draw), numbers, matches));
      }
    }

    method CheckProposal(numbers: seq<Entry>) returns (refusal: Option<Refusal>)
      ensures refusal == CheckDraft(Contents(), numbers)
    {
      if |numbers| != 10 || !Distinct(numbers) { return Some(NotTenEntries); }
      if |entries| != 10 || Members(numbers) != entries { return Some(WrongEntries); }
      if draw.Some? && draw.value.frozen { return Some(Frozen); }
      return if Rotation(roundCount).Err? then Some(RoundCount) else None;
    }

    static method DrawRows(numbers: seq<Entry>, n: int) returns (matches: seq<Match>)
      requires |numbers| == 10 && n >= 1
      ensures matches == RotationRows(numbers, n)
    {
      var rounds := Rotation(n).value;
      RotationFits(n);
      matches := [];
      for k := 0 to |rounds|
        invariant matches == Drawn(numbers, rounds[..k])
      {
        assert rounds[..k + 1][..k] == rounds[..k];
        matches := DrawRound(matches, numbers, k + 1, rounds[k]);
      }
      assert rounds[..|rounds|] == rounds;
    }

    static method DrawRound(written: seq<Match>, numbers: seq<Entry>, k: nat, round: Round) returns (matches: seq<Match>)
      requires |numbers| == 10 && Fits(round)
      ensures matches == written + RoundRows(numbers, k, round)
    {
      matches := written;
      for i := 0 to |round|
        invariant matches == written + RoundRows(numbers, k, round)[..i]
      {
        matches := matches + [Match(k, i + 1, numbers[round[i].home - 1], numbers[round[i].away - 1])];
      }
    }

    /** Freeze the reviewed version, if its rows are complete for the season as configured now. */
    method FreezeDraw(expected: Option<nat>) returns (refusal: Option<Refusal>)
      modifies this`draw
      ensures Freeze(old(Contents()), expected) == if refusal.None? then Ok(Contents()) else Err(refusal.value)
      ensures refusal.Some? ==> Contents() == old(Contents())
    {
      if draw.None? { return Some(NoDraw); }
      if draw.value.frozen { return Some(Frozen); }
      if expected.Some? && draw.value.version != expected.value { return Some(VersionConflict); }
      if !Complete(draw.value, roundCount) { return Some(Incomplete); }
      draw := Some(draw.value.(frozen := true, version := draw.value.version + 1));
      return None;
    }
  }
}
