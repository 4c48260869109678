/** The ten-team rotation: a fixed nine-round table, reversed, repeated, and balanced for every season length. */
module FixtureRotation {
  import opened Options

  datatype Pairing = Pairing(home: int, away: int)
  type Round = seq<Pairing>

  function Nth(i: nat, a: Pairing, b: Pairing, c: Pairing, d: Pairing, e: Pairing): Pairing {
    if i == 0 then a else if i == 1 then b else if i == 2 then c else if i == 3 then d else e
  }

  /** Pairing `i` of base round `s`: home number first. */
  function BasePairing(s: nat, i: nat): Pairing {
    if s == 0 then Nth(i, Pairing(1, 2), Pairing(3, 4), Pairing(5, 6), Pairing(7, 8), Pairing(9, 10))
    else if s == 1 then Nth(i, Pairing(1, 3), Pairing(2, 8), Pairing(9, 6), Pairing(7, 4), Pairing(10, 5))
    else if s == 2 then Nth(i, Pairing(1, 4), Pairing(2, 6), Pairing(3, 5), Pairing(8, 10), Pairing(7, 9))
    else if s == 3 then Nth(i, Pairing(1, 6), Pairing(2, 4), Pairing(5, 7), Pairing(3, 10), Pairing(8, 9))
    else if s == 4 then Nth(i, Pairing(1, 5), Pairing(2, 7), Pairing(4, 10), Pairing(3, 9), Pairing(6, 8))
    else if s == 5 then Nth(i, Pairing(1, 7), Pairing(2, 9), Pairing(4, 5), Pairing(6, 10), Pairing(3, 8))
    else if s == 6 then Nth(i, Pairing(1, 8), Pairing(2, 10), Pairing(4, 6), Pairing(3, 7), Pairing(5, 9))
    else if s == 7 then Nth(i, Pairing(1, 9), Pairing(2, 5), Pairing(4, 8), Pairing(3, 6), Pairing(7, 10))
    else Nth(i, Pairing(1, 10), Pairing(2, 3), Pairing(4, 9), Pairing(5, 8), Pairing(6, 7))
  }

  function Flip(p: Pairing): Pairing { Pairing(p.away, p.home) }

  /** Position `c` of the eighteen-round cycle: the base rounds, then the same with home and away swapped. */
  function CyclePairing(c: nat, i: nat): Pairing {
    if c < 9 then BasePairing(c, i) else Flip(BasePairing(c - 9, i))
  }

  function CycleRound(c: nat): (r: Round)
    ensures |r| == 5 && forall i :: 0 <= i < 5 ==> r[i] == CyclePairing(c, i)
  {
    [CyclePairing(c, 0), CyclePairing(c, 1), CyclePairing(c, 2), CyclePairing(c, 3), CyclePairing(c, 4)]
  }

  datatype RotationError = NotPositive

  function Rotation(roundCount: int): Result<seq<Round>, RotationError> {
    if roundCount < 1 then Err(NotPositive)
    else Ok(seq(roundCount, i requires 0 <= i < roundCount => CycleRound(i % 18)))
  }

  // ----- One round -----

  predicate IsNumber(n: int) { 1 <= n <= 10 }

  predicate Plays(p: Pairing, n: int) { p.home == n || p.away == n }

  predicate PlayedAt(round: Round, n: int, i: int) {
    0 <= i < |round| && Plays(round[i], n)
  }

  predicate ProperPairing(p: Pairing) {
    IsNumber(p.home) && IsNumber(p.away) && p.home != p.away
  }

  /** Five matches between numbers, and every number in exactly one of them. */
  ghost predicate PerfectMatching(round: Round) {
    && |round| == 5
    && (forall i :: 0 <= i < 5 ==> ProperPairing(round[i]))
    && (forall n :: IsNumber(n) ==> exists i :: PlayedAt(round, n, i))
    && (forall n, i, j :: PlayedAt(round, n, i) && PlayedAt(round, n, j) ==> i == j)
  }

  lemma NumbersPlayOnce(s: nat, n: int, i: nat, j: nat)
    requires s < 9 && i < 5 && j < 5
    ensures ProperPairing(BasePairing(s, i))
    ensures Plays(BasePairing(s, i), n) && Plays(BasePairing(s, j), n) ==> i == j
  {
  }

  lemma NumbersPlay(s: nat, n: int)
    requires s < 9 && IsNumber(n)
    ensures Plays(BasePairing(s, 0), n) || Plays(BasePairing(s, 1), n) || Plays(BasePairing(s, 2), n)
         || Plays(BasePairing(s, 3), n) || Plays(BasePairing(s, 4), n)
  {
  }

  lemma CyclePlaysOnce(c: nat, n: int, i: nat, j: nat)
    requires c < 18 && i < 5 && j < 5
    ensures ProperPairing(CyclePairing(c, i))
    ensures Plays(CyclePairing(c, i), n) && Plays(CyclePairing(c, j), n) ==> i == j
  {
    NumbersPlayOnce(if c < 9 then c else c - 9, n, i, j);
  }

  lemma CyclePlays(c: nat, n: int) returns (i: nat)
    requires c < 18 && IsNumber(n)
    ensures i < 5 && Plays(CyclePairing(c, i), n)
  {
    var s := if c < 9 then c else c - 9;
    NumbersPlay(s, n);
    i := if Plays(BasePairing(s, 0), n) then 0 else if Plays(BasePairing(s, 1), n) then 1
         else if Plays(BasePairing(s, 2), n) then 2 else if Plays(BasePairing(s, 3), n) then 3 else 4;
  }

  lemma CycleRoundsMatch(c: nat)
    requires c < 18
    ensures PerfectMatching(CycleRound(c))
  {
    var round := CycleRound(c);
    forall i | 0 <= i < 5 ensures ProperPairing(round[i]) { CyclePlaysOnce(c, 1, i, i); }
    forall n, i, j | PlayedAt(round, n, i) && PlayedAt(round, n, j) ensures i == j { CyclePlaysOnce(c, n, i, j); }
    forall n | IsNumber(n) ensures exists i :: PlayedAt(round, n, i) {
      var i := CyclePlays(c, n);
      assert PlayedAt(round, n, i);
    }
  }

  // ----- One pair -----

  predicate Hosts(round: Round, a: int, b: int) { Pairing(a, b) in round }

  /** The pair is one of base round `s`'s pairings, this way round. */
  predicate BaseHosts(s: nat, a: int, b: int) {
    || BasePairing(s, 0) == Pairing(a, b) || BasePairing(s, 1) == Pairing(a, b) || BasePairing(s, 2) == Pairing(a, b)
    || BasePairing(s, 3) == Pairing(a, b) || BasePairing(s, 4) == Pairing(a, b)
  }

  predicate BaseMeets(s: nat, a: int, b: int) { BaseHosts(s, a, b) || BaseHosts(s, b, a) }

  function Column(b: int, x1: nat, x2: nat, x3: nat, x4: nat, x5: nat, x6: nat, x7: nat, x8: nat, x9: nat, x10: nat): nat {
    if b == 1 then x1 else if b == 2 then x2 else if b == 3 then x3 else if b == 4 then x4 else if b == 5 then x5
    else if b == 6 then x6 else if b == 7 then x7 else if b == 8 then x8 else if b == 9 then x9 else x10
  }

  /** The chart of meetings: the base round in which two numbers meet. */
  function Slot(a: int, b: int): nat {
    if a == 1 then Column(b, 9, 0, 1, 2, 4, 3, 5, 6, 7, 8)
    else if a == 2 then Column(b, 0, 9, 8, 3, 7, 2, 4, 1, 5, 6)
    else if a == 3 then Column(b, 1, 8, 9, 0, 2, 7, 6, 5, 4, 3)
    else if a == 4 then Column(b, 2, 3, 0, 9, 5, 6, 1, 7, 8, 4)
    else if a == 5 then Column(b, 4, 7, 2, 5, 9, 0, 3, 8, 6, 1)
    else if a == 6 then Column(b, 3, 2, 7, 6, 0, 9, 8, 4, 1, 5)
    else if a == 7 then Column(b, 5, 4, 6, 1, 3, 8, 9, 0, 2, 7)
    else if a == 8 then Column(b, 6, 1, 5, 7, 8, 4, 0, 9, 3, 2)
    else if a == 9 then Column(b, 7, 5, 4, 8, 6, 1, 2, 3, 9, 0)
    else Column(b, 8, 6, 3, 4, 1, 5, 7, 2, 0, 9)
  }

  /** The chart lists every meeting of the table. */
  lemma TableInChart(a: int, b: int, s: nat)
    requires s < 9 && BaseMeets(s, a, b)
    ensures Slot(a, b) == s
  {
    if s == 0 {
    } else if s == 1 {
    } else if s == 2 {
    } else if s == 3 {
    } else if s == 4 {
    } else if s == 5 {
    } else if s == 6 {
    } else if s == 7 {
    } else {
    }
  }

  /** Everything in the chart is in the table. */
  lemma ChartInTable(a: int, b: int)
    requires IsNumber(a) && IsNumber(b) && a != b
    ensures Slot(a, b) < 9 && BaseMeets(Slot(a, b), a, b)
  {
    if a == 1 {
    } else if a == 2 {
    } else if a == 3 {
    } else if a == 4 {
    } else if a == 5 {
    } else if a == 6 {
    } else if a == 7 {
    } else if a == 8 {
    } else if a == 9 {
    } else {
    }
  }

  lemma OneWayRound(a: int, b: int, s: nat)
    requires s < 9 && BaseHosts(s, a, b) && a != b
    ensures !BaseHosts(s, b, a)
  {
  }

  lemma PairsMeetOnce(a: int, b: int, s: nat)
    requires IsNumber(a) && IsNumber(b) && a != b && s < 9
    ensures BaseMeets(s, a, b) <==> s == Slot(a, b)
    ensures !(BaseHosts(s, a, b) && BaseHosts(s, b, a))
  {
    ChartInTable(a, b);
    if BaseMeets(s, a, b) { TableInChart(a, b, s); }
    if BaseHosts(s, a, b) { OneWayRound(a, b, s); }
  }

  lemma CycleHosts(c: nat, a: int, b: int)
    requires c < 18
    ensures Hosts(CycleRound(c), a, b) <==> if c < 9 then BaseHosts(c, a, b) else BaseHosts(c - 9, b, a)
  {
    var r := CycleRound(c);
    if Hosts(r, a, b) {
      var i :| 0 <= i < 5 && r[i] == Pairing(a, b);
      assert i == 0 || i == 1 || i == 2 || i == 3 || i == 4;
    }
  }

  // ----- A whole season -----

  /** How many rounds have `a` at home to `b`. */
  function HomeGames(rounds: seq<Round>, a: int, b: int): nat {
    if rounds == [] then 0
    else HomeGames(rounds[..|rounds| - 1], a, b) + (if Hosts(rounds[|rounds| - 1], a, b) then 1 else 0)
  }

  function Meetings(rounds: seq<Round>, a: int, b: int): nat {
    HomeGames(rounds, a, b) + HomeGames(rounds, b, a)
  }

  /** How many of the first `n` positions of a repeating cycle are its position `c`. */
  function Occurrences(n: nat, c: nat): nat {
    if n <= c then 0 else (n - c - 1) / 18 + 1
  }

  lemma OccurrencesStep(n: nat, c: nat)
    requires c < 18
    ensures Occurrences(n + 1, c) == Occurrences(n, c) + (if n % 18 == c then 1 else 0)
  {
    if n >= c {
      var q, r := n / 18, n % 18;
      assert n == 18 * q + r;
      if r >= c { assert n - c == 18 * q + (r - c); } else { assert n - c == 18 * (q - 1) + (r + 18 - c); }
    }
  }

  /** The cycle position at which `a` is at home to `b`. */
  function HomePosition(a: int, b: int): nat {
    if BaseHosts(Slot(a, b), a, b) then Slot(a, b) else Slot(a, b) + 9
  }

  lemma HostsAtItsPosition(c: nat, a: int, b: int)
    requires c < 18 && IsNumber(a) && IsNumber(b) && a != b
    ensures Hosts(CycleRound(c), a, b) <==> c == HomePosition(a, b)
  {
    var s := if c < 9 then c else c - 9;
    CycleHosts(c, a, b);
    PairsMeetOnce(a, b, s);
    PairsMeetOnce(a, b, Slot(a, b));
    ChartInTable(a, b);
  }

  lemma {:induction false} SeasonHomeGames(n: nat, a: int, b: int)
    requires IsNumber(a) && IsNumber(b) && a != b
    ensures HomeGames(seq(n, i requires 0 <= i < n => CycleRound(i % 18)), a, b) == Occurrences(n, HomePosition(a, b))
  {
    if n > 0 {
      var k := n - 1;
      ChartInTable(a, b);
      SeasonHomeGames(k, a, b);
      OccurrencesStep(k, HomePosition(a, b));
      HostsAtItsPosition(k % 18, a, b);
      assert seq(n, i requires 0 <= i < n => CycleRound(i % 18))[..k] == seq(k, i requires 0 <= i < k => CycleRound(i % 18));
    }
  }

  lemma OppositePositions(a: int, b: int)
    requires IsNumber(a) && IsNumber(b) && a != b
    ensures HomePosition(a, b) < 18
    ensures HomePosition(b, a) == HomePosition(a, b) + 9 || HomePosition(a, b) == HomePosition(b, a) + 9
  {
    ChartInTable(a, b);
    ChartInTable(b, a);
    PairsMeetOnce(a, b, Slot(b, a));
    PairsMeetOnce(a, b, Slot(a, b));
  }

  lemma HalfCycles(n: nat, c: nat)
    requires c < 9
    ensures n / 9 <= Occurrences(n, c) + Occurrences(n, c + 9) <= (n + 8) / 9
    ensures 0 <= Occurrences(n, c) - Occurrences(n, c + 9) <= 1
  {
  }

  /** For every season length: each round is a perfect matching, every two numbers meet either the rounded-down
      or the rounded-up ninth of the rounds, and home and away differ by at most one. */
  lemma RotationIsBalanced(roundCount: int, a: int, b: int)
    requires roundCount >= 1 && IsNumber(a) && IsNumber(b) && a != b
    ensures var rounds := Rotation(roundCount).value;
            && |rounds| == roundCount
            && (forall k :: 0 <= k < roundCount ==> PerfectMatching(rounds[k]))
            && roundCount / 9 <= Meetings(rounds, a, b) <= (roundCount + 8) / 9
            && -1 <= HomeGames(rounds, a, b) - HomeGames(rounds, b, a) <= 1
  {
    var rounds := Rotation(roundCount).value;
    forall k | 0 <= k < roundCount ensures PerfectMatching(rounds[k]) { CycleRoundsMatch(k % 18); }
    SeasonHomeGames(roundCount, a, b);
    SeasonHomeGames(roundCount, b, a);
    OppositePositions(a, b);
    OppositePositions(b, a);
    HalfCycles(roundCount, if HomePosition(a, b) < 9 then HomePosition(a, b) else HomePosition(b, a));
  }
}
