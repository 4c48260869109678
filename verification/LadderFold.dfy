/** The ladder's counters: a fold over official results that ignores their order. */
module LadderFold {
  type Id = int

  datatype Match = Match(round: int, matchup: nat, version: nat, home: Id, away: Id, homeScore: real, awayScore: real)

  datatype Stats = Stats(played: int, wins: int, draws: int, losses: int, pf: real, pa: real, points: int)

  const ZERO := Stats(0, 0, 0, 0, 0.0, 0.0, 0)

  function Plus(a: Stats, b: Stats): Stats {
    Stats(a.played + b.played, a.wins + b.wins, a.draws + b.draws, a.losses + b.losses,
          a.pf + b.pf, a.pa + b.pa, a.points + b.points)
  }

  lemma PlusLaws(a: Stats, b: Stats, c: Stats)
    ensures Plus(Plus(a, b), c) == Plus(a, Plus(b, c)) == Plus(Plus(a, c), b)
    ensures Plus(a, ZERO) == a == Plus(ZERO, a)
  {
  }

  /** One side's game: four points for a win, two for a draw. */
  function SideStats(own: real, other: real): Stats {
    if own > other then Stats(1, 1, 0, 0, own, other, 4)
    else if own < other then Stats(1, 0, 0, 1, own, other, 0)
    else Stats(1, 0, 1, 0, own, other, 2)
  }

  function Counted(b: bool, s: Stats): Stats {
    if b then s else ZERO
  }

  /** What two sides' lines give one entry. */
  function Given(home: Id, homeLine: Stats, away: Id, awayLine: Stats, e: Id): Stats {
    Plus(Counted(home == e, homeLine), Counted(away == e, awayLine))
  }

  /** A match counts for its two sides only. */
  function Share(m: Match, e: Id): Stats {
    if e == m.home || e == m.away then
      Given(m.home, SideStats(m.homeScore, m.awayScore), m.away, SideStats(m.awayScore, m.homeScore), e)
    else
      ZERO
  }

  lemma ShareIs(m: Match, e: Id)
    ensures Share(m, e) == Given(m.home, SideStats(m.homeScore, m.awayScore), m.away, SideStats(m.awayScore, m.homeScore), e)
  {
    PlusLaws(ZERO, ZERO, ZERO);
  }

  function Line(matches: seq<Match>, e: Id): Stats {
    if matches == [] then ZERO
    else Plus(Line(matches[..|matches| - 1], e), Share(matches[|matches| - 1], e))
  }

  lemma LineSnoc(a: seq<Match>, m: Match, e: Id)
    ensures Line(a + [m], e) == Plus(Line(a, e), Share(m, e))
  {
    assert (a + [m])[..|a + [m]| - 1] == a;
  }

  /** A result counts the same wherever it stands. */
  lemma {:induction false} LineMiddle(a: seq<Match>, m: Match, b: seq<Match>, e: Id)
    ensures Line(a + [m] + b, e) == Plus(Line(a + b, e), Share(m, e))
  {
    if b == [] {
      assert a + [m] + b == a + [m] && a + b == a;
      LineSnoc(a, m, e);
    } else {
      var n := |b| - 1;
      assert a + [m] + b == (a + [m] + b[..n]) + [b[n]];
      assert a + b == (a + b[..n]) + [b[n]];
      LineSnoc(a + [m] + b[..n], b[n], e);
      LineSnoc(a + b[..n], b[n], e);
      LineMiddle(a, m, b[..n], e);
      PlusLaws(Line(a + b[..n], e), Share(m, e), Share(b[n], e));
    }
  }

  /** The order of the results cannot change an entry's line. */
  lemma {:induction false} LinePermutes(a: seq<Match>, b: seq<Match>, e: Id)
    requires multiset(a) == multiset(b)
    ensures Line(a, e) == Line(b, e)
    decreases |a|
  {
    assert |multiset(a)| == |multiset(b)|;
    if a != [] {
      var n := |a| - 1;
      assert a == a[..n] + [a[n]];
      assert a[n] in multiset(b);
      var i :| 0 <= i < |b| && b[i] == a[n];
      var rest := b[..i] + b[i + 1..];
      assert b == b[..i] + [b[i]] + b[i + 1..];
      assert multiset(a[..n]) == multiset(a) - multiset{a[n]};
      assert multiset(rest) == multiset(b) - multiset{b[i]};
      LinePermutes(a[..n], rest, e);
      LineMiddle(b[..i], b[i], b[i + 1..], e);
      LineSnoc(a[..n], a[n], e);
    }
  }

  // ----- What a line counts -----

  function Took(m: Match, e: Id): real {
    (if m.home == e then m.homeScore else 0.0) + (if m.away == e then m.awayScore else 0.0)
  }

  function Gave(m: Match, e: Id): real {
    (if m.home == e then m.awayScore else 0.0) + (if m.away == e then m.homeScore else 0.0)
  }

  predicate Beat(m: Match, e: Id) {
    (m.home == e && m.homeScore > m.awayScore) || (m.away == e && m.awayScore > m.homeScore)
  }

  predicate Drew(m: Match, e: Id) {
    (m.home == e || m.away == e) && m.homeScore == m.awayScore
  }

  predicate LostTo(m: Match, e: Id) {
    (m.home == e && m.homeScore < m.awayScore) || (m.away == e && m.awayScore < m.homeScore)
  }

  function One(b: bool): int { if b then 1 else 0 }

  /** One match, read off its score line. */
  lemma ShareMeans(m: Match, e: Id)
    requires m.home != m.away
    ensures Share(m, e) == Stats(One(m.home == e || m.away == e), One(Beat(m, e)), One(Drew(m, e)), One(LostTo(m, e)),
                                 Took(m, e), Gave(m, e), 4 * One(Beat(m, e)) + 2 * One(Drew(m, e)))
  {
  }

  function Beats(e: Id): Match -> bool { (m: Match) => Beat(m, e) }

  function Draws(e: Id): Match -> bool { (m: Match) => Drew(m, e) }

  function Loses(e: Id): Match -> bool { (m: Match) => LostTo(m, e) }

  function Where(matches: seq<Match>, p: Match -> bool): set<int> {
    set i | 0 <= i < |matches| && p(matches[i])
  }

  lemma WhereOneMore(matches: seq<Match>, p: Match -> bool)
    requires matches != []
    ensures var n := |matches| - 1; |Where(matches, p)| == |Where(matches[..n], p)| + One(p(matches[n]))
  {
    var n := |matches| - 1;
    var few := Where(matches[..n], p);
    assert Where(matches, p) == if p(matches[n]) then few + {n} else few;
  }

  /** Wins, draws and losses are the matches the entry beat, drew with or lost to its opponent in. */
  lemma {:induction false} LineCountsMatches(matches: seq<Match>, e: Id)
    requires forall i :: 0 <= i < |matches| ==> matches[i].home != matches[i].away
    ensures Line(matches, e).wins == |Where(matches, Beats(e))|
    ensures Line(matches, e).draws == |Where(matches, Draws(e))|
    ensures Line(matches, e).losses == |Where(matches, Loses(e))|
  {
    if matches == [] {
      assert Where(matches, Beats(e)) == {} && Where(matches, Draws(e)) == {} && Where(matches, Loses(e)) == {};
    } else {
      var n := |matches| - 1;
      LineCountsMatches(matches[..n], e);
      OutcomeCounts(Line(matches[..n], e), matches[n], e);
      WhereOneMore(matches, Beats(e));
      WhereOneMore(matches, Draws(e));
      WhereOneMore(matches, Loses(e));
    }
  }

  lemma OutcomeCounts(line: Stats, m: Match, e: Id)
    requires m.home != m.away
    ensures var next := Plus(line, Share(m, e));
            && next.wins == line.wins + One(Beats(e)(m))
            && next.draws == line.draws + One(Draws(e)(m))
            && next.losses == line.losses + One(Loses(e)(m))
  {
    ShareMeans(m, e);
  }

  function Summed(matches: seq<Match>, score: Match -> real): real {
    if matches == [] then 0.0 else Summed(matches[..|matches| - 1], score) + score(matches[|matches| - 1])
  }

  function Takes(e: Id): Match -> real { (m: Match) => Took(m, e) }

  function Gives(e: Id): Match -> real { (m: Match) => Gave(m, e) }

  /** Points for and against are the entry's own and its opponents' scores, summed. */
  lemma {:induction false} LineSumsScores(matches: seq<Match>, e: Id)
    requires forall i :: 0 <= i < |matches| ==> matches[i].home != matches[i].away
    ensures Line(matches, e).pf == Summed(matches, Takes(e)) && Line(matches, e).pa == Summed(matches, Gives(e))
  {
    if matches != [] {
      var n := |matches| - 1;
      LineSumsScores(matches[..n], e);
      ScoreAdds(Line(matches[..n], e), matches[n], e);
    }
  }

  lemma ScoreAdds(line: Stats, m: Match, e: Id)
    requires m.home != m.away
    ensures Plus(line, Share(m, e)).pf == line.pf + Takes(e)(m) && Plus(line, Share(m, e)).pa == line.pa + Gives(e)(m)
  {
    ShareMeans(m, e);
  }

  // ----- Within one line -----

  predicate AddsUp(l: Stats) {
    l.played == l.wins + l.draws + l.losses && l.points == 4 * l.wins + 2 * l.draws
  }

  lemma PlusAddsUp(a: Stats, b: Stats)
    requires AddsUp(a) && AddsUp(b)
    ensures AddsUp(Plus(a, b))
  {
  }

  lemma ShareAddsUp(m: Match, e: Id)
    ensures AddsUp(Share(m, e))
  {
  }

  /** Every game is won, drawn or lost, and the points follow. */
  lemma {:induction false} LineAddsUp(matches: seq<Match>, e: Id)
    ensures AddsUp(Line(matches, e))
  {
    if matches != [] {
      var n := |matches| - 1;
      LineAddsUp(matches[..n], e);
      ShareAddsUp(matches[n], e);
      PlusAddsUp(Line(matches[..n], e), Share(matches[n], e));
    }
  }

  // ----- Across the ladder -----

  function Total(matches: seq<Match>, entries: seq<Id>): Stats {
    if entries == [] then ZERO
    else Plus(Total(matches, entries[..|entries| - 1]), Line(matches, entries[|entries| - 1]))
  }

  function Shared(home: Id, homeLine: Stats, away: Id, awayLine: Stats, entries: seq<Id>): Stats {
    if entries == [] then ZERO
    else Plus(Shared(home, homeLine, away, awayLine, entries[..|entries| - 1]),
              Given(home, homeLine, away, awayLine, entries[|entries| - 1]))
  }

  function MatchShared(m: Match, entries: seq<Id>): Stats {
    Shared(m.home, SideStats(m.homeScore, m.awayScore), m.away, SideStats(m.awayScore, m.homeScore), entries)
  }

  lemma PlusSwap(a: Stats, b: Stats, c: Stats, d: Stats)
    ensures Plus(Plus(a, b), Plus(c, d)) == Plus(Plus(a, c), Plus(b, d))
  {
  }

  lemma {:induction false} TotalSnoc(matches: seq<Match>, m: Match, entries: seq<Id>)
    ensures Total(matches + [m], entries) == Plus(Total(matches, entries), MatchShared(m, entries))
  {
    if entries == [] {
      PlusLaws(ZERO, ZERO, ZERO);
    } else {
      var n := |entries| - 1;
      TotalSnoc(matches, m, entries[..n]);
      LineSnoc(matches, m, entries[n]);
      ShareIs(m, entries[n]);
      MatchSharedSnoc(m, entries);
      PlusSwap(Total(matches, entries[..n]), MatchShared(m, entries[..n]), Line(matches, entries[n]), Share(m, entries[n]));
    }
  }

  lemma MatchSharedSnoc(m: Match, entries: seq<Id>)
    requires entries != []
    ensures var n := |entries| - 1; MatchShared(m, entries) == Plus(MatchShared(m, entries[..n]), Share(m, entries[n]))
  {
    ShareIs(m, entries[|entries| - 1]);
  }

  lemma PlusMeets(total: Stats, a: Stats, b: Stats, c: Stats, d: Stats, ac: Stats, bd: Stats)
    requires total == Plus(a, b) && ac == Plus(a, c) && bd == Plus(b, d)
    ensures Plus(total, Plus(c, d)) == Plus(ac, bd)
  {
  }

  lemma CountedStep(side: Id, front: seq<Id>, last: Id, s: Stats)
    requires last !in front
    ensures Plus(Counted(side in front, s), Counted(side == last, s)) == Counted(side in front + [last], s)
  {
    PlusLaws(s, ZERO, ZERO);
    PlusLaws(ZERO, ZERO, ZERO);
    assert side in front + [last] <==> side in front || side == last;
  }

  lemma LastIsNew(entries: seq<Id>)
    requires entries != [] && forall i, j :: 0 <= i < j < |entries| ==> entries[i] != entries[j]
    ensures var n := |entries| - 1; entries == entries[..n] + [entries[n]] && entries[n] !in entries[..n]
  {
  }

  /** Each side's line is handed out once. */
  lemma {:induction false} SharedIs(home: Id, homeLine: Stats, away: Id, awayLine: Stats, entries: seq<Id>)
    requires forall i, j :: 0 <= i < j < |entries| ==> entries[i] != entries[j]
    ensures Shared(home, homeLine, away, awayLine, entries)
         == Plus(Counted(home in entries, homeLine), Counted(away in entries, awayLine))
  {
    if entries == [] {
      PlusLaws(ZERO, ZERO, ZERO);
    } else {
      var n := |entries| - 1;
      var front, last := entries[..n], entries[n];
      LastIsNew(entries);
      SharedIs(home, homeLine, away, awayLine, front);
      CountedStep(home, front, last, homeLine);
      CountedStep(away, front, last, awayLine);
      PlusMeets(Shared(home, homeLine, away, awayLine, front), Counted(home in front, homeLine), Counted(away in front, awayLine),
                Counted(home == last, homeLine), Counted(away == last, awayLine),
                Counted(home in entries, homeLine), Counted(away in entries, awayLine));
    }
  }

  predicate Balanced(total: Stats, games: nat) {
    && total.pf == total.pa
    && total.wins == total.losses
    && total.points == 4 * games
    && total.played == 2 * games
  }

  lemma OneGameBalances(x: real, y: real)
    ensures Balanced(Plus(SideStats(x, y), SideStats(y, x)), 1)
  {
  }

  lemma PlusBalances(a: Stats, b: Stats, n: nat)
    requires Balanced(a, n) && Balanced(b, 1)
    ensures Balanced(Plus(a, b), n + 1)
  {
  }

  lemma {:induction false} NothingPlayed(entries: seq<Id>)
    ensures Total([], entries) == ZERO
  {
    if entries != [] {
      NothingPlayed(entries[..|entries| - 1]);
      PlusLaws(ZERO, ZERO, ZERO);
    }
  }

  /** Points for equal points against, and every match hands out two games and four competition points. */
  lemma {:induction false} LadderBalances(matches: seq<Match>, entries: seq<Id>)
    requires forall i, j :: 0 <= i < j < |entries| ==> entries[i] != entries[j]
    requires forall i :: 0 <= i < |matches| ==> matches[i].home in entries && matches[i].away in entries
    ensures Balanced(Total(matches, entries), |matches|)
  {
    if matches == [] {
      NothingPlayed(entries);
    } else {
      var n := |matches| - 1;
      var m := matches[n];
      LadderBalances(matches[..n], entries);
      assert matches == matches[..n] + [m];
      TotalSnoc(matches[..n], m, entries);
      SharedIs(m.home, SideStats(m.homeScore, m.awayScore), m.away, SideStats(m.awayScore, m.homeScore), entries);
      OneGameBalances(m.homeScore, m.awayScore);
      PlusBalances(Total(matches[..n], entries), MatchShared(m, entries), n);
    }
  }
}
