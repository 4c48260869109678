/** Counting the eliminated: the tables never lose or double an entry. */
module FinalsConservation {
  import opened Options
  import opened FinalsTables
  import opened FinalsInvariant
  import opened FinalsCorrection
  import opened FinalsTheorems

  /** Entries named by an active elimination row. */
  ghost function ActiveEliminated(s: State): set<Entry> {
    set i | 0 <= i < |s.eliminations| && s.eliminations[i].active :: s.eliminations[i].entry
  }

  ghost function SeqSet(es: seq<Entry>): set<Entry> {
    set i | 0 <= i < |es| :: es[i]
  }

  lemma {:induction false} DistinctCount(es: seq<Entry>)
    requires Distinct(es)
    ensures |SeqSet(es)| == |es|
  {
    if es != [] {
      var n := |es| - 1;
      DistinctCount(es[..n]);
      assert SeqSet(es) == SeqSet(es[..n]) + {es[n]};
    }
  }

  lemma DecideSplits(seeds: seq<Entry>, scores: map<Slot, Score>, slot: Slot, home: Entry, away: Entry)
    ensures Splits(Decide(seeds, scores, slot, home, away), home, away)
  {
  }

  /** The entries a bracket eliminates, the bottom five first. */
  function Outs(seeds: seq<Entry>, b: Bracket, weeks: nat): seq<Entry>
    requires |seeds| == 10 && weeks <= |b.out|
  {
    seeds[5..] + b.out[..weeks]
  }

  /** The entries that still play, once `weeks` weeks have been advanced. */
  ghost function Alive(seeds: seq<Entry>, scores: map<Slot, Score>, weeks: nat): set<Entry>
    requires |seeds| == 10
  {
    var b := Rebuild(seeds, scores);
    if weeks == 0 then {seeds[0], seeds[1], seeds[2], seeds[3], seeds[4]}
    else if weeks == 1 then {b.meets[SecondSemi].0, b.meets[SecondSemi].1, b.meets[FirstSemi].0, b.meets[FirstSemi].1}
    else if weeks == 2 then {b.meets[GrandFinal].0, b.meets[Preliminary].0, b.meets[Preliminary].1}
    else {b.meets[GrandFinal].0, b.meets[GrandFinal].1}
  }

  predicate AllDiffer(a: Entry, b: Entry, c: Entry, d: Entry, e: Entry) {
    a != b && a != c && a != d && a != e && b != c && b != d && b != e && c != d && c != e && d != e
  }

  /** Deciding two matches among five entries only reorders them. */
  lemma TwoMatches(a: Entry, b: Entry, c: Entry, d: Entry, e: Entry, bc: (Entry, Entry), de: (Entry, Entry))
    requires AllDiffer(a, b, c, d, e)
    requires bc == (b, c) || bc == (c, b)
    requires de == (d, e) || de == (e, d)
    ensures AllDiffer(a, bc.0, bc.1, de.0, de.1) && {a, b, c, d, e} == {a, bc.0, bc.1, de.0, de.1}
  {
  }

  predicate Splits(p: (Entry, Entry), home: Entry, away: Entry) {
    p == (home, away) || p == (away, home)
  }

  /** Five matches among five entries, each decided one way or the other, leave five places for five entries. */
  lemma Knockout(a: Entry, b: Entry, c: Entry, d: Entry, e: Entry,
                 q: (Entry, Entry), k: (Entry, Entry), ss: (Entry, Entry), fs: (Entry, Entry), p: (Entry, Entry))
    requires AllDiffer(a, b, c, d, e)
    requires Splits(q, b, c) && Splits(k, d, e) && Splits(ss, a, q.0) && Splits(fs, q.1, k.0) && Splits(p, ss.1, fs.0)
    ensures AllDiffer(ss.0, p.0, p.1, fs.1, k.1)
    ensures {a, b, c, d, e} == {ss.0, p.0, p.1, fs.1, k.1}
    ensures {a, q.0, q.1, k.0} == {ss.0, p.0, p.1, fs.1} && {ss.0, ss.1, fs.0} == {ss.0, p.0, p.1}
  {
    TwoMatches(a, b, c, d, e, q, k);
    TwoMatches(k.1, a, q.0, q.1, k.0, ss, fs);
    TwoMatches(fs.1, ss.1, fs.0, ss.0, k.1, p, (ss.0, k.1));
    assert {a, q.0, q.1, k.0} == {ss.0, ss.1, fs.0, fs.1};
  }

  /** The five who play on: everyone keeps exactly one place, in a match still to come or among the eliminated. */
  lemma RebuildSplits(seeds: seq<Entry>, scores: map<Slot, Score>)
    requires |seeds| == 10 && Distinct(seeds)
    ensures var b := Rebuild(seeds, scores);
            var (gh, ga) := b.meets[GrandFinal];
            && AllDiffer(gh, ga, b.out[2], b.out[1], b.out[0])
            && {seeds[0], seeds[1], seeds[2], seeds[3], seeds[4]} == {gh, ga, b.out[2], b.out[1], b.out[0]}
            && Alive(seeds, scores, 1) == {gh, ga, b.out[2], b.out[1]}
            && Alive(seeds, scores, 2) == {gh, ga, b.out[2]}
            && Alive(seeds, scores, 3) == {gh, ga}
  {
    var b := Rebuild(seeds, scores);
    var q := Decide(seeds, scores, QualifyingFinal, seeds[1], seeds[2]);
    var e := Decide(seeds, scores, EliminationFinal, seeds[3], seeds[4]);
    var ss := Decide(seeds, scores, SecondSemi, seeds[0], q.0);
    var fs := Decide(seeds, scores, FirstSemi, q.1, e.0);
    var p := Decide(seeds, scores, Preliminary, ss.1, fs.0);
    DecideSplits(seeds, scores, QualifyingFinal, seeds[1], seeds[2]);
    DecideSplits(seeds, scores, EliminationFinal, seeds[3], seeds[4]);
    DecideSplits(seeds, scores, SecondSemi, seeds[0], q.0);
    DecideSplits(seeds, scores, FirstSemi, q.1, e.0);
    DecideSplits(seeds, scores, Preliminary, ss.1, fs.0);
    Knockout(seeds[0], seeds[1], seeds[2], seeds[3], seeds[4], q, e, ss, fs, p);
  }

  // ----- The elimination table -----

  lemma EliminatedAre(s: State, b: Bracket)
    requires |s.seeds| == 10 && EliminationsOk(s.seeds, s.eliminations) && |b.out| == 3
    requires Eliminates(s, 1, b.out[0]) && Eliminates(s, 2, b.out[1]) && Eliminates(s, 3, b.out[2])
    ensures ActiveEliminated(s) == SeqSet(Outs(s.seeds, b, WeeksAdvanced(s)))
  {
    var outs := Outs(s.seeds, b, WeeksAdvanced(s));
    forall i | 0 <= i < |s.eliminations| && s.eliminations[i].active
      ensures s.eliminations[i].entry in SeqSet(outs)
    {
      ActiveIsOut(s, b, i);
    }
    forall k | 0 <= k < |outs| ensures outs[k] in ActiveEliminated(s) {
      if k < 5 {
        assert s.eliminations[k].entry == outs[k];
      } else {
        var i := FindElimination(s.eliminations, StageAfter(k - 4)).value;
        assert outs[k] == b.out[k - 5];
        assert s.eliminations[i].entry == b.out[k - 5];
      }
    }
  }

  /** An active elimination sits at the place in `Outs` its stage gives. */
  lemma ActiveIsOut(s: State, b: Bracket, i: nat)
    requires |s.seeds| == 10 && EliminationsOk(s.seeds, s.eliminations) && |b.out| == 3
    requires Eliminates(s, 1, b.out[0]) && Eliminates(s, 2, b.out[1]) && Eliminates(s, 3, b.out[2])
    requires i < |s.eliminations| && s.eliminations[i].active
    ensures OutPlace(s, i) < |Outs(s.seeds, b, WeeksAdvanced(s))|
    ensures Outs(s.seeds, b, WeeksAdvanced(s))[OutPlace(s, i)] == s.eliminations[i].entry
  {
    if i >= 5 {
      var stage := s.eliminations[i].stage;
      var j := FindElimination(s.eliminations, stage);
      assert j.Some?;
      assert j == Some(i);
      assert stage == StageAfter(OutPlace(s, i) - 4);
    }
  }

  function OutPlace(s: State, i: nat): nat
    requires i < |s.eliminations|
  {
    if i < 5 then i
    else match s.eliminations[i].stage
      case PreFinals => 4
      case Week1EliminationFinal => 5
      case Week2FirstSemiFinal => 6
      case Week3PreliminaryFinal => 7
  }

  lemma OutsDistinct(seeds: seq<Entry>, scores: map<Slot, Score>, weeks: nat)
    requires |seeds| == 10 && Distinct(seeds) && weeks <= 3
    ensures |Rebuild(seeds, scores).out| == 3
    ensures Distinct(Outs(seeds, Rebuild(seeds, scores), weeks))
  {
    RebuildSplits(seeds, scores);
    var b := Rebuild(seeds, scores);
    OutsDistinctFrom(seeds, b, weeks);
  }

  lemma OutsDistinctFrom(seeds: seq<Entry>, b: Bracket, weeks: nat)
    requires |seeds| == 10 && Distinct(seeds) && weeks <= |b.out| == 3
    requires b.out[0] != b.out[1] && b.out[0] != b.out[2] && b.out[1] != b.out[2]
    requires forall i :: 0 <= i < 3 ==> b.out[i] in {seeds[0], seeds[1], seeds[2], seeds[3], seeds[4]}
    ensures Distinct(Outs(seeds, b, weeks))
  {
    var outs := Outs(seeds, b, weeks);
    forall i, j | 0 <= i < j < |outs| ensures outs[i] != outs[j] {
      if j >= 5 {
        assert outs[j] == b.out[j - 5];
        if i < 5 { assert outs[i] == seeds[5 + i]; } else { assert outs[i] == b.out[i - 5]; }
      }
    }
  }

  lemma AliveInSeeds(seeds: seq<Entry>, b: Bracket, weeks: nat, e: Entry)
    requires |seeds| == 10 && Distinct(seeds) && weeks <= |b.out| == 3
    requires var (gh, ga) := (if GrandFinal in b.meets then b.meets[GrandFinal] else (0, 0));
             && AllDiffer(gh, ga, b.out[2], b.out[1], b.out[0])
             && {seeds[0], seeds[1], seeds[2], seeds[3], seeds[4]} == {gh, ga, b.out[2], b.out[1], b.out[0]}
             && e in ({gh, ga} + (if weeks < 3 then {b.out[2]} else {}) + (if weeks < 2 then {b.out[1]} else {})
                      + (if weeks < 1 then {b.out[0]} else {}))
    ensures e in seeds && e !in SeqSet(Outs(seeds, b, weeks))
  {
    assert e in {seeds[0], seeds[1], seeds[2], seeds[3], seeds[4]};
    var outs := Outs(seeds, b, weeks);
    forall k | 0 <= k < |outs| ensures outs[k] != e {
      if k < 5 { assert outs[k] == seeds[5 + k]; } else { assert outs[k] == b.out[k - 5]; }
    }
  }

  lemma SeedAliveOrOut(seeds: seq<Entry>, b: Bracket, weeks: nat, e: Entry)
    requires |seeds| == 10 && weeks <= |b.out| == 3 && e in seeds && e !in SeqSet(Outs(seeds, b, weeks))
    requires var (gh, ga) := (if GrandFinal in b.meets then b.meets[GrandFinal] else (0, 0));
             {seeds[0], seeds[1], seeds[2], seeds[3], seeds[4]} == {gh, ga, b.out[2], b.out[1], b.out[0]}
    ensures var (gh, ga) := (if GrandFinal in b.meets then b.meets[GrandFinal] else (0, 0));
            e in ({gh, ga} + (if weeks < 3 then {b.out[2]} else {}) + (if weeks < 2 then {b.out[1]} else {})
                  + (if weeks < 1 then {b.out[0]} else {}))
  {
    var outs := Outs(seeds, b, weeks);
    var i :| 0 <= i < 10 && seeds[i] == e;
    var k := if i >= 5 then i - 5 else 0;
    assert outs[k] == seeds[5 + k] && outs[k] in SeqSet(outs);
    assert e in {seeds[0], seeds[1], seeds[2], seeds[3], seeds[4]};
    if weeks > 0 { assert outs[5] == b.out[0]; }
    if weeks > 1 { assert outs[6] == b.out[1]; }
    if weeks > 2 { assert outs[7] == b.out[2]; }
  }

  /** Those still alive are the seeds that are not out. */
  lemma AliveAreTheRest(seeds: seq<Entry>, scores: map<Slot, Score>, weeks: nat)
    requires |seeds| == 10 && Distinct(seeds) && weeks <= 3
    ensures Alive(seeds, scores, weeks) == SeqSet(seeds) - SeqSet(Outs(seeds, Rebuild(seeds, scores), weeks))
  {
    RebuildSplits(seeds, scores);
    var b := Rebuild(seeds, scores);
    var alive := Alive(seeds, scores, weeks);
    forall e ensures e in alive <==> e in SeqSet(seeds) && e !in SeqSet(Outs(seeds, b, weeks)) {
      if e in alive { AliveInSeeds(seeds, b, weeks, e); }
      if e in SeqSet(seeds) && e !in SeqSet(Outs(seeds, b, weeks)) { SeedAliveOrOut(seeds, b, weeks, e); }
    }
  }

  // ----- Over runs -----

  /** No entry is actively eliminated twice: the table's unique index never fires. */
  ghost predicate NoDoubleElimination(s: State) {
    forall i, j :: 0 <= i < j < |s.eliminations| && s.eliminations[i].active && s.eliminations[j].active ==>
      s.eliminations[i].entry != s.eliminations[j].entry
  }

  /**
   With w weeks advanced exactly 5 + w entries are out, nobody twice; the rest
   are those the bracket still plays; and two different survivors make the
   Grand Final.
   */
  lemma Conservation(s: State)
    requires Inv(s)
    ensures |ActiveEliminated(s)| == 5 + WeeksAdvanced(s)
    ensures NoDoubleElimination(s)
    ensures SeqSet(s.seeds) - ActiveEliminated(s) == Alive(s.seeds, CurrentScores(s), WeeksAdvanced(s))
    ensures var i := FindActive(s.pairings, GrandFinal);
            i.Some? ==> s.pairings[i.value].away.Some? && s.pairings[i.value].home != s.pairings[i.value].away.value
                        && SeqSet(s.seeds) - ActiveEliminated(s) == {s.pairings[i.value].home, s.pairings[i.value].away.value}
  {
    var b := Rebuild(s.seeds, CurrentScores(s));
    var w := WeeksAdvanced(s);
    IncrementalIsRecomputed(s);
    OutsDistinct(s.seeds, CurrentScores(s), w);
    EliminatedAre(s, b);
    DistinctCount(Outs(s.seeds, b, w));
    AliveAreTheRest(s.seeds, CurrentScores(s), w);
    OnceEach(s, b);
    GrandFinalists(s, b);
  }

  lemma OnceEach(s: State, b: Bracket)
    requires |s.seeds| == 10 && EliminationsOk(s.seeds, s.eliminations) && |b.out| == 3
    requires Eliminates(s, 1, b.out[0]) && Eliminates(s, 2, b.out[1]) && Eliminates(s, 3, b.out[2])
    requires Distinct(Outs(s.seeds, b, WeeksAdvanced(s)))
    ensures NoDoubleElimination(s)
  {
    forall i, j | 0 <= i < j < |s.eliminations| && s.eliminations[i].active && s.eliminations[j].active
      ensures s.eliminations[i].entry != s.eliminations[j].entry
    {
      ActiveIsOut(s, b, i);
      ActiveIsOut(s, b, j);
      assert OutPlace(s, i) != OutPlace(s, j);
    }
  }

  lemma GrandFinalists(s: State, b: Bracket)
    requires |s.seeds| == 10 && Distinct(s.seeds) && b == Rebuild(s.seeds, CurrentScores(s)) && Pairs(s, GrandFinal, b.meets[GrandFinal])
    ensures var i := FindActive(s.pairings, GrandFinal);
            i.Some? ==> s.pairings[i.value].away.Some? && s.pairings[i.value].home != s.pairings[i.value].away.value
                        && Alive(s.seeds, CurrentScores(s), WeeksAdvanced(s)) == {s.pairings[i.value].home, s.pairings[i.value].away.value}
  {
    RebuildSplits(s.seeds, CurrentScores(s));
  }
}
