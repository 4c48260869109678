/** What the invariant means for a reader of the bracket. */
module FinalsTheorems {
  import opened Options
  import opened FinalsTables
  import opened FinalsInvariant
  import opened FinalsSteps
  import opened FinalsRewind
  import opened FinalsCorrection

  // ----- The bracket as a plain function of the seed order and the current results -----

  /** Of two entrants exactly one wins: the higher score, or on equal scores the one earlier in the frozen seed order. */
  lemma DecisionRule(seeds: seq<Entry>, home: Entry, away: Entry, score: Score)
    requires home in seeds && away in seeds && home != away
    ensures var (winner, loser) := WinnerLoser(seeds, home, away, score);
            && {winner, loser} == {home, away}
            && (winner == home && score.home != score.away <==> score.home > score.away)
            && (score.home == score.away ==> exists i, j :: 0 <= i < j < |seeds| && seeds[i] == winner && seeds[j] == loser)
  {
    assert seeds[Rank(seeds, home)] == home && seeds[Rank(seeds, away)] == away;
  }

  /** Who meets whom in every match, and who goes out after weeks one to three. */
  datatype Bracket = Bracket(meets: map<Slot, (Entry, Entry)>, out: seq<Entry>)

  function Decide(seeds: seq<Entry>, scores: map<Slot, Score>, slot: Slot, home: Entry, away: Entry): (Entry, Entry) {
    WinnerLoser(seeds, home, away, if slot in scores then scores[slot] else Score(0.0, 0.0))
  }

  function Rebuild(seeds: seq<Entry>, scores: map<Slot, Score>): Bracket
    requires |seeds| == 10
  {
    var (qw, ql) := Decide(seeds, scores, QualifyingFinal, seeds[1], seeds[2]);
    var (ew, el) := Decide(seeds, scores, EliminationFinal, seeds[3], seeds[4]);
    var (sw, sl) := Decide(seeds, scores, SecondSemi, seeds[0], qw);
    var (fw, fl) := Decide(seeds, scores, FirstSemi, ql, ew);
    var (pw, pl) := Decide(seeds, scores, Preliminary, sl, fw);
    Bracket(
      map[QualifyingFinal := (seeds[1], seeds[2]), EliminationFinal := (seeds[3], seeds[4]),
          SecondSemi := (seeds[0], qw), FirstSemi := (ql, ew), Preliminary := (sl, fw), GrandFinal := (sw, pw)],
      [el, fl, pl])
  }

  function CurrentScores(s: State): map<Slot, Score> {
    map slot: Slot | ContestAt(s, slot).Ok? :: ContestAt(s, slot).value.score
  }

  function WeeksAdvanced(s: State): nat {
    if Advanced(s, 3) then 3 else if Advanced(s, 2) then 2 else if Advanced(s, 1) then 1 else 0
  }

  /** A slot has an active pairing once its week has been advanced to, and it pairs just these two. */
  ghost predicate Pairs(s: State, slot: Slot, meet: (Entry, Entry)) {
    var i := FindActive(s.pairings, slot);
    && (i.Some? <==> WeekOf(slot) <= 1 + WeeksAdvanced(s))
    && (i.Some? ==> s.pairings[i.value].home == meet.0 && s.pairings[i.value].away == Some(meet.1))
  }

  ghost predicate Eliminates(s: State, week: int, entry: Entry) {
    var i := FindElimination(s.eliminations, StageAfter(week));
    && (i.Some? <==> week <= WeeksAdvanced(s))
    && (i.Some? ==> s.eliminations[i.value].entry == entry)
  }

  lemma AdvancedInOrder(s: State)
    requires Link(s, 1) && Link(s, 2) && Link(s, 3)
    ensures Advanced(s, 3) ==> Derivable(s, 3) && Advanced(s, 2)
    ensures Advanced(s, 2) ==> Derivable(s, 2) && Advanced(s, 1)
    ensures Advanced(s, 1) ==> Derivable(s, 1)
    ensures !Advanced(s, 1) ==> Underived(s, 1)
    ensures !Advanced(s, 2) ==> Underived(s, 2)
    ensures !Advanced(s, 3) ==> Underived(s, 3)
  {
    if Derivable(s, 1) { DerivableAdvanced(s, 1); }
    if Derivable(s, 2) { DerivableAdvanced(s, 2); }
    if Derivable(s, 3) { DerivableAdvanced(s, 3); }
  }

  ghost predicate RowPairs(s: State, slot: Slot, meet: (Entry, Entry)) {
    var i := FindActive(s.pairings, slot);
    i.Some? && s.pairings[i.value].home == meet.0 && s.pairings[i.value].away == Some(meet.1)
  }

  ghost predicate OutIs(s: State, week: int, entry: Entry) {
    var i := FindElimination(s.eliminations, StageAfter(week));
    i.Some? && s.eliminations[i.value].entry == entry
  }

  /** The contest of a slot is decided as the plain function decides the pair its row holds. */
  lemma DecidedAlike(s: State, slot: Slot, meet: (Entry, Entry))
    requires RowPairs(s, slot, meet) && ContestAt(s, slot).Ok?
    ensures var c := ContestAt(s, slot).value;
            (Winner(s, c), Loser(s, c)) == Decide(s.seeds, CurrentScores(s), slot, meet.0, meet.1)
  {
  }

  /** What a derivable week's rows hold, in terms of the two contests that feed it. */
  lemma DerivedPairs(s: State, week: int)
    requires 1 <= week <= 3 && Derivable(s, week)
    ensures ContestAt(s, SourceSlots(week).0).Ok? && ContestAt(s, SourceSlots(week).1).Ok? && |s.seeds| > 0
    ensures var a, b := ContestAt(s, SourceSlots(week).0).value, ContestAt(s, SourceSlots(week).1).value;
            && OutIs(s, week, Loser(s, b))
            && (week == 1 ==> RowPairs(s, SecondSemi, (s.seeds[0], Winner(s, a))) && RowPairs(s, FirstSemi, (Loser(s, a), Winner(s, b))))
            && (week == 2 ==> RowPairs(s, Preliminary, (Loser(s, a), Winner(s, b))))
            && (week == 3 ==> RowPairs(s, GrandFinal, (Winner(s, a), Winner(s, b))))
  {
    var d := Derive(s, week).value;
    assert RowMatches(s, d.pairings[0]);
    if week == 1 { assert RowMatches(s, d.pairings[1]); }
  }

  lemma WeekOnePairs(s: State)
    requires |s.seeds| == 10 && Base(s) && Derivable(s, 1)
    ensures var b := Rebuild(s.seeds, CurrentScores(s));
            RowPairs(s, SecondSemi, b.meets[SecondSemi]) && RowPairs(s, FirstSemi, b.meets[FirstSemi])
            && OutIs(s, 1, b.out[0])
  {
    DerivedPairs(s, 1);
    DecidedAlike(s, QualifyingFinal, (s.seeds[1], s.seeds[2]));
    DecidedAlike(s, EliminationFinal, (s.seeds[3], s.seeds[4]));
  }

  lemma WeekTwoPairs(s: State)
    requires |s.seeds| == 10 && Base(s) && Derivable(s, 1) && Derivable(s, 2)
    ensures var b := Rebuild(s.seeds, CurrentScores(s));
            RowPairs(s, Preliminary, b.meets[Preliminary]) && OutIs(s, 2, b.out[1])
  {
    var b := Rebuild(s.seeds, CurrentScores(s));
    WeekOnePairs(s);
    DerivedPairs(s, 2);
    DecidedAlike(s, SecondSemi, b.meets[SecondSemi]);
    DecidedAlike(s, FirstSemi, b.meets[FirstSemi]);
  }

  lemma WeekThreePairs(s: State)
    requires |s.seeds| == 10 && Base(s) && Derivable(s, 1) && Derivable(s, 2) && Derivable(s, 3)
    ensures var b := Rebuild(s.seeds, CurrentScores(s));
            RowPairs(s, GrandFinal, b.meets[GrandFinal]) && OutIs(s, 3, b.out[2])
  {
    var b := Rebuild(s.seeds, CurrentScores(s));
    WeekOnePairs(s);
    WeekTwoPairs(s);
    DerivedPairs(s, 3);
    DecidedAlike(s, SecondSemi, b.meets[SecondSemi]);
    DecidedAlike(s, Preliminary, b.meets[Preliminary]);
  }

  lemma RebuiltWeeks(s: State)
    requires |s.seeds| == 10 && Base(s)
    ensures var b := Rebuild(s.seeds, CurrentScores(s));
            && (Derivable(s, 1) ==> RowPairs(s, SecondSemi, b.meets[SecondSemi]) && RowPairs(s, FirstSemi, b.meets[FirstSemi])
                                    && OutIs(s, 1, b.out[0]))
            && (Derivable(s, 1) && Derivable(s, 2) ==> RowPairs(s, Preliminary, b.meets[Preliminary]) && OutIs(s, 2, b.out[1]))
            && (Derivable(s, 1) && Derivable(s, 2) && Derivable(s, 3) ==>
                  RowPairs(s, GrandFinal, b.meets[GrandFinal]) && OutIs(s, 3, b.out[2]))
  {
    if Derivable(s, 1) {
      WeekOnePairs(s);
      if Derivable(s, 2) {
        WeekTwoPairs(s);
        if Derivable(s, 3) { WeekThreePairs(s); }
      }
    }
  }

  lemma RebuildShape(seeds: seq<Entry>, scores: map<Slot, Score>)
    requires |seeds| == 10
    ensures var b := Rebuild(seeds, scores);
            && |b.out| == 3
            && b.meets.Keys == {QualifyingFinal, EliminationFinal, SecondSemi, FirstSemi, Preliminary, GrandFinal}
            && b.meets[QualifyingFinal] == (seeds[1], seeds[2]) && b.meets[EliminationFinal] == (seeds[3], seeds[4])
  {
  }

  /** The persisted bracket is exactly the one rebuilt from the frozen seeds and the results now in force. */
  lemma IncrementalIsRecomputed(s: State)
    requires Inv(s)
    ensures var b := Rebuild(s.seeds, CurrentScores(s));
            && (forall slot :: slot in b.meets ==> Pairs(s, slot, b.meets[slot]))
            && Eliminates(s, 1, b.out[0]) && Eliminates(s, 2, b.out[1]) && Eliminates(s, 3, b.out[2])
  {
    LinksRecomputed(s);
  }

  lemma LinksRecomputed(s: State)
    requires |s.seeds| == 10 && Base(s) && Link(s, 1) && Link(s, 2) && Link(s, 3)
    ensures var b := Rebuild(s.seeds, CurrentScores(s));
            && (forall slot :: slot in b.meets ==> Pairs(s, slot, b.meets[slot]))
            && Eliminates(s, 1, b.out[0]) && Eliminates(s, 2, b.out[1]) && Eliminates(s, 3, b.out[2])
  {
    AdvancedInOrder(s);
    RebuiltWeeks(s);
    RebuildShape(s.seeds, CurrentScores(s));
    RecomputedFrom(s, Rebuild(s.seeds, CurrentScores(s)));
  }

  lemma RecomputedFrom(s: State, b: Bracket)
    requires |s.seeds| == 10 && Base(s) && |b.out| == 3
    requires b.meets.Keys == {QualifyingFinal, EliminationFinal, SecondSemi, FirstSemi, Preliminary, GrandFinal}
    requires b.meets[QualifyingFinal] == (s.seeds[1], s.seeds[2]) && b.meets[EliminationFinal] == (s.seeds[3], s.seeds[4])
    requires Advanced(s, 3) ==> Advanced(s, 2)
    requires Advanced(s, 2) ==> Advanced(s, 1)
    requires if Advanced(s, 1) then RowPairs(s, SecondSemi, b.meets[SecondSemi]) && RowPairs(s, FirstSemi, b.meets[FirstSemi])
                                    && OutIs(s, 1, b.out[0])
             else Underived(s, 1)
    requires if Advanced(s, 2) then RowPairs(s, Preliminary, b.meets[Preliminary]) && OutIs(s, 2, b.out[1]) else Underived(s, 2)
    requires if Advanced(s, 3) then RowPairs(s, GrandFinal, b.meets[GrandFinal]) && OutIs(s, 3, b.out[2]) else Underived(s, 3)
    ensures forall slot :: slot in b.meets ==> Pairs(s, slot, b.meets[slot])
    ensures Eliminates(s, 1, b.out[0]) && Eliminates(s, 2, b.out[1]) && Eliminates(s, 3, b.out[2])
  {
    forall slot | slot in b.meets ensures Pairs(s, slot, b.meets[slot]) {
      if !Advanced(s, 1) && WeekOf(slot) == 2 { assert slot in TargetSlots(1); }
      if !Advanced(s, 2) && WeekOf(slot) == 3 { assert slot in TargetSlots(2); }
      if !Advanced(s, 3) && WeekOf(slot) == 4 { assert slot in TargetSlots(3); }
    }
  }

  /** ... in every state any run of transactions can reach. */
  lemma EveryRunIsRecomputed(seeds: seq<Entry>, steps: seq<Step>)
    requires CreateBracket(seeds).Ok?
    ensures var s := Run(CreateBracket(seeds).value, steps);
            var b := Rebuild(seeds, CurrentScores(s));
            && s.seeds == seeds
            && (forall slot :: slot in b.meets ==> Pairs(s, slot, b.meets[slot]))
            && Eliminates(s, 1, b.out[0]) && Eliminates(s, 2, b.out[1]) && Eliminates(s, 3, b.out[2])
  {
    var s0 := CreateBracket(seeds).value;
    CreatedKeeps(seeds);
    RunKeeps(s0, steps);
    RunSeeds(s0, steps);
    IncrementalIsRecomputed(Run(s0, steps));
  }

  lemma CorrectSeeds(s: State, m: nat, oldVersion: Option<nat>, signoff: Signoff)
    requires Correct(s, m, oldVersion, signoff).Ok?
    ensures Correct(s, m, oldVersion, signoff).value.seeds == s.seeds
  {
    CorrectShape(s, m, oldVersion, signoff);
    if s.matchups[m].week < 4 {
      var s1 := AppendResult(s, m, oldVersion.value + 1, signoff.score);
      var ids := SourceMatchups(s, s.matchups[m].week).value;
      RewindShape(s1, s.matchups[m].week, ObservedVersions(s1, ids));
      RewoundFrame(s1, Derive(s1, s.matchups[m].week).value);
    }
  }

  lemma StepSeeds(s: State, step: Step)
    ensures Apply(s, step).seeds == s.seeds
  {
    if Attempt(s, step).Ok? {
      match step
      case StepRewind(w, e) => RewindShape(s, w, e); RewoundFrame(s, Derive(s, w).value);
      case StepCorrect(m, v, x) => CorrectSeeds(s, m, v, x);
      case StepAdvance(w, e) => AdvanceShape(s, w, e);
      case _ =>
    }
  }

  lemma {:induction false} RunSeeds(s: State, steps: seq<Step>)
    ensures Run(s, steps).seeds == s.seeds
    decreases |steps|
  {
    if steps != [] {
      StepSeeds(s, steps[0]);
      RunSeeds(Apply(s, steps[0]), steps[1..]);
    }
  }
}
