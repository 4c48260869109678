# BBBFFL state machines, verified

BBBFFL is a fantasy-football league application. Its state is SQL rows; its hard
code is a handful of small transition systems over those rows. This project models
those systems in Dafny 4.11 and proves what they promise, for every input, every run
or every reachable state. `dafny verify dfyconfig.toml` checks all of it.

The tables a transaction reads and writes are the fields of a class, and a method of
that class is one `with transaction(...)` block, written with the loops the source
has. Beside each class stands a specification on values: a pure function per
transaction that yields the new tables or a refusal. Every method is proved equal to
its function (a refusal leaves every field as it was), and the properties are proved
of the functions and of arbitrary runs of them.

## Contents

- **Finals bracket with corrections** (`Finals*.dfy`). Ten frozen seeds, five
  finalists, four weeks derived from versioned results, corrections that reconcile
  only the next week. The bracket tables are shown to be a cache of a plain
  function, `Rebuild`, in every reachable state, although the Second Semi feeds two
  later weeks. `FinalsTables` holds the transactions, `FinalsInvariant` the
  invariant, `FinalsSteps`, `FinalsRewind` and `FinalsCorrection` its preservation,
  `FinalsTheorems`, `FinalsConservation`, `FinalsHistory`, `FinalsPolicy` and
  `FinalsAcceptance` the results, `FinalsUnreconciled` the correction that does not reconcile,
  `FinalsRepository` the class.
- **Lockout-trigger synchronisation** (`TriggerPlan`, `TriggerSync`, `TriggerRuns`,
  `SuperScoreRound`). The greedy multi-pass planner is sound and complete for the
  rules it checks, from any plan; the transaction converges, is idempotent and rolls
  back; and runs of all trigger writes keep one main trigger.
- **Ladder and tie rulings** (`Ordering`, `Ladder*.dfy`). Counters, ranks and tie
  groups are defined by what they mean and shown to ignore the order of results and
  the serialisation of identifiers; a ruling judged fresh was made on the very
  ladder it is applied to; the resolved order is unique, and whether there is one does
  not depend on identifiers either. `LadderResults` derives the results' history from
  the round lifecycle.
- **Draft ledger** (`Draft*.dfy`). Snake arithmetic for all sizes, the board
  invariant, agreement with player ownership, and finalisation.
- **Round lifecycle** (`Lifecycle*.dfy`). Append-only versions, an absorbing final
  state, and exact counting of compare-and-swap writers, from which lost updates are
  excluded.
- **Resilient client** (`Resilience`, `EvidenceBatches`, `ResilientClient`) and
  **fixtures** (`FixtureRotation`, `FixtureDraw`).

The `*Acceptance` files and `FinalsPolicy` say, for each operation, exactly when it is
accepted and what it leaves behind, on the fields of the rows rather
than through the guards the operation is written with.

`Options.dfy` holds the two result types everything shares.

## Findings

Five places where the code does less than a reader might expect, or does it only under
a condition. The code is modelled as it is; each lemma gives the condition exactly.

- The trigger planner checks sequences and selective-before-main but not the writer's
  rule of at most one main trigger, so a synchronisation can be refused although
  another order of the same moves would be written
  (`TriggerSync.PlannerCanMissTheHandover`). The order it returns is writable exactly
  when the outgoing main gives way first (`TriggerPlan.WritableIffHandsOver`), and a
  writable order exists exactly when the same passes with the main rule added succeed
  (`TriggerPlan.WritableOrderExistsIff`).
- `correct_matchup_result` has no stream check and does not reconcile. On a finals
  matchup it keeps the bracket settled exactly when nothing has been derived from that
  matchup (`FinalsUnreconciled.UnreconciledCorrectionKeepsIff`); on a Second Semi after
  the Preliminary it can pair an entry with itself, in exactly the case
  `UnreconciledCorrectionSelfPairs` states and for example in the bracket of
  `UnreconciledCorrectionCanSelfPair`. The one HTTP route to it refuses finals matchups
  (`bbbffl_app/app/routes/round_review.py:364-371`), so the input is a direct call of
  the repository. The finals runs here correct only through `correct_finals_result`.
- A single-matchup correction does not move the round version, so a round-wide
  correction guarded only by that version commits over it
  (`LifecycleTheorems.RoundCorrectionOverridesIff`). `correct_results` has no caller
  inside `bbbffl_app/app`, and sign-off and single correction always send review
  versions (`bbbffl_app/app/round_review.py:1039-1084`), so again only a direct call of
  the repository meets it.
- A stale window of zero switches the fallback off under every policy that waits
  between attempts, the shipped one included (`Resilience.ZeroWindowNeverServesStale`,
  `Resilience.DefaultPolicyWaits`). It rests on that wait alone: with a single attempt
  or no positive delay, which the environment settings allow
  (`bbbffl_app/app/config.py:392-394`), a value fetched at the same clock reading is
  served (`Resilience.WithoutWaitsZeroWindowServesStale`).
- A fixture draft becomes unfreezable when the configured season length changes after
  it was drawn, until it is saved again (`FixtureDraw.FreezeAcceptedIff`).

## Reading the model

- A transaction is atomic: row locks and retry loops appear only as a refusal that
  changes nothing. Identifiers are numbers or table positions; clocks, the upstream
  and everything another component decides are parameters.
- Percentages and averages are an arbitrary function of their inputs (zero for a zero
  divisor), so no result rests on decimal rounding. Scores are real numbers.
- Play state (lineups, activations, rulings, calculations) may change arbitrarily
  between transactions.
- A refusal names the same guard the source raises from, in the source's order.

## Model

| member | source | states |
|---|---|---|
| FinalsTheorems.IncrementalIsRecomputed | bbbffl_app/app/finals.py:1098-1355 | in every settled state the active pairings and eliminations of all advanced weeks equal `Rebuild(seeds, effective scores)`, a plain function that plays the bracket from scratch |
| FinalsTheorems.DecisionRule | bbbffl_app/app/finals.py:1488-1498 | of two entrants exactly one wins: the higher score, or on equal scores the one earlier in the frozen seed order |
| FinalsTheorems.EveryRunIsRecomputed | bbbffl_app/app/finals_review.py:294-395 | the same after any sequence of create, open, play, publish, advance, rewind and correct transactions, accepted or refused, starting from a created bracket; the seeds never change |
| FinalsTheorems.AdvancedInOrder | bbbffl_app/app/finals.py:745-1030 | week w can have been advanced only after weeks before it |
| FinalsCorrection.StepKeeps | bbbffl_app/app/finals.py:930-1030 | every transaction keeps the invariant that each week is either not derived at all or holds exactly what its two feeding contests now derive |
| FinalsCorrection.RunKeeps | bbbffl_app/app/finals.py:930-1355 | any interleaving of transactions keeps that invariant |
| FinalsCorrection.CorrectKeeps | bbbffl_app/app/finals_review.py:294-395 | an accepted correction leaves all three links intact although it reconciles only the next week |
| FinalsCorrection.SecondSemiSafe | bbbffl_app/app/finals.py:1411-1434 | an accepted correction of the Second Semi implies the Preliminary Final is not decided, so the Grand Final week, the one later week that a contest also feeds, cannot go stale |
| FinalsCorrection.CorrectionOtherLinks | bbbffl_app/app/finals.py:1408-1434 | every week but its own keeps its link under a correction, because only the Second Semi feeds a second week and that week is then not derived |
| FinalsCorrection.PlayedPreliminaryBlocks | bbbffl_app/app/finals.py:1185-1253 | when the Preliminary is decided and its recorded source version differs, the rewind is blocked |
| FinalsCorrection.CorrectionResettles | bbbffl_app/app/finals_review.py:356-368 | after the appended version and the in-transaction rewind, the week below matches its derivation again |
| FinalsCorrection.RewindIsNoOp | bbbffl_app/app/finals.py:1152-1173 | in any reachable state a rewind that is accepted changes nothing: there is nothing left to reconcile |
| FinalsSteps.CreatedKeeps | bbbffl_app/app/finals.py:562-743 | a freshly created bracket satisfies the invariant: bye, two first-week pairings, five eliminated before finals |
| FinalsSteps.MaterialiseKeeps | bbbffl_app/app/finals.py:821-892 | creating or finding a pairing's matchup moves no participant, source or elimination |
| FinalsSteps.AdvanceKeeps | bbbffl_app/app/finals.py:930-1030 | advancing an underived week inserts exactly its derived rows and elimination and keeps every other link |
| FinalsSteps.PublishKeeps | bbbffl_app/app/finals_review.py:133-249 | publishing a week makes its contests decided without touching any derived row |
| FinalsSteps.PremierIsWinner | bbbffl_app/app/finals_review.py:83-90 | the premier written at publication is the winner the bracket's own rule gives, score first and better seed on a draw |
| FinalsRewind.RewoundKeeps | bbbffl_app/app/finals.py:1185-1322 | an unblocked rewind supersedes only changed rows, hands their matchup to the replacement with the new participants, and ends with rows and elimination equal to the derivation |
| FinalsRewind.ReplaceContest | bbbffl_app/app/finals.py:1264-1322 | superseding one slot's row leaves every other slot's contest as it was |
| FinalsConservation.Conservation | bbbffl_app/app/finals.py:696-712 | with w weeks advanced exactly 5 + w distinct entries are actively eliminated, the rest are exactly those the bracket still plays, and the two grand finalists differ and are not out |
| FinalsConservation.RebuildSplits | bbbffl_app/app/finals.py:1509-1573 | the plain bracket gives each of the five finalists exactly one final place |
| FinalsConservation.AliveAreTheRest | bbbffl_app/app/finals.py:987-1006 | those still playing are the seeds minus those out, after any number of weeks |
| FinalsConservation.GrandFinalists | bbbffl_app/app/finals.py:1323-1344 | the two entries of an active Grand Final are distinct and neither is actively eliminated |
| FinalsHistory.SourcesAreCurrent | bbbffl_app/app/finals.py:1152-1173 | every active pairing's recorded source versions are the effective versions of those matchups now |
| FinalsHistory.ChainsEndAtTheActiveRow | bbbffl_app/app/finals.py:1264-1322 | following supersede pointers from any row of a slot terminates at the slot's one active row |
| FinalsHistory.MatchupsHeldOnce | bbbffl_app/app/finals.py:821-892 | no two pairings hold the same matchup, and a materialised matchup's participants are its pairing's |
| FinalsHistory.StepRemembers | bbbffl_app/app/finals.py:1264-1322 | no transaction rewrites a result version, a superseded row, or the matchup a slot has once been given |
| FinalsHistory.RunRemembers | bbbffl_app/app/finals.py:1075 | over any run a slot keeps its matchup, so source ids may be read before the transaction begins |
| FinalsPolicy.FinalIffDecided | bbbffl_app/app/finals_review.py:133-249 | a finals round is final exactly when every contest of its week has an effective result |
| FinalsPolicy.StepCompletes | bbbffl_app/app/finals_review.py:133-249 | every transaction keeps that |
| FinalsPolicy.RunCompletes | bbbffl_app/app/finals_review.py:133-249 | and so does every run |
| FinalsPolicy.BlockedIffInPlay | bbbffl_app/app/finals.py:1615-1794 | after the new version is appended, the rewind is blocked exactly when some active pairing the contest helped derive has a lineup by either side, an activation in its week, or a ruling, calculation or result of its matchup; the five tables are written out |
| FinalsPolicy.CorrectionAcceptedIff | bbbffl_app/app/finals_review.py:294-395 | a correction is accepted exactly when result, review and calculation are those it was made from and no dependent pairing appears in any of the five tables of play: lineups, activations, rulings, calculations, results |
| FinalsAcceptance.CorrectionWrites | bbbffl_app/app/finals_review.py:327-343 | an accepted correction adds the next version with the signed-off score, makes it effective, moves that review on, and leaves every other result and review alone |
| FinalsAcceptance.PublishAcceptedIff | bbbffl_app/app/finals_review.py:133-249 | a week is published exactly from review, with every matchup of the week and no other signed off on the review and calculation now in force |
| FinalsAcceptance.PublishWrites | bbbffl_app/app/finals_review.py:180-249 | it then writes version one of each with its score, closes the round, and touches no row or review |
| FinalsAcceptance.AdvanceAcceptedIff | bbbffl_app/app/finals.py:930-1006 | a week is advanced exactly when both prerequisite contests have an effective result, every version the caller named is still effective, and no target slot has an active row |
| FinalsAcceptance.RewindAcceptedIff | bbbffl_app/app/finals.py:1098-1185 | in a settled bracket a rewind is accepted under just those guards on its prerequisites, whatever has been started |
| FinalsAcceptance.RoundsMoveByOne | bbbffl_app/app/competition_lifecycle.py:431-461 | no finals transaction moves a round by more than one state or back, and only publication from review makes it final |
| FinalsAcceptance.TransitionAcceptedIff | bbbffl_app/app/competition_lifecycle.py:431-461 | a transition is accepted exactly along upcoming, open, live, review |
| FinalsAcceptance.CreateAcceptedIff | bbbffl_app/app/finals.py:562-620 | a bracket is created exactly from ten different seeds |
| FinalsAcceptance.MaterialiseAcceptedIff | bbbffl_app/app/finals.py:821-892 | a pairing is materialised exactly while active, not the bye, and its round exists; a second time changes nothing |
| FinalsUnreconciled.UnreconciledCorrectionKeepsIff | bbbffl_app/app/competition_lifecycle.py:646-716 | the generic single-matchup correction, which appends and does not reconcile, keeps the bracket settled exactly when the matchup is not the Grand Final and no pairing has been derived from it yet |
| FinalsUnreconciled.UnreconciledCorrectionSelfPairs | bbbffl_app/app/competition_lifecycle.py:646-716 | used on the Second Semi after the Preliminary is decided, it makes the next advance pair an entry with itself exactly when the new score makes the old loser win and that entry, the Preliminary's home side, won the Preliminary; both are known before the call |
| FinalsUnreconciled.UnreconciledCorrectionCanSelfPair | bbbffl_app/app/competition_lifecycle.py:646-716 | a concrete settled bracket, three weeks published, and a reversed Second Semi score after which the Grand Final pairs an entry with itself |
| FinalsUnreconciled.PreliminaryEntrants | bbbffl_app/app/finals.py:1540-1573 | the Preliminary is played by the loser of the Second Semi and an entry that was not in it |
| FinalsRepository.FinalsBracket.constructor | bbbffl_app/app/finals.py:562-743 | the rows written one by one are the created bracket, and it satisfies the invariant |
| FinalsRepository.FinalsBracket.CreateWeekRound | bbbffl_app/app/finals.py:745-790 | the round write equals its transaction specification, refusal included |
| FinalsRepository.FinalsBracket.TransitionRound | bbbffl_app/app/competition_lifecycle.py:431-461 | the state write equals its transaction specification, refusal included |
| FinalsRepository.FinalsBracket.MaterialisePairing | bbbffl_app/app/finals.py:821-892 | the matchup write equals its transaction specification, refusal included |
| FinalsRepository.FinalsBracket.OpenFinalsWeek | bbbffl_app/app/finals.py:745-790 | is a run in which every step creates the week's round, materialises one of the week's active pairings or opens the round, and on success every pairing of the week has its matchup |
| FinalsRepository.FinalsBracket.MaterialiseWeek | bbbffl_app/app/finals.py:772-790 | the loop is a run of materialise steps on the week's active pairings, and on success none is left without a matchup |
| FinalsRepository.FinalsBracket.AdvanceBracket | bbbffl_app/app/finals.py:930-1030 | checks, locks and inserted rows together equal one advance transaction |
| FinalsRepository.FinalsBracket.InsertDerived | bbbffl_app/app/finals.py:960-1006 | the insertion loop adds exactly the derived rows and the one elimination |
| FinalsRepository.FinalsBracket.PublishFinalsRound | bbbffl_app/app/finals_review.py:133-249 | the per-matchup publication loop equals one publish transaction: all version-one results, final state, premier, or nothing |
| FinalsRepository.FinalsBracket.WriteResults | bbbffl_app/app/finals_review.py:180-235 | the write loop inserts version one for each signed-off matchup and repoints exactly those |
| FinalsRepository.FinalsBracket.CorrectFinalsResult | bbbffl_app/app/finals_review.py:294-395 | the correction with its in-transaction rewind equals one correct transaction, and a refusal leaves every table as it was |
| FinalsRepository.FinalsBracket.RewindBracket | bbbffl_app/app/finals.py:1098-1355 | preview and apply report the changed and blocked slots; apply equals one rewind transaction; a preview writes nothing |
| FinalsRepository.FinalsBracket.WriteRewind | bbbffl_app/app/finals.py:1264-1344 | superseding rows one after another gives the rewound tables |
| FinalsRepository.FinalsBracket.ReplacePairing | bbbffl_app/app/finals.py:1264-1322 | the three writes (vacate, insert, link) with the matchup's new participants give the replaced tables |
| FinalsRepository.FinalsBracket.SupersedeElimination | bbbffl_app/app/finals.py:1323-1344 | the three writes give the replaced elimination |
| FinalsRepository.FinalsBracket.Inspect | bbbffl_app/app/finals.py:1185-1253 | the comparison loop reports exactly the changed and the blocked slots |
| FinalsRepository.FinalsBracket.LockAndDerive | bbbffl_app/app/finals.py:1098-1172 | prerequisite checks, version locks and derivation give the specified derivation or refusal |
| FinalsRepository.FinalsBracket.AppendVersion | bbbffl_app/app/finals_review.py:327-343 | inserts the version and repoints the matchup, its review moved on |
| FinalsRepository.FinalsBracket.AppendAndReconcile | bbbffl_app/app/finals_review.py:327-368 | appended version and rewind commit together, or neither does |
| FinalsRepository.FinalsBracket.AnyTargetActive | bbbffl_app/app/finals.py:955-966 | true exactly when some target slot of the week already has an active row |
| FinalsRepository.RewindOutcomeIs | bbbffl_app/app/finals.py:1098-1355 | the report variant refuses exactly when the transaction does and for the same reason |
| FinalsRepository.SettledReport | bbbffl_app/app/finals.py:1032-1096 | in a reachable state every accepted preview or rewind reports no changed slot, no blocked slot and no changed elimination |
| TriggerPlan.MovableIffCompatible | bbbffl_app/app/finals_superscore_open.py:231-298 | the planner's free-position test holds exactly when the moved plan keeps the trigger compatible with every other one |
| TriggerPlan.SafeKeepsLegal | bbbffl_app/app/finals_superscore_open.py:231-298 | from a plan that satisfies the rules every prefix of a safe order satisfies them too: distinct sequences, every selective before every main, and with the main rule at most one main |
| TriggerPlan.StuckMeansNoOrder | bbbffl_app/app/finals_superscore_open.py:231-298 | when a whole pass moves nothing, no order moving each trigger once is safe, from whatever plan, ordered or not: blocking comes only from old positions of unmoved triggers |
| TriggerPlan.PlannedIffSomeSafeOrder | bbbffl_app/app/finals_superscore_open.py:231-298 | from whatever plan, the greedy order moves each pending trigger once and safely, and planning fails exactly when no safe order exists; so too for a planner that also tests the main rule |
| TriggerPlan.OnePass | bbbffl_app/app/finals_superscore_open.py:256-283 | one loop over the remaining triggers equals one pass of the specification |
| TriggerPlan.PlanTriggerSync | bbbffl_app/app/finals_superscore_open.py:231-298 | the multi-pass loop terminates and returns the specified order or the stuck remainder |
| TriggerPlan.WritableIffHandsOver | bbbffl_app/app/lockouts.py:815-979 | a safe order passes the at-most-one-main rule of the trigger writer exactly when the outgoing main trigger gives way before the incoming one is written |
| TriggerPlan.WritableOrderExistsIff | bbbffl_app/app/lockouts.py:815-979 | an order the writer accepts exists exactly when the greedy passes that also test the main rule place every trigger, and then the shipped planner finds an order too |
| TriggerPlan.HandsOverUnlessMainChanges | bbbffl_app/app/lockouts.py:815-979 | that is automatic unless the main role passes to another key |
| TriggerSync.SynchroniseConverges | bbbffl_app/app/finals_superscore_open.py:495-720 | an accepted synchronisation, from whatever plan, leaves the active plan equal to the finals plan key for key, with the same positions and matches, and the mapping in step |
| TriggerSync.SynchroniseTwice | bbbffl_app/app/finals_superscore_open.py:495-720 | a second synchronisation writes no trigger row and no mapping revision |
| TriggerSync.SynchroniseAcceptedIff | bbbffl_app/app/finals_superscore_open.py:301-403 | accepted exactly under conditions on the rows and the week: mapping, removals, no removed or differing trigger activated before or during the writes, and a safe order that hands the main role over |
| TriggerSync.SynchroniseRevises | bbbffl_app/app/finals_superscore_open.py:406-492 | an accepted synchronisation revises exactly the triggers that differ and those removed, by one, and leaves every other row as it was |
| TriggerSync.SynchroniseRemaps | bbbffl_app/app/finals_superscore_open.py:495-720 | the mapping moves on by one revision exactly when it pointed elsewhere |
| TriggerSync.PlannerCanMissTheHandover | bbbffl_app/app/finals_superscore_open.py:231-298 | a concrete round and week, each as its own repository keeps it, whose synchronisation is refused for a second main trigger although another order of the same moves is writable |
| TriggerSync.ConfigureAllIff | bbbffl_app/app/lockouts.py:815-979 | writing an order succeeds exactly when it is writable and no written trigger has activated, before or meanwhile |
| TriggerRuns.StepKeeps | bbbffl_app/app/lockouts.py:638-735 | creating, replacing, configuring, removing, activating and synchronising each keep at most one active main trigger and nothing activated removed |
| TriggerRuns.RunKeeps | bbbffl_app/app/lockouts.py:638-735 | over any run of those writes, accepted or refused |
| TriggerRuns.OrderedRunKeepsLegal | bbbffl_app/app/lockouts.py:815-979 | runs without create and replace keep sequences distinct and every selective before every main |
| TriggerRuns.RawWriteKeepsLegalIff | bbbffl_app/app/lockouts.py:638-735 | create and replace, which check no ordering, keep an ordered plan ordered exactly when the ordered write would have been allowed |
| TriggerRuns.RawWriteAcceptedIff | bbbffl_app/app/lockouts.py:638-735 | create takes a new key and replace one not activated, and neither may add a second main trigger; what each then writes |
| TriggerRuns.ConfigureAcceptedIff | bbbffl_app/app/lockouts.py:815-979 | a configuration is written exactly when compatible with every other active trigger, not a second main, and not activated |
| TriggerRuns.RemovalAndActivationAcceptedIff | bbbffl_app/app/lockouts.py:1030-1156 | only an active trigger that has not fired can be removed, and only an active one fires |
| TriggerRuns.SynchroniseRestoresOrder | bbbffl_app/app/finals_superscore_open.py:495-720 | an accepted synchronisation with an ordered finals week leaves an ordered plan, whatever it found |
| SuperScoreRound.RoundRepository.ConfigureLocked | bbbffl_app/app/lockouts.py:815-979 | creates or replaces one trigger, or refuses and writes nothing |
| SuperScoreRound.RoundRepository.ApplyRemovals | bbbffl_app/app/finals_superscore_open.py:461-492 | the removal loop marks exactly the given keys removed, and stops if one has activated meanwhile |
| SuperScoreRound.RoundRepository.ApplySync | bbbffl_app/app/finals_superscore_open.py:406-458 | the write loop equals writing the whole validated order, or reports its first refusal |
| SuperScoreRound.RoundRepository.ValidatePlan | bbbffl_app/app/finals_superscore_open.py:301-403 | validation equals its specification and writes nothing |
| SuperScoreRound.RoundRepository.CollectPending | bbbffl_app/app/finals_superscore_open.py:340-403 | the loop keeps exactly the triggers whose row does not yet say what the finals week says |
| SuperScoreRound.RoundRepository.SynchroniseLocked | bbbffl_app/app/finals_superscore_open.py:495-720 | mapping, removals and moves commit together; any refusal or mid-write activation leaves mapping and triggers exactly as before |
| LadderFold.LinePermutes | bbbffl_app/app/ladder.py:85-112 | an entry's counters do not depend on the order of the results |
| LadderFold.LineAddsUp | bbbffl_app/app/ladder.py:93-112 | played = wins + draws + losses and points = 4 wins + 2 draws |
| LadderFold.LineCountsMatches | bbbffl_app/app/ladder.py:93-112 | wins, draws and losses are the numbers of matches the entry beat, drew with or lost to its opponent in |
| LadderFold.LineSumsScores | bbbffl_app/app/ladder.py:93-99 | points for and against are the entry's own and its opponents' scores, summed |
| LadderFold.LadderBalances | bbbffl_app/app/ladder.py:93-112 | summed over all entries: points for = points against, wins = losses, four competition points and two games per match |
| LadderRanking.CalculateLadder | bbbffl_app/app/ladder.py:72-155 | the loops (counters, sort, groups, carried rank) compute a snapshot whose ranks and groups are defined by their meaning, and fail exactly when a result names an unknown entry |
| LadderRanking.CountResults | bbbffl_app/app/ladder.py:85-112 | the counter loop holds each entry's line, or fails on an unknown entry |
| LadderRanking.CountGame | bbbffl_app/app/ladder.py:91-112 | one result's updates leave every entry's counters equal to its line with that result |
| LadderRanking.RankEntries | bbbffl_app/app/ladder.py:114-118 | the list built from the counters and sorted in place is the ranked list |
| LadderRanking.NextRow | bbbffl_app/app/ladder.py:128-152 | one row has the rank and group its standing means, and the rank carried on is right for the next |
| LadderRanking.CollectGroups | bbbffl_app/app/ladder.py:120-124 | the group dictionary holds, for every standing that occurs, exactly its entries in sorted order |
| LadderRanking.WriteRows | bbbffl_app/app/ladder.py:126-152 | the carried rank equals one more than the number of strictly better entries at every row |
| LadderRanking.FirstOfStanding | bbbffl_app/app/ladder.py:126-152 | at the first row of a standing exactly its predecessors are ahead |
| LadderTheorems.InputOrderIsIrrelevant | bbbffl_app/app/ladder.py:72-155 | the whole snapshot, rows and references, is the same for any permutation of results and entries |
| LadderTheorems.RowMeaning | bbbffl_app/app/ladder.py:126-152 | a row's rank is one more than the entries with a strictly better key, and its group is exactly the equal-key class |
| LadderTheorems.RowsCover | bbbffl_app/app/ladder.py:115-152 | every entry has exactly one row, best first |
| LadderTheorems.RowsByCriteria | bbbffl_app/app/ladder.py:114-152 | for any two rows: the rank is smaller exactly for more points, then higher percentage, then more points for; sharing all three is the tie group; percentage and average are the ratios of the row's own scores, zero for a zero divisor |
| LadderTheorems.RanksCompete | bbbffl_app/app/ladder.py:126-132 | a row's rank is its place, unless it shares all three criteria with the row above and then that row's rank |
| LadderTheorems.LadderExistsIff | bbbffl_app/app/ladder.py:85-92 | there is a ladder exactly when every result up to the round is between known entries |
| LadderTheorems.RanksSeparate | bbbffl_app/app/ladder.py:126-152 | ranks are equal exactly for equal keys and smaller exactly for better ones, in the criteria the row above writes out |
| LadderTheorems.IdentifiersNeverRank | bbbffl_app/app/ladder.py:79-84 | for any two total orders on identifiers an entry's line, rank, tie flag and tie group (as a multiset) coincide |
| LadderTheorems.SnapshotBalances | bbbffl_app/app/ladder.py:85-112 | the balance law holds for the selected results of any snapshot |
| LadderRulings.RunKeeps | bbbffl_app/app/ladder_tie_ruling.py:205-322 | over any interleaving of result changes and rulings: at most one active ruling per scope and group, supersede pointers run forward to the same tie, and every ruling was made on the ladder of an earlier state of the same results |
| LadderRulings.StepKeeps | bbbffl_app/app/ladder_tie_ruling.py:205-322 | each single step keeps that |
| LadderRulings.DecideKeeps | bbbffl_app/app/ladder_tie_ruling.py:262-300 | recording keeps earlier rulings but for their active flag and pointer and appends at most the new one |
| LadderResults.LifecycleRunExtends | bbbffl_app/app/ladder.py:178-204 | any run of the round lifecycle only appends versions and only adds counted matchups to the results the ladder reads, as the rulings' history requires |
| LadderResults.LifecycleStepIsLegal | bbbffl_app/app/ladder.py:178-204 | so it is a results step the rulings' invariant allows |
| LadderResults.CountsTheEffectiveVersion | bbbffl_app/app/ladder.py:178-206 | what the ladder counts for a matchup of a final round is its effective version with that version's stored scores |
| LadderFreshness.SameReferencesSameResults | bbbffl_app/app/ladder_tie_ruling.py:368-377 | because versions are only appended, equal reference sets mean the same counted results |
| LadderFreshness.FreshRulingStillApplies | bbbffl_app/app/ladder_tie_ruling.py:338-378 | in every reachable state a fresh ruling's group is still exactly tied and its order is a permutation of it |
| LadderFreshness.StalenessTestsAgree | bbbffl_app/app/ladder_tie_ruling.py:136-139 | the unordered set test and the encoded equality test give the same answer for every stored ruling |
| LadderFreshness.ReRecordingIsNoOp | bbbffl_app/app/ladder_tie_ruling.py:262-267 | recording the same order again on unchanged results writes nothing and returns the same ruling |
| LadderAcceptance.ResolvedIff | bbbffl_app/app/ladder_tie_ruling.py:338-378 | a tie is resolved exactly when an active ruling of its scope and group has the same references, as a set, as the ladder |
| LadderAcceptance.RecordAcceptedIff | bbbffl_app/app/ladder_tie_ruling.py:205-256 | a ruling is recorded exactly for at least two distinct entries that are together one tied group of that season's ladder |
| LadderAcceptance.RecordedIsInForce | bbbffl_app/app/ladder_tie_ruling.py:257-322 | the ruling in force afterwards is the submitted order on the current references, and a row is added unless an identical one was in force |
| LadderOrder.FullOrderIs | bbbffl_app/app/ladder_tie_ruling.py:490-516 | the resolved order lists every entry once, better standings first and the ruled order inside each tie |
| LadderOrder.HandledIsPlaced | bbbffl_app/app/ladder_tie_ruling.py:505-512 | the `handled` set recognises exactly the groups already placed |
| LadderResolution.ResolvedOrderIgnoresIdentifiers | bbbffl_app/app/ladder_tie_ruling.py:490-516 | whichever of two serialisations of identifiers is used, there is a ladder, it resolves or is blocked alike, and then gives the same order or names the same group |
| LadderResolution.SameBlocker | bbbffl_app/app/ladder_tie_ruling.py:490-516 | two snapshots showing the same standings and references resolve alike: both in full, or both stopped by the same group of entries |
| LadderResolution.BlockedIff | bbbffl_app/app/ladder_tie_ruling.py:490-516 | resolution succeeds exactly when every tie has a fresh active ruling, and otherwise reports the highest-ranked group still open |
| LadderResolution.UsedRulings | bbbffl_app/app/ladder_tie_ruling.py:490-516 | the rulings reported as used are active, fresh and cover every tie |
| LadderResolution.ReachableOrder | bbbffl_app/app/ladder_tie_ruling.py:490-516 | in every reachable state the resolved order is a permutation of the entries in resolved order |
| LadderRulingRepository.RulingTable.FindTiedGroup | bbbffl_app/app/ladder_tie_ruling.py:163-167 | the row scan finds a tied group with exactly these members if there is one |
| LadderRulingRepository.RulingTable.GetActive | bbbffl_app/app/ladder_tie_ruling.py:176-182 | the query returns the active ruling of the scope and group |
| LadderRulingRepository.RulingTable.RecordRuling | bbbffl_app/app/ladder_tie_ruling.py:205-322 | the method equals its specification, refusals included, and a refusal writes nothing |
| LadderRulingRepository.RulingTable.WriteRuling | bbbffl_app/app/ladder_tie_ruling.py:257-300 | retire, insert, repoint leaves the store the specification gives |
| LadderRulingRepository.RulingTable.ResolveTie | bbbffl_app/app/ladder_tie_ruling.py:338-378 | returns the ruling exactly when it is active and fresh |
| LadderRulingRepository.RulingTable.ResolveFullOrder | bbbffl_app/app/ladder_tie_ruling.py:490-516 | the loop with its `handled` set equals the specified order, or the first blocked group |
| DraftSnake.SnakeNumbers | bbbffl_app/app/draft.py:119-128 | overall numbers run 1, 2, 3, ... through the whole draft |
| DraftSnake.SnakePlaces | bbbffl_app/app/draft.py:119-128 | the pick at (round, position) has number (round - 1) n + position |
| DraftSnake.SnakeCovers | bbbffl_app/app/draft.py:119-128 | every number comes from exactly one round and position |
| DraftSnake.SnakeShares | bbbffl_app/app/draft.py:119-128 | every entry gets exactly T picks, at computed numbers |
| DraftSnake.SnakeIsFair | bbbffl_app/app/draft.py:119-128 | for even T all entries' numbers have the same sum; for odd T two sums differ by at most n - 1 |
| DraftSnake.SnakeAllocations | bbbffl_app/app/draft.py:119-128 | the nested loops with the running counter produce the snake, and refuse exactly the malformed orders |
| DraftTheorems.AcceptedKeeps | bbbffl_app/app/draft.py:201-296 | a materialised draft satisfies the board and ownership invariant |
| DraftSteps.StepKeeps | bbbffl_app/app/draft.py:448-816 | pick, correct, transfer, pause, resume, finalise and reopen all keep: one active row per number, superseded rows completed, completed active picks exactly the prefix 1..k, open ownership matching them |
| DraftSteps.RunKeeps | bbbffl_app/app/draft.py:448-816 | over any run |
| DraftInvariant.NextPickIs | bbbffl_app/app/draft.py:769-784 | the unfiltered next-pick query finds the active row of the first slot not yet completed |
| DraftEffects.ExecuteFillsTheNextSlot | bbbffl_app/app/draft.py:747-816 | an accepted pick is made by the current owner of the first open slot, fills that slot only, and adds exactly one holding of a player nobody owned |
| DraftEffects.TransferMovesOneSlot | bbbffl_app/app/draft.py:689-738 | an accepted transfer changes one open slot's current owner and nothing else on the board or in ownership |
| DraftEffects.CorrectReopensTheLastSlot | bbbffl_app/app/draft.py:448-584 | an accepted correction reopens the last completed slot for the same owner and ends exactly that holding |
| DraftTheorems.BoardPosition | bbbffl_app/app/draft.py:548-584 | row overall_number - 1 of the listing is that slot's row |
| DraftTheorems.BoardLength | bbbffl_app/app/draft.py:548-584 | the listing has exactly n times T rows |
| DraftTheorems.OwnedIsDrafted | bbbffl_app/app/draft.py:511-547 | open ownership periods are exactly the (player, entry) pairs of completed active picks, no player twice |
| DraftTheorems.EveryRunOwnsWhatItDrafted | bbbffl_app/app/draft.py:784-801 | the same after any run |
| DraftTheorems.CorrectUndoesExecute | bbbffl_app/app/draft.py:489-584 | a pick just made can be corrected, and that restores ownership and the visible board |
| DraftTheorems.CompleteMeansEven | bbbffl_app/app/draft.py:593-622 | when every pick is made every squad has exactly T players, whatever was traded |
| DraftTheorems.FullSquads | bbbffl_app/app/draft.py:593-622 | the pigeonhole behind it: squads of at most T that add up to n times T are all exactly T |
| DraftTheorems.FinalizeIff | bbbffl_app/app/draft.py:593-622 | finalisation is accepted exactly when complete and not yet finalised; the uneven-squad refusal cannot occur |
| DraftTheorems.FinalizedIsFrozen | bbbffl_app/app/draft.py:689-738 | while finalised no step but reopen changes anything, transfer included, which has no finalised check of its own |
| DraftAcceptance.ExecuteAcceptedIff | bbbffl_app/app/draft.py:747-816 | a pick is accepted exactly while neither finalised nor paused, for the first open slot, by its current owner, of an eligible pooled player nobody owns at or after that time, with room in the squad from then on |
| DraftAcceptance.RoomIff | bbbffl_app/app/player_pool.py:663-722 | the capacity check at acquisition boundaries passes exactly when there is room at every later instant |
| DraftAcceptance.CorrectAcceptedIff | bbbffl_app/app/draft.py:489-547 | a correction is accepted exactly for the last completed slot's active row, after its pick, while not finalised; the moved-ownership refusal cannot occur |
| DraftAcceptance.TransferAcceptedIff | bbbffl_app/app/draft.py:689-738 | a transfer is accepted exactly for an open slot, to another entry of the draft |
| DraftAcceptance.FinalizeAcceptedIff | bbbffl_app/app/draft.py:593-622 | finalisation is accepted exactly once every active row is completed |
| DraftAcceptance.FlagsAfter | bbbffl_app/app/draft.py:397-446 | what every step needs of and leaves in the paused and finalised flags |
| DraftInvariant.AcquireWithinCapacity | bbbffl_app/app/player_pool.py:698-753 | the historical capacity check never lets the squad now open exceed the limit |
| DraftRepository.DraftDatabase.constructor | bbbffl_app/app/draft.py:201-296 | the materialising loop writes the accepted draft |
| DraftRepository.DraftDatabase.AcquireInTransaction | bbbffl_app/app/player_pool.py:777-855 | opens one period or refuses and writes nothing |
| DraftRepository.DraftDatabase.ReleaseInTransaction | bbbffl_app/app/player_pool.py:877-937 | closes the player's one open period or refuses and writes nothing |
| DraftRepository.DraftDatabase.ExecutePick | bbbffl_app/app/draft.py:747-816 | equals one pick transaction, refusal included, and keeps the invariant |
| DraftRepository.DraftDatabase.CorrectPick | bbbffl_app/app/draft.py:448-584 | equals one correction transaction: supersede, release, fresh row for the same slot |
| DraftRepository.DraftDatabase.TransferPick | bbbffl_app/app/draft.py:689-738 | equals one transfer transaction |
| DraftRepository.DraftDatabase.Pause | bbbffl_app/app/draft.py:397-421 | equals one pause transaction |
| DraftRepository.DraftDatabase.Resume | bbbffl_app/app/draft.py:423-446 | equals one resume transaction |
| DraftRepository.DraftDatabase.Finalize | bbbffl_app/app/draft.py:586-638 | equals one finalise transaction |
| DraftRepository.DraftDatabase.Reopen | bbbffl_app/app/draft.py:649-679 | equals one reopen transaction |
| LifecycleTheorems.StepKeeps | bbbffl_app/app/competition_lifecycle.py:463-716 | every transaction keeps: versions of a matchup are exactly 1..effective, a matchup has a result exactly when its round is final, every round has five matchups |
| LifecycleTheorems.RunKeeps | bbbffl_app/app/competition_lifecycle.py:463-716 | over any run |
| LifecycleTheorems.StepRemembers | bbbffl_app/app/competition_lifecycle.py:585-613 | no transaction rewrites a result version, moves a round back or lowers a review or effective version |
| LifecycleTheorems.RunRemembers | bbbffl_app/app/competition_lifecycle.py:84-90 | over any run, so `final` is absorbing |
| LifecycleTheorems.StatesAdvanceByOne | bbbffl_app/app/competition_lifecycle.py:84-90 | an accepted transition, publication or round-wide correction of a round adds exactly one to its version, the first two exactly one state, and no other step touches its row |
| LifecycleTheorems.RoundVersionCounts | bbbffl_app/app/competition_lifecycle.py:626-629 | over any run a round's version counts the committed writers of its row |
| LifecycleTheorems.AtMostOneRoundWriterCommits | bbbffl_app/app/competition_lifecycle.py:489-501 | of two publications or round-wide corrections sent with the same version of a round at most one commits, whatever runs in between |
| LifecycleTheorems.CorrectionWritesItsScores | bbbffl_app/app/competition_lifecycle.py:585-613 | an accepted correction makes exactly the submitted scores effective as one new version each and leaves unnamed matchups alone |
| LifecycleTheorems.FinalOnlyByPublication | bbbffl_app/app/competition_lifecycle.py:489-536 | a round becomes final only by publication from review, with version one of all five results as submitted |
| LifecycleTheorems.DefensiveGuardsNeverFire | bbbffl_app/app/competition_lifecycle.py:585-588 | the incomplete-results guard, the five-matchup guard and the result table's key never refuse anything in a reachable state |
| LifecycleTheorems.RunCounts | bbbffl_app/app/competition_lifecycle.py:596-613 | over any run a matchup's review version counts exactly its committed rulings and corrections, and its effective version its corrections |
| LifecycleTheorems.AtMostOneCommits | bbbffl_app/app/competition_lifecycle.py:851-862 | of two writers naming the same review version for a matchup, single or round-wide, at most one commits, whatever happens in between |
| LifecycleTheorems.CommitSeesEveryWriter | bbbffl_app/app/competition_lifecycle.py:478-487 | a publication or correction that commits with the review version its caller read has missed no ruling or correction on that matchup |
| LifecycleTheorems.RoundCorrectionOverridesIff | bbbffl_app/app/competition_lifecycle.py:571-584 | a single correction leaves the round row as it was, so a round-wide correction prepared before it still commits exactly when it names no review version for that matchup |
| LifecycleAcceptance.PublishAcceptedIff | bbbffl_app/app/competition_lifecycle.py:463-503 | a round is published exactly from review, with scores for its matchups and no other, on the round and review versions named |
| LifecycleAcceptance.CorrectAcceptedIff | bbbffl_app/app/competition_lifecycle.py:552-590 | a final round is corrected exactly with a reason, on the same guards |
| LifecycleAcceptance.CorrectOneAcceptedIff | bbbffl_app/app/competition_lifecycle.py:646-690 | one matchup of a final round is corrected exactly with a reason, on the review version named |
| LifecycleAcceptance.MoveAcceptedIff | bbbffl_app/app/competition_lifecycle.py:431-461 | a round moves exactly along upcoming, open, live, review, one version on; opening needs its context |
| LifecycleAcceptance.CreateAcceptedIff | bbbffl_app/app/competition_lifecycle.py:161-270 | a round is created exactly once, from five pairs of ten different entries, upcoming at version one with five empty matchups |
| LifecycleRepository.LifecycleDatabase.CreateOrdinaryRound | bbbffl_app/app/competition_lifecycle.py:161-270 | the loop over the five pairs equals one create transaction |
| LifecycleRepository.LifecycleDatabase.MoveRound | bbbffl_app/app/competition_lifecycle.py:431-461 | equals one transition transaction |
| LifecycleRepository.LifecycleDatabase.LockedMatchups | bbbffl_app/app/competition_lifecycle.py:831-839 | the query loop returns the round's matchups in order |
| LifecycleRepository.LifecycleDatabase.ReviewVersionsMoved | bbbffl_app/app/competition_lifecycle.py:851-862 | true exactly when some named review version differs |
| LifecycleRepository.LifecycleDatabase.CheckRoundAndResults | bbbffl_app/app/competition_lifecycle.py:489-501 | the guards accept exactly when the specification's do |
| LifecycleRepository.LifecycleDatabase.constructor | bbbffl_app/app/competition_lifecycle.py:155-160 | empty tables satisfy the invariant |
| LifecycleRepository.LifecycleDatabase.WriteEach | bbbffl_app/app/competition_lifecycle.py:504-518 | the per-matchup insert-and-repoint loop equals its specification |
| LifecycleRepository.LifecycleDatabase.PublishRound | bbbffl_app/app/competition_lifecycle.py:463-550 | equals one publish transaction and keeps the invariant; a refusal changes nothing |
| LifecycleRepository.LifecycleDatabase.CorrectRound | bbbffl_app/app/competition_lifecycle.py:552-644 | equals one round-wide correction and keeps the invariant |
| LifecycleRepository.LifecycleDatabase.CorrectMatchupResult | bbbffl_app/app/competition_lifecycle.py:646-716 | equals one single correction and keeps the invariant |
| Resilience.CallWithRetry | bbbffl_app/app/afl_resilience.py:193-218 | the retry loop terminates and returns the outcome of the attempt specification |
| Resilience.RetriesAreBounded | bbbffl_app/app/afl_resilience.py:187-218 | a call never exceeds max_attempts (at least one), sleeps the schedule between attempts, and at most (max_attempts - 1) max_delay in all |
| Resilience.RetriesOnlyTheTransient | bbbffl_app/app/afl_resilience.py:103-160 | every attempt but the last failed with a timeout, a connection error or one of the six HTTP statuses, and one that still ends so has used up its attempts |
| Resilience.StatusMeans | bbbffl_app/app/afl_resilience.py:433-482 | only a live value is fresh evidence, and only a malformed or other API fault is invalid |
| Resilience.DelaysGrow | bbbffl_app/app/afl_resilience.py:187-190 | delays never shrink and never pass the cap |
| Resilience.DelaySchedule | bbbffl_app/app/afl_resilience.py:187-190 | the first delay is the base, each next one the last times the multiplier, all capped |
| Resilience.ServedIsGenuine | bbbffl_app/app/afl_resilience.py:433-482 | after any history, a value served was obtained live for that exact endpoint and key; a stale one is the latest ever obtained and its age, taken after all retries, is within the window; a non-retryable failure never reads the cache |
| Resilience.HistoryKeeps | bbbffl_app/app/afl_resilience.py:475-482 | every cache entry is the latest live value for its key, over any history |
| Resilience.ZeroWindowNeverServesStale | bbbffl_app/app/afl_resilience.py:238-243 | under any policy that waits before some retry, no call after any history gets a stale value through a zero window |
| Resilience.ExhaustedTakesTime | bbbffl_app/app/afl_resilience.py:193-218 | under such a policy a call that ends in a retryable failure ends strictly later than it began |
| Resilience.DefaultPolicyWaits | bbbffl_app/app/afl_resilience.py:176-185 | the shipped policy waits, and the window of the season player pool is zero |
| Resilience.WithoutWaitsZeroWindowServesStale | bbbffl_app/app/afl_resilience.py:433-482 | under every policy that never waits, one fetch followed at once by a failing call does get a stale value through a zero window |
| EvidenceBatches.OpenBatchSeesItsCallsSoFar | bbbffl_app/app/finals_review.py:133-149 | asked inside the block, the batch is fresh exactly when the block has made a call of its own and every one so far was live, whatever nested batches and other threads did |
| EvidenceBatches.BatchSeesItsOwnCalls | bbbffl_app/app/afl_resilience.py:406-429 | a batch is fresh exactly when it observed at least one call made directly in it and all of those were live; nested batches and other threads never count, and the enclosing batch is active again afterwards |
| EvidenceBatches.ThreadsAreIsolated | bbbffl_app/app/afl_resilience.py:333-343 | however threads interleave, each thread's batches depend only on its own actions |
| EvidenceBatches.BatchRuns | bbbffl_app/app/afl_resilience.py:423-429 | a whole block leaves every earlier batch as it was |
| EvidenceBatches.FreshIs | bbbffl_app/app/afl_resilience.py:269-279 | touched and all-fresh after any sequence of observations |
| ResilientClient.FreshInsideBlock | bbbffl_app/app/finals_review.py:133-149 | on the client object: inside an open block the thread's active batch reports fresh exactly when the block's own calls so far were all live and there was one |
| ResilientClient.ResilientAflClient.Fetch | bbbffl_app/app/afl_resilience.py:433-504 | one call: result, cache, clock and the calling thread's active batch are as specified, and the batch objects follow the interleaving of all events |
| ResilientClient.ResilientAflClient.Obtain | bbbffl_app/app/afl_resilience.py:433-482 | retries, cache write and stale fallback as specified |
| ResilientClient.ResilientAflClient.Record | bbbffl_app/app/afl_resilience.py:484-504 | only the calling thread's innermost batch observes |
| ResilientClient.ResilientAflClient.OpenBatch | bbbffl_app/app/afl_resilience.py:423-425 | a new batch becomes the thread's active one and the previous one is handed back, as an open event of the interleaving |
| ResilientClient.ResilientAflClient.CloseBatch | bbbffl_app/app/afl_resilience.py:426-429 | leaving the innermost open block makes the batch around it active again, as a close event of the interleaving |
| ResilientClient.EvidenceBatch.Observe | bbbffl_app/app/afl_resilience.py:273-276 | one observation, in place |
| ResilientClient.EvidenceBatch.constructor | bbbffl_app/app/afl_resilience.py:269-271 | a new batch is untouched |
| ResilientClient.ResilientAflClient.constructor | bbbffl_app/app/afl_resilience.py:316-343 | a new client has an empty cache, the default windows with overrides, and no active batch |
| FixtureRotation.CycleRoundsMatch | bbbffl_app/app/fixtures.py:12-32 | every round of the cycle is a perfect matching of the ten numbers |
| FixtureRotation.PairsMeetOnce | bbbffl_app/app/fixtures.py:12-22 | two numbers meet in exactly the base round an independent chart gives, and only one way round |
| FixtureRotation.RotationIsBalanced | bbbffl_app/app/fixtures.py:25-32 | for every season length R: perfect matchings, each pair meets floor(R/9) or ceil(R/9) times, home and away differ by at most one |
| FixtureDraw.RunKeeps | bbbffl_app/app/fixtures.py:70-205 | every draw is always a whole rotation over the ten entries, and a frozen one never changes |
| FixtureDraw.SaveAcceptedIff | bbbffl_app/app/fixtures.py:70-140 | a proposal is saved exactly for the season's ten entries in some order while nothing is frozen, as the next version |
| FixtureDraw.FreezesWhatWasReviewed | bbbffl_app/app/fixtures.py:150-188 | a freeze on the version reviewed freezes that very draw, whatever was saved or configured in between |
| FixtureDraw.RunVersions | bbbffl_app/app/fixtures.py:70-205 | versions never fall, and an unchanged version is an unchanged draw |
| FixtureDraw.FreezeAcceptedIff | bbbffl_app/app/fixtures.py:150-188 | a draft can be frozen exactly when it is the reviewed version and the season length has not changed since it was drawn |
| FixtureDraw.FrozenDrawIsBalanced | bbbffl_app/app/fixtures.py:115-126 | the balance law over the stored rows and the season's own entries |
| FixtureDraw.FixtureRepository.SaveProposal | bbbffl_app/app/fixtures.py:70-140 | equals one save transaction, refusal included |
| FixtureDraw.FixtureRepository.DrawRows | bbbffl_app/app/fixtures.py:120-126 | the nested loops write exactly the rotation over the drawn entries |
| FixtureDraw.FixtureRepository.DrawRound | bbbffl_app/app/fixtures.py:121-126 | the inner loop writes one round's rows in order |
| FixtureDraw.FixtureRepository.CheckProposal | bbbffl_app/app/fixtures.py:78-93 | refuses exactly the proposals the specification refuses, for the same reason |
| FixtureDraw.FixtureRepository.FreezeDraw | bbbffl_app/app/fixtures.py:150-205 | equals one freeze transaction, refusal included |

## Left out

- The completed-season write fence `guard_writable` in front of every write: one more guard that only refuses.
- Audit events, actors, reasons' wording and JSON snapshots: written beside the modelled rows, never read by them. That a mandatory reason is non-blank is modelled only for round and matchup corrections, and there as non-empty, as the code tests it.
- SQL text, lock ordering, and the bounded restart of a rewind whose downstream matchups changed while it was locking (`bbbffl_app/app/finals.py:163-183`): a transaction is one atomic step.
- Seed resolution in `create_bracket` (reading the ladder or the historical snapshot, its staleness re-check and its idempotent repeat): the seed order is a parameter of ten distinct entries, as the resolved ladder order is proved to be.
- The AFL mapping and evidence freshness demanded when a week is opened, published or corrected, and the paired open action of `bbbffl_app/app/finals_superscore_open.py:830-998`: they depend on the live upstream.
- One bracket per model: the bracket identifier column is dropped, and a pairing's week is computed from its slot.
- The wooden spoon written at Grand Final publication (`bbbffl_app/app/finals_review.py:25-66`): a read of the ladder, independent of the bracket.
- Review readiness (blockers, missing calculations) behind a finals sign-off: a sign-off is a score with the review and calculation versions it was made from, which are compared again in the transaction.
- Trigger keys' format, timestamps and match lists' contents: a trigger is a key, a position and an opaque set of matches.
- `through_round` and the season's entries are fixed inputs of a ladder; the latest included round in the snapshot header is not modelled.
- Tie-group keys are the member sets themselves; that joining sorted identifiers with commas is injective rests on identifiers without commas.
- The rulings' free-text reason, creation times and history queries; the preview report of open ties.
- Draft board history tables (corrections and transfers as log rows), draft kinds other than one, and the preseason window check.
- Squad-limit configuration and ownership transfers outside the draft: a draft starts with empty squads and is the only writer, as the agreement property requires.
- Non-ordinary rounds and finals matchups in the lifecycle model: their results are the finals model's.
- Stored calculations and upstream facts (`save_calculation`, `record_upstream_fact`): append or overwrite one independent row.
- `classify_failure` on exception types is a table over the faults a fetch can raise; diagnostics and correlation identifiers are not modelled.
- Cache-key types: a key is a sequence of integers.
- Fixture draw timestamps, and creation of the ordinary rounds from a frozen draw beyond the five-distinct-pairs check.
