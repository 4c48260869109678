/** Exactly when each draft transaction is accepted, on the draft's own rows, and what each leaves in the two flags. */
module DraftAcceptance {
  import opened Options
  import opened DraftLedger
  import opened DraftInvariant
  import opened DraftSteps
  import opened DraftTheorems

  // ----- Room in a squad -----

  /** The periods of an entry in force at an instant. */
  ghost function InForce(periods: seq<Period>, entry: Entry, at: int): set<nat> {
    set j: nat | j < |periods| && periods[j].entry == entry && periods[j].acquired <= at
                 && (periods[j].released.None? || periods[j].released.value > at)
  }

  lemma {:induction false} SquadCounts(periods: seq<Period>, entry: Entry, at: int)
    ensures SquadAt(periods, entry, at) == |InForce(periods, entry, at)|
  {
    if periods == [] {
      assert InForce(periods, entry, at) == {};
    } else {
      var n := |periods| - 1;
      SquadCounts(periods[..n], entry, at);
      assert InForce(periods, entry, at) == InForce(periods[..n], entry, at) + (if n in InForce(periods, entry, at) then {n} else {});
    }
  }

  /** The latest acquisition of an entry from `from` up to `until` among the first periods, or `from`. */
  function LatestBy(periods: seq<Period>, upTo: nat, entry: Entry, from: int, until: int): int
    requires upTo <= |periods|
  {
    if upTo == 0 then from
    else
      var rest := LatestBy(periods, upTo - 1, entry, from, until);
      var p := periods[upTo - 1];
      if p.entry == entry && rest < p.acquired <= until then p.acquired else rest
  }

  lemma {:induction false} LatestByIs(periods: seq<Period>, upTo: nat, entry: Entry, from: int, until: int)
    requires upTo <= |periods| && from <= until
    ensures from <= LatestBy(periods, upTo, entry, from, until) <= until
    ensures forall i :: 0 <= i < upTo && periods[i].entry == entry && periods[i].acquired <= until ==>
              periods[i].acquired <= LatestBy(periods, upTo, entry, from, until)
    ensures SquadAt(periods, entry, LatestBy(periods, upTo, entry, from, until)) <= MaximumSquad(periods, upTo, entry, from)
  {
    if upTo > 0 { LatestByIs(periods, upTo - 1, entry, from, until); }
  }

  /** Between acquisitions a squad only shrinks. */
  lemma {:induction false} OnlyShrinks(periods: seq<Period>, entry: Entry, early: int, late: int)
    requires early <= late
    requires forall i :: 0 <= i < |periods| && periods[i].entry == entry && periods[i].acquired <= late ==> periods[i].acquired <= early
    ensures SquadAt(periods, entry, late) <= SquadAt(periods, entry, early)
  {
    if periods != [] {
      var n := |periods| - 1;
      forall i | 0 <= i < n && periods[..n][i].entry == entry && periods[..n][i].acquired <= late ensures periods[..n][i].acquired <= early {
        assert periods[..n][i] == periods[i];
      }
      OnlyShrinks(periods[..n], entry, early, late);
    }
  }

  lemma {:induction false} MaximumAttained(periods: seq<Period>, upTo: nat, entry: Entry, from: int) returns (at: int)
    requires upTo <= |periods|
    ensures at >= from && SquadAt(periods, entry, at) == MaximumSquad(periods, upTo, entry, from)
  {
    if upTo == 0 { return from; }
    at := MaximumAttained(periods, upTo - 1, entry, from);
    var p := periods[upTo - 1];
    if p.entry == entry && p.acquired >= from && SquadAt(periods, entry, p.acquired) > SquadAt(periods, entry, at) { at := p.acquired; }
  }

  /** The capacity check looks only at acquisition boundaries, and that is enough: it passes exactly when there is
      room for one more at every instant from `from` on. */
  lemma RoomIff(periods: seq<Period>, entry: Entry, from: int, limit: nat)
    ensures MaximumSquad(periods, |periods|, entry, from) + 1 <= limit
       <==> forall at :: at >= from ==> |InForce(periods, entry, at)| < limit
  {
    var peak := MaximumAttained(periods, |periods|, entry, from);
    SquadCounts(periods, entry, peak);
    forall at | at >= from ensures |InForce(periods, entry, at)| <= MaximumSquad(periods, |periods|, entry, from) {
      LatestByIs(periods, |periods|, entry, from, at);
      OnlyShrinks(periods, entry, LatestBy(periods, |periods|, entry, from, at), at);
      SquadCounts(periods, entry, at);
    }
  }

  // ----- Picks -----

  /** The active row of the first slot not yet completed. */
  ghost predicate FirstOpen(picks: seq<Pick>, i: nat) {
    && i < |picks| && picks[i].supersededBy.None? && picks[i].selection.None?
    && forall j :: 0 <= j < |picks| && picks[j].supersededBy.None? && picks[j].selection.None? ==> picks[i].overall <= picks[j].overall
  }

  lemma FirstOpenIsNext(d: Draft, i: nat)
    requires BoardOk(d.picks, Slots(d), CountDone(d.picks))
    ensures NextPick(d.picks) == Some(i) <==> FirstOpen(d.picks, i)
  {
    var n, k := Slots(d), CountDone(d.picks);
    forall j | 0 <= j < |d.picks| && d.picks[j].selection.None? ensures Active(d.picks[j]) {
      assert RowOk(d.picks, n, k, j);
    }
    var r := NextPick(d.picks);
    if FirstOpen(d.picks, i) {
      assert r.Some?;
      assert d.picks[r.value].overall == d.picks[i].overall;
    }
  }

  /**
   A pick is accepted exactly while the draft is neither finalised nor paused,
   for the first open slot, by that slot's current owner, of an eligible player
   of the pool whom nobody owns at or after that time, into a squad with room
   from then on.
   */
  lemma ExecuteAcceptedIff(d: Draft, entry: Entry, player: Player, pick: Option<nat>, at: int)
    requires Inv(d)
    ensures ExecutePick(d, entry, player, pick, at).Ok?
       <==> && !d.finalized && !d.paused
            && (exists i: nat :: FirstOpen(d.picks, i) && d.picks[i].current == entry && (pick.Some? ==> pick.value == i))
            && entry in d.order && player in d.pool && d.pool[player]
            && (forall j :: 0 <= j < |d.periods| && d.periods[j].player == player ==>
                  d.periods[j].released.Some? && d.periods[j].released.value <= at)
            && (forall t :: t >= at ==> |InForce(d.periods, entry, t)| < d.target)
  {
    AcquireAcceptedIff(d, player, entry, at);
    var next := NextPick(d.picks);
    if next.Some? {
      FirstOpenIsNext(d, next.value);
      ExecuteGuards(d, entry, player, pick, at, next.value);
    }
    forall i: nat | FirstOpen(d.picks, i) ensures next == Some(i) { FirstOpenIsNext(d, i); }
  }

  lemma ExecuteGuards(d: Draft, entry: Entry, player: Player, pick: Option<nat>, at: int, i: nat)
    requires NextPick(d.picks) == Some(i)
    ensures ExecutePick(d, entry, player, pick, at).Ok?
       <==> !d.finalized && !d.paused && (pick.Some? ==> pick.value == i) && d.picks[i].current == entry && Acquire(d, player, entry, at).Ok?
  {
  }

  lemma AcquireAcceptedIff(d: Draft, player: Player, entry: Entry, at: int)
    ensures Acquire(d, player, entry, at).Ok?
       <==> && entry in d.order && player in d.pool && d.pool[player]
            && (forall j :: 0 <= j < |d.periods| && d.periods[j].player == player ==>
                  d.periods[j].released.Some? && d.periods[j].released.value <= at)
            && (forall t :: t >= at ==> |InForce(d.periods, entry, t)| < d.target)
  {
    RoomIff(d.periods, entry, at, d.target);
    if !Overlaps(d.periods, player, at) {
      forall j | 0 <= j < |d.periods| && d.periods[j].player == player
        ensures d.periods[j].released.Some? && d.periods[j].released.value <= at
      {
      }
    }
  }

  /** A correction is accepted exactly for the last completed slot's active row, after the pick was made; that the
      player has changed hands since is never the reason to refuse. */
  lemma CorrectAcceptedIff(d: Draft, row: nat, at: int)
    requires Inv(d)
    ensures CorrectPick(d, row, at).Ok?
       <==> && !d.finalized && row < |d.picks| && d.picks[row].supersededBy.None?
            && d.picks[row].selection.Some? && d.picks[row].selection.value.at < at
            && (forall j :: 0 <= j < |d.picks| && d.picks[j].supersededBy.None? && d.picks[j].selection.Some? ==>
                  d.picks[j].overall <= d.picks[row].overall)
    ensures CorrectPick(d, row, at) != Err(OwnershipMoved)
  {
    if row < |d.picks| && Done(d.picks[row]) {
      assert Backed(d, row);
    }
  }

  /** A transfer is accepted exactly for an open slot, to another entry of the draft, paused or not. */
  lemma TransferAcceptedIff(d: Draft, row: nat, to: Entry)
    ensures TransferPick(d, row, to).Ok?
       <==> row < |d.picks| && d.picks[row].selection.None? && to in d.order && d.picks[row].current != to
  {
  }

  // ----- Finalisation -----

  lemma {:induction false} AllDoneIff(picks: seq<Pick>)
    ensures CountDone(picks) <= CountActive(picks)
    ensures CountDone(picks) == CountActive(picks)
       <==> forall i :: 0 <= i < |picks| && picks[i].supersededBy.None? ==> picks[i].selection.Some?
  {
    if picks != [] {
      var n := |picks| - 1;
      AllDoneIff(picks[..n]);
      assert forall i :: 0 <= i < n ==> picks[..n][i] == picks[i];
    }
  }

  /** Finalisation is accepted exactly once every slot's active row is completed. */
  lemma FinalizeAcceptedIff(d: Draft)
    requires Inv(d)
    ensures Finalize(d).Ok?
       <==> !d.finalized && forall i :: 0 <= i < |d.picks| && d.picks[i].supersededBy.None? ==> d.picks[i].selection.Some?
  {
    AllDoneIff(d.picks);
    FinalizeIff(d);
  }

  // ----- The two flags -----

  /** Which state each step needs the flags in, and which it leaves them in; nothing else moves them. */
  lemma FlagsAfter(d: Draft, step: Step)
    ensures Attempt(d, step).Ok? ==>
              var d' := Apply(d, step);
              && (d'.paused <==> step.StepPause? || (d.paused && !step.StepResume?))
              && (d'.finalized <==> step.StepFinalize? || (d.finalized && !step.StepReopen?))
              && (step.StepPause? || step.StepResume? || step.StepFinalize? || step.StepReopen? ==>
                    d' == d.(paused := d'.paused, finalized := d'.finalized))
    ensures Attempt(d, StepPause).Ok? <==> !d.finalized && !d.paused
    ensures Attempt(d, StepResume).Ok? <==> !d.finalized && d.paused
    ensures Attempt(d, StepReopen).Ok? <==> d.finalized
    ensures Attempt(d, step).Ok? && (step.StepExecute? || step.StepCorrect?) ==> !d.finalized
    ensures Attempt(d, step).Ok? && step.StepExecute? ==> !d.paused
  {
  }
}
