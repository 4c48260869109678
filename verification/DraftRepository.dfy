/** The draft repository: each method one transaction over the pick, draft and ownership rows. */
module DraftRepository {
  import opened Options
  import opened DraftLedger
  import opened DraftInvariant
  import opened DraftSteps
  import opened DraftSnake
  import opened DraftTheorems

  class DraftDatabase {
    const order: seq<Entry>
    const target: nat
    const pool: map<Player, bool>
    var picks: seq<Pick>
    var periods: seq<Period>
    var paused: bool
    var finalized: bool

    function Tables(): Draft
      reads this
    {
      Draft(order, target, pool, picks, periods, paused, finalized)
    }

    /** Materialise every pick of an acceptable order, over empty squads. */
    constructor (ordered: seq<Entry>, squad: nat, players: map<Player, bool>)
      requires AcceptOrder(ordered, squad, players).Ok?
      ensures Tables() == AcceptOrder(ordered, squad, players).value && Inv(Tables())
    {
      order, target, pool := ordered, squad, players;
      picks, periods, paused, finalized := [], [], false, false;
      new;
      var snake := SnakeAllocations(ordered, squad);
      var allocations := snake.value;
      for k := 0 to |allocations|
        invariant picks == FreshPicks(allocations[..k])
        invariant periods == [] && !paused && !finalized
      {
        assert allocations[..k + 1] == allocations[..k] + [allocations[k]];
        picks := picks + [FreshPick(allocations[k])];
      }
      assert allocations[..|allocations|] == allocations;
      AcceptedKeeps(ordered, squad, players);
    }

    /** Record a period for a player nobody owns, in a squad with room. */
    method AcquireInTransaction(player: Player, entry: Entry, at: int) returns (r: Result<(), Refusal>)
      modifies this`periods
      ensures r.Ok? == Acquire(old(Tables()), player, entry, at).Ok?
      ensures r.Ok? ==> periods == Acquire(old(Tables()), player, entry, at).value
      ensures r.Err? ==> periods == old(periods) && r.error == Acquire(old(Tables()), player, entry, at).error
    {
      if player !in pool || entry !in order { return Err(NoSuchRow); }
      if !pool[player] || Overlaps(periods, player, at) { return Err(PlayerUnavailable); }
      var maximum := SquadAt(periods, entry, at);
      for i := 0 to |periods|
        invariant maximum == MaximumSquad(periods, i, entry, at)
      {
        if periods[i].entry == entry && periods[i].acquired >= at {
          var count := SquadAt(periods, entry, periods[i].acquired);
          if count > maximum { maximum := count; }
        }
      }
      if maximum + 1 > target { return Err(SquadFull); }
      periods := periods + [Period(player, entry, at, None)];
      return Ok(());
    }

    method ReleaseInTransaction(player: Player, at: int) returns (r: Result<(), Refusal>)
      modifies this`periods
      ensures r.Ok? == Release(old(periods), player, at).Ok?
      ensures r.Ok? ==> periods == Release(old(periods), player, at).value
      ensures r.Err? ==> periods == old(periods) && r.error == Release(old(periods), player, at).error
    {
      var current := OpenPeriod(periods, player);
      if current.None? { return Err(NotOwned); }
      if at <= periods[current.value].acquired { return Err(BadRelease); }
      periods := periods[current.value := periods[current.value].(released := Some(at))];
      return Ok(());
    }

    /** Select a player with the next pick: the acquisition and the pick commit together. */
    method ExecutePick(entry: Entry, player: Player, pick: Option<nat>, at: int) returns (r: Result<(), Refusal>)
      modifies this
      ensures Tables() == Apply(old(Tables()), StepExecute(entry, player, pick, at))
      ensures r.Ok? == Attempt(old(Tables()), StepExecute(entry, player, pick, at)).Ok?
      ensures r.Err? ==> r.error == Attempt(old(Tables()), StepExecute(entry, player, pick, at)).error
    {
      if finalized { return Err(Finalized); }
      if paused { return Err(Paused); }
      var next := NextPick(picks);
      if next.None? { return Err(NoExecutablePick); }
      var i := next.value;
      if pick.Some? && pick.value != i {
        if pick.value < |picks| && picks[pick.value].selection.Some? { return Err(PickCompleted); }
        return Err(NotYourTurn);
      }
      if picks[i].current != entry { return Err(NotYourTurn); }
      r := AcquireInTransaction(player, entry, at);
      if r.Ok? { picks := picks[i := picks[i].(selection := Some(Selection(player, at)))]; }
    }

    /** Undo the latest completed pick: release, supersede, and open the slot again. */
    method CorrectPick(row: nat, at: int) returns (r: Result<(), Refusal>)
      modifies this
      ensures Tables() == Apply(old(Tables()), StepCorrect(row, at))
      ensures r.Ok? == Attempt(old(Tables()), StepCorrect(row, at)).Ok?
      ensures r.Err? ==> r.error == Attempt(old(Tables()), StepCorrect(row, at)).error
    {
      if finalized { return Err(Finalized); }
      if row >= |picks| { return Err(NoSuchRow); }
      var original := picks[row];
      if original.supersededBy.Some? { return Err(AlreadyCorrected); }
      if original.selection.None? { return Err(NotComplete); }
      if LaterDone(picks, original.overall) { return Err(NotLatest); }
      if !StillOwned(Tables(), original) { return Err(OwnershipMoved); }
      r := ReleaseInTransaction(original.selection.value.player, at);
      if r.Err? { return; }
      var replacement := |picks|;
      picks := picks[row := original.(supersededBy := Some(replacement))];
      picks := picks + [original.(selection := None)];
    }

    method TransferPick(row: nat, to: Entry) returns (r: Result<(), Refusal>)
      modifies this
      ensures Tables() == Apply(old(Tables()), StepTransfer(row, to))
      ensures r.Ok? == Attempt(old(Tables()), StepTransfer(row, to)).Ok?
      ensures r.Err? ==> r.error == Attempt(old(Tables()), StepTransfer(row, to)).error
    {
      if row >= |picks| || to !in order { return Err(NoSuchRow); }
      if picks[row].selection.Some? { return Err(PickCompleted); }
      if picks[row].current == to { return Err(SameOwner); }
      picks := picks[row := picks[row].(current := to)];
      return Ok(());
    }

    method Pause() returns (r: Result<(), Refusal>)
      modifies this`paused
      ensures Tables() == Apply(old(Tables()), StepPause)
      ensures r.Ok? == Attempt(old(Tables()), StepPause).Ok?
      ensures r.Err? ==> r.error == Attempt(old(Tables()), StepPause).error
    {
      if finalized { return Err(Finalized); }
      if paused { return Err(Paused); }
      paused := true;
      return Ok(());
    }

    method Resume() returns (r: Result<(), Refusal>)
      modifies this`paused
      ensures Tables() == Apply(old(Tables()), StepResume)
      ensures r.Ok? == Attempt(old(Tables()), StepResume).Ok?
      ensures r.Err? ==> r.error == Attempt(old(Tables()), StepResume).error
    {
      if finalized { return Err(Finalized); }
      if !paused { return Err(NotPaused); }
      paused := false;
      return Ok(());
    }

    /** Freeze a complete draft, counting picks and then every squad. */
    method Finalize() returns (r: Result<(), Refusal>)
      modifies this`finalized
      ensures Tables() == Apply(old(Tables()), StepFinalize)
      ensures r.Ok? == Attempt(old(Tables()), StepFinalize).Ok?
      ensures r.Err? ==> r.error == Attempt(old(Tables()), StepFinalize).error
      ensures Inv(old(Tables())) ==> (r.Ok? <==> !old(finalized) && CountDone(picks) == |order| * target)
    {
      if Inv(Tables()) { FinalizeIff(Tables()); }
      if finalized { return Err(Finalized); }
      if CountActive(picks) == 0 || CountDone(picks) != CountActive(picks) { return Err(NotComplete); }
      for i := 0 to |order|
        invariant forall j :: 0 <= j < i ==> OpenCount(periods, order[j]) == target
      {
        if OpenCount(periods, order[i]) != target {
          assert Uneven(Tables()) by { assert order[i] in order; }
          return Err(UnevenSquads);
        }
      }
      finalized := true;
      return Ok(());
    }

    method Reopen() returns (r: Result<(), Refusal>)
      modifies this`finalized
      ensures Tables() == Apply(old(Tables()), StepReopen)
      ensures r.Ok? == Attempt(old(Tables()), StepReopen).Ok?
      ensures r.Err? ==> r.error == Attempt(old(Tables()), StepReopen).error
    {
      if !finalized { return Err(NotFinalized); }
      finalized := false;
      return Ok(());
    }
  }
}
