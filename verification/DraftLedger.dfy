/**
 The draft ledger and the ownership periods it drives: rows as sequences, each
 transaction as a total function from the tables before to those after.
 */
module DraftLedger {
  import opened Options

  type Entry = nat
  type Player = nat

  /** What a completed pick records; both columns are null together. */
  datatype Selection = Selection(player: Player, at: int)

  /** draft_pick */
  datatype Pick = Pick(overall: nat, round: nat, position: nat, original: Entry, current: Entry,
                       selection: Option<Selection>, supersededBy: Option<nat>)

  /** player_ownership_period */
  datatype Period = Period(player: Player, entry: Entry, acquired: int, released: Option<int>)

  datatype Draft = Draft(order: seq<Entry>, target: nat, pool: map<Player, bool>,
                         picks: seq<Pick>, periods: seq<Period>, paused: bool, finalized: bool)

  datatype Refusal =
    | BadOrder | Finalized | Paused | NotPaused | NotFinalized | NoExecutablePick | PickCompleted | NotYourTurn
    | NoSuchRow | PlayerUnavailable | SquadFull | NotOwned | BadRelease | AlreadyCorrected | NotLatest
    | OwnershipMoved | SameOwner | NotComplete | UnevenSquads

  // ----- Reading the picks -----

  predicate Active(p: Pick) {
    p.supersededBy.None?
  }

  predicate Done(p: Pick) {
    Active(p) && p.selection.Some?
  }

  /** The first row, by overall number, with no completed selection; superseded rows are not filtered out. */
  function NextPick(picks: seq<Pick>): (r: Option<nat>)
    ensures r.Some? ==> r.value < |picks| && picks[r.value].selection.None?
    ensures r.Some? ==> forall i :: 0 <= i < |picks| && picks[i].selection.None? ==> picks[r.value].overall <= picks[i].overall
    ensures r.None? ==> forall i :: 0 <= i < |picks| ==> picks[i].selection.Some?
  {
    if picks == [] then None
    else
      var n := |picks| - 1;
      var best := NextPick(picks[..n]);
      if picks[n].selection.Some? then best
      else if best.Some? && picks[best.value].overall <= picks[n].overall then best
      else Some(n)
  }

  /** The active row of a slot. */
  function ActiveRow(picks: seq<Pick>, overall: nat): (r: Option<nat>)
    ensures r.Some? ==> r.value < |picks| && Active(picks[r.value]) && picks[r.value].overall == overall
    ensures r.None? ==> forall i :: 0 <= i < |picks| ==> !(Active(picks[i]) && picks[i].overall == overall)
  {
    if picks == [] then None
    else
      var n := |picks| - 1;
      if Active(picks[n]) && picks[n].overall == overall then Some(n) else ActiveRow(picks[..n], overall)
  }

  function CountActive(picks: seq<Pick>): nat {
    if picks == [] then 0
    else CountActive(picks[..|picks| - 1]) + if Active(picks[|picks| - 1]) then 1 else 0
  }

  function CountDone(picks: seq<Pick>): nat {
    if picks == [] then 0
    else CountDone(picks[..|picks| - 1]) + if Done(picks[|picks| - 1]) then 1 else 0
  }

  // ----- Ownership -----

  /** Periods of an entry in force at an instant; periods are half open. */
  function SquadAt(periods: seq<Period>, entry: Entry, at: int): nat {
    if periods == [] then 0
    else
      var p := periods[|periods| - 1];
      SquadAt(periods[..|periods| - 1], entry, at)
      + if p.entry == entry && p.acquired <= at && (p.released.None? || p.released.value > at) then 1 else 0
  }

  /** The largest squad at `from` or at any later acquisition of the first `upTo` periods. */
  function MaximumSquad(periods: seq<Period>, upTo: nat, entry: Entry, from: int): nat
    requires upTo <= |periods|
  {
    if upTo == 0 then SquadAt(periods, entry, from)
    else
      var best := MaximumSquad(periods, upTo - 1, entry, from);
      var p := periods[upTo - 1];
      if p.entry == entry && p.acquired >= from && SquadAt(periods, entry, p.acquired) > best
      then SquadAt(periods, entry, p.acquired) else best
  }

  predicate Overlaps(periods: seq<Period>, player: Player, at: int) {
    exists i :: 0 <= i < |periods| && periods[i].player == player && (periods[i].released.None? || periods[i].released.value > at)
  }

  function Acquire(d: Draft, player: Player, entry: Entry, at: int): Result<seq<Period>, Refusal> {
    if player !in d.pool || entry !in d.order then Err(NoSuchRow)
    else if !d.pool[player] || Overlaps(d.periods, player, at) then Err(PlayerUnavailable)
    else if MaximumSquad(d.periods, |d.periods|, entry, at) + 1 > d.target then Err(SquadFull)
    else Ok(d.periods + [Period(player, entry, at, None)])
  }

  /** The open period of a player. */
  function OpenPeriod(periods: seq<Period>, player: Player): (r: Option<nat>)
    ensures r.Some? ==> r.value < |periods| && periods[r.value].player == player && periods[r.value].released.None?
    ensures r.None? ==> forall i :: 0 <= i < |periods| ==> !(periods[i].player == player && periods[i].released.None?)
  {
    if periods == [] then None
    else
      var n := |periods| - 1;
      if periods[n].player == player && periods[n].released.None? then Some(n) else OpenPeriod(periods[..n], player)
  }

  function Release(periods: seq<Period>, player: Player, at: int): Result<seq<Period>, Refusal> {
    match OpenPeriod(periods, player)
    case None => Err(NotOwned)
    case Some(i) =>
      if at <= periods[i].acquired then Err(BadRelease)
      else Ok(periods[i := periods[i].(released := Some(at))])
  }

  function OpenCount(periods: seq<Period>, entry: Entry): nat {
    if periods == [] then 0
    else OpenCount(periods[..|periods| - 1], entry)
         + if periods[|periods| - 1].entry == entry && periods[|periods| - 1].released.None? then 1 else 0
  }

  // ----- The snake -----

  /** Overall number, round, position and entry of each pick; even rounds run backwards. */
  datatype Allocation = Allocation(overall: nat, round: nat, position: nat, entry: Entry)

  predicate Distinct(es: seq<Entry>) {
    forall i, j :: 0 <= i < j < |es| ==> es[i] != es[j]
  }

  function AllocationAt(entries: seq<Entry>, round: nat, position: nat): Allocation
    requires round >= 1 && 1 <= position <= |entries|
  {
    Allocation((round - 1) * |entries| + position, round, position,
               if round % 2 == 1 then entries[position - 1] else entries[|entries| - position])
  }

  function SnakeRound(entries: seq<Entry>, round: nat): (r: seq<Allocation>)
    requires round >= 1
    ensures |r| == |entries|
  {
    seq(|entries|, i requires 0 <= i < |entries| => AllocationAt(entries, round, i + 1))
  }

  function Snake(entries: seq<Entry>, target: nat): (r: seq<Allocation>)
    ensures |r| == |entries| * target
  {
    if target == 0 then [] else
      assert |entries| * target == |entries| * (target - 1) + |entries|;
      Snake(entries, target - 1) + SnakeRound(entries, target)
  }

  function FreshPick(a: Allocation): Pick {
    Pick(a.overall, a.round, a.position, a.entry, a.entry, None, None)
  }

  function FreshPicks(allocations: seq<Allocation>): (r: seq<Pick>)
    ensures |r| == |allocations|
    ensures forall i :: 0 <= i < |r| ==> r[i] == FreshPick(allocations[i])
  {
    seq(|allocations|, i requires 0 <= i < |allocations| => FreshPick(allocations[i]))
  }

  /** Accept a complete order over empty squads and materialise every pick. */
  function AcceptOrder(order: seq<Entry>, target: nat, pool: map<Player, bool>): Result<Draft, Refusal> {
    if order == [] || target == 0 || !Distinct(order) then Err(BadOrder)
    else Ok(Draft(order, target, pool, FreshPicks(Snake(order, target)), [], false, false))
  }

  // ----- Transactions -----

  function ExecutePick(d: Draft, entry: Entry, player: Player, pick: Option<nat>, at: int): Result<Draft, Refusal> {
    if d.finalized then Err(Finalized)
    else if d.paused then Err(Paused)
    else match NextPick(d.picks)
      case None => Err(NoExecutablePick)
      case Some(i) =>
        if pick.Some? && pick.value != i then
          if pick.value < |d.picks| && d.picks[pick.value].selection.Some? then Err(PickCompleted) else Err(NotYourTurn)
        else if d.picks[i].current != entry then Err(NotYourTurn)
        else
          var periods :- Acquire(d, player, entry, at);
          Ok(d.(picks := d.picks[i := d.picks[i].(selection := Some(Selection(player, at)))], periods := periods))
  }

  predicate LaterDone(picks: seq<Pick>, overall: nat) {
    exists i :: 0 <= i < |picks| && Done(picks[i]) && picks[i].overall > overall
  }

  /** The open period of the player is still the one this pick created. */
  predicate StillOwned(d: Draft, p: Pick)
    requires p.selection.Some?
  {
    var i := OpenPeriod(d.periods, p.selection.value.player);
    i.Some? && d.periods[i.value].entry == p.current && d.periods[i.value].acquired == p.selection.value.at
  }

  /** Undo the most recently completed pick and open its slot afresh. */
  function CorrectPick(d: Draft, row: nat, at: int): Result<Draft, Refusal> {
    if d.finalized then Err(Finalized)
    else if row >= |d.picks| then Err(NoSuchRow)
    else
      var p := d.picks[row];
      if p.supersededBy.Some? then Err(AlreadyCorrected)
      else if p.selection.None? then Err(NotComplete)
      else if LaterDone(d.picks, p.overall) then Err(NotLatest)
      else if !StillOwned(d, p) then Err(OwnershipMoved)
      else
        var periods :- Release(d.periods, p.selection.value.player, at);
        Ok(d.(picks := d.picks[row := p.(supersededBy := Some(|d.picks|))] + [p.(selection := None)], periods := periods))
  }

  /** Has no check of its own on pausing or finalisation. */
  function TransferPick(d: Draft, row: nat, to: Entry): Result<Draft, Refusal> {
    if row >= |d.picks| || to !in d.order then Err(NoSuchRow)
    else if d.picks[row].selection.Some? then Err(PickCompleted)
    else if d.picks[row].current == to then Err(SameOwner)
    else Ok(d.(picks := d.picks[row := d.picks[row].(current := to)]))
  }

  function Pause(d: Draft): Result<Draft, Refusal> {
    if d.finalized then Err(Finalized) else if d.paused then Err(Paused) else Ok(d.(paused := true))
  }

  function Resume(d: Draft): Result<Draft, Refusal> {
    if d.finalized then Err(Finalized) else if !d.paused then Err(NotPaused) else Ok(d.(paused := false))
  }

  predicate Uneven(d: Draft) {
    exists e :: e in d.order && OpenCount(d.periods, e) != d.target
  }

  function Finalize(d: Draft): Result<Draft, Refusal> {
    if d.finalized then Err(Finalized)
    else if CountActive(d.picks) == 0 || CountDone(d.picks) != CountActive(d.picks) then Err(NotComplete)
    else if Uneven(d) then Err(UnevenSquads)
    else Ok(d.(finalized := true))
  }

  function Reopen(d: Draft): Result<Draft, Refusal> {
    if !d.finalized then Err(NotFinalized) else Ok(d.(finalized := false))
  }

  // ----- Runs -----

  datatype Step =
    | StepExecute(entry: Entry, player: Player, pick: Option<nat>, at: int)
    | StepCorrect(row: nat, at: int)
    | StepTransfer(row: nat, to: Entry)
    | StepPause | StepResume | StepFinalize | StepReopen

  function Attempt(d: Draft, step: Step): Result<Draft, Refusal> {
    match step
    case StepExecute(e, p, i, at) => ExecutePick(d, e, p, i, at)
    case StepCorrect(r, at) => CorrectPick(d, r, at)
    case StepTransfer(r, to) => TransferPick(d, r, to)
    case StepPause => Pause(d)
    case StepResume => Resume(d)
    case StepFinalize => Finalize(d)
    case StepReopen => Reopen(d)
  }

  function Apply(d: Draft, step: Step): Draft {
    match Attempt(d, step)
    case Ok(d') => d'
    case Err(_) => d
  }

  function Run(d: Draft, steps: seq<Step>): Draft
    decreases |steps|
  {
    if steps == [] then d else Run(Apply(d, steps[0]), steps[1..])
  }
}
