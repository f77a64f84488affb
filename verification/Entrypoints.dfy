/** What each entrypoint of the contract does, as a function from the state before
    a call to its result. An error leaves no trace: the host discards every write
    of a failed call, so a failed call carries no state at all. */
module Entrypoints {
  import opened Bounded
  import opened Results
  import opened StreamTypes
  import opened Storage
  import opened Vesting

  // ----- Authorisation -----

  /** A signature is needed from the caller. The contract has no key and the host
      refuses re-entry, so its own address never passes. */
  function RequireAuth(s: State, who: Address): Check {
    Need(who != s.self, AuthFailed)
  }

  predicate IsProtocolPaused(s: State) {
    TryLoadConfig(s).Some? && TryLoadConfig(s).value.isProtocolPaused
  }

  // ----- Protocol administration -----

  function Initialize(s: State, admin: Address, treasury: Address, bps: nat): Result<(State, ())> {
    var signed := RequireAuth(s, admin);
    :- signed;
    :- Need(s.config.None?, AlreadyInitialized);
    :- Need(bps <= MAX_FEE_RATE_BPS, InvalidFeeRate);
    var s1 := SaveConfig(s, ProtocolConfig(admin, treasury, bps, false, None));
    var s2 := s1.(version := CURRENT_DATA_VERSION);
    Ok((Emit(s2, Initialized(admin, treasury, bps)), ()))
  }

  function UpdateFeeConfig(s: State, admin: Address, treasury: Address, bps: nat): Result<(State, ())> {
    var signed := RequireAuth(s, admin);
    :- signed;
    var config :- LoadConfig(s);
    :- Need(config.admin == admin, NotAdmin);
    :- Need(bps <= MAX_FEE_RATE_BPS, InvalidFeeRate);
    var s1 := SaveConfig(s, config.(treasury := treasury, feeRateBps := bps));
    Ok((Emit(s1, FeeConfigUpdated(admin, config.treasury, treasury, config.feeRateBps, bps)), ()))
  }

  function SetProtocolPause(s: State, caller: Address, paused: bool): Result<(State, ())> {
    var config :- LoadConfig(s);
    :- RequireAuth(s, caller);
    :- Need(config.admin == caller || (paused && config.emergencyGuardian == Some(caller)),
            if paused then NotGuardian else NotAdmin);
    var s1 := SaveConfig(s, config.(isProtocolPaused := paused));
    Ok((Emit(s1, ProtocolPauseStatus(caller, paused, s.now)), ()))
  }

  function Migrate(s: State, signer: Address, target: nat): Result<(State, ())> {
    var config :- LoadConfig(s);
    :- RequireAuth(s, signer);
    :- Need(signer == config.admin, AuthFailed);
    :- Need(s.version <= CURRENT_DATA_VERSION, StateVersionTooNew);
    :- Need(s.version <= target <= CURRENT_DATA_VERSION, UnsupportedMigration);
    if target == s.version then Ok((s, ()))
    else
      var s1 := SaveConfig(s, config).(version := target);
      Ok((Emit(s1, StateMigrated(config.admin, s.version, target)), ()))
  }

  // ----- Deposits -----

  function FeeOf(amount: i128, bps: nat): int {
    TruncDiv(amount * bps, BPS_DENOMINATOR)
  }

  lemma FeeFits(amount: i128, bps: nat)
    requires amount > 0
    ensures 0 <= FeeOf(amount, bps)
    ensures FitsI128(amount * bps) ==> FeeOf(amount, bps) <= I128_MAX / BPS_DENOMINATOR
  {
    ProductMonotone(0, amount, bps);
  }

  /** Takes the fee out of the tokens just received; returns what is left. */
  function CollectFee(s: State, token: Address, amount: i128, id: u64): Result<(State, i128)>
    requires amount > 0
  {
    match TryLoadConfig(s)
    case None => Ok((s, amount))
    case Some(config) =>
      if config.feeRateBps == 0 then Ok((s, amount))
      else if !FitsI128(amount * config.feeRateBps) then Err(ArithmeticOverflow)
      else
        FeeFits(amount, config.feeRateBps);
        var fee := FeeOf(amount, config.feeRateBps);
        if fee > 0 then
          var s1 :- Transfer(s, token, s.self, config.treasury, fee);
          Ok((Emit(s1, FeeCollected(id, config.treasury, fee, token)), amount - fee))
        else Ok((s, amount - fee))
  }

  /** Gross amount in, fee out; returns the net amount held for the stream. */
  function Deposit(s: State, token: Address, sender: Address, amount: i128, id: u64): Result<(State, i128)>
    requires amount > 0
  {
    var s1 :- Transfer(s, token, sender, s.self, amount);
    CollectFee(s1, token, amount, id)
  }

  function OpenStream(sender: Address, recipient: Address, token: Address, rate: i128, net: i128,
                      now: u64, schedule: VestingSchedule): Stream
  {
    Stream(sender, recipient, token, rate, net, 0, now, now, true, false, None, Active, schedule)
  }

  // What each kind of create does with the net deposit once it is in.

  function OpenLinear(s: State, id: u64, sender: Address, recipient: Address, token: Address, net: i128,
                      duration: u64): Result<(State, u64)>
    requires duration != 0
  {
    TruncDivFits(net, duration);
    var rate := TruncDiv(net, duration);
    :- Need(rate != 0, InvalidRate);
    var s1 := SaveStream(s, id, OpenStream(sender, recipient, token, rate, net, s.now, Linear));
    Ok((Emit(s1, StreamCreated(id, sender, recipient, rate, token, net, s.now)), id))
  }

  function OpenSteps(s: State, id: u64, sender: Address, recipient: Address, token: Address, net: i128,
                     steps: seq<VestingStep>): Result<(State, u64)>
    requires |steps| != 0
  {
    var verdict := ScheduleVerdict(steps, s.now, net);
    if verdict.Some? then Err(verdict.value)
    else
      var last := steps[|steps| - 1].unlockTime;
      var s1 := SaveStream(s, id, OpenStream(sender, recipient, token, 0, net, s.now, StepTranches(steps)));
      Ok((Emit(s1, StepVestingCreated(id, sender, recipient, token, net, |steps|, last)), id))
  }

  function OpenHybrid(s: State, id: u64, sender: Address, recipient: Address, token: Address, net: i128,
                      cliffTime: u64, cliffAmount: i128, linearDuration: u64): Result<(State, u64)>
    requires linearDuration != 0
  {
    var cliffInside := s.now < cliffTime && 0 < cliffAmount < net;
    :- Need(cliffInside, InvalidCliffParameters);
    TruncDivFits(net - cliffAmount, linearDuration);
    var rate := TruncDiv(net - cliffAmount, linearDuration);
    :- Need(rate != 0, InvalidCliffParameters);
    var s1 := SaveStream(s, id,
      OpenStream(sender, recipient, token, rate, net, s.now, HybridCliffLinear(cliffTime, cliffAmount)));
    Ok((Emit(s1, HybridCliffCreated(id, sender, recipient, token, net, cliffTime, cliffAmount, rate)), id))
  }

  function CreateStream(s: State, sender: Address, recipient: Address, token: Address,
                        amount: i128, duration: u64): Result<(State, u64)>
  {
    var signed := RequireAuth(s, sender);
    :- signed;
    :- Need(!IsProtocolPaused(s), ProtocolIsPaused);
    :- Need(amount > 0, InvalidAmount);
    :- Need(duration != 0, InvalidDuration);
    var (s1, id) :- NextStreamId(s);
    var (s3, net) :- Deposit(s1, token, sender, amount, id);
    OpenLinear(s3, id, sender, recipient, token, net, duration)
  }

  function CreateStepVestingStream(s: State, sender: Address, recipient: Address, token: Address,
                                   amount: i128, steps: seq<VestingStep>): Result<(State, u64)>
  {
    var signed := RequireAuth(s, sender);
    :- signed;
    :- Need(!IsProtocolPaused(s), ProtocolIsPaused);
    :- Need(amount > 0, InvalidAmount);
    :- Need(|steps| != 0, EmptyVestingSchedule);
    :- Need(|steps| <= MAX_VESTING_STEPS, TooManyVestingSteps);
    var (s1, id) :- NextStreamId(s);
    var (s3, net) :- Deposit(s1, token, sender, amount, id);
    OpenSteps(s3, id, sender, recipient, token, net, steps)
  }

  function CreateHybridCliffStream(s: State, sender: Address, recipient: Address, token: Address,
                                   amount: i128, cliffTime: u64, cliffAmount: i128,
                                   linearDuration: u64): Result<(State, u64)>
  {
    var signed := RequireAuth(s, sender);
    :- signed;
    :- Need(!IsProtocolPaused(s), ProtocolIsPaused);
    :- Need(amount > 0, InvalidAmount);
    :- Need(linearDuration != 0, InvalidCliffParameters);
    var (s1, id) :- NextStreamId(s);
    var (s3, net) :- Deposit(s1, token, sender, amount, id);
    OpenHybrid(s3, id, sender, recipient, token, net, cliffTime, cliffAmount, linearDuration)
  }

  // ----- End-time projections -----

  /** The figure reported by a top-up: both steps are checked. */
  function ProjectEndTime(now: u64, remaining: i128, rate: i128): Result<u64> {
    var divides := rate != 0 && FitsI128(TruncDiv(remaining, rate));
    :- Need(divides, HostTrap);
    var seconds := TruncDiv(remaining, rate);
    :- Need(FitsU64(seconds) && FitsU64(now + seconds), ArithmeticOverflow);
    Ok(now + seconds)
  }

  function DripEnd(anchor: u64, drippable: i128, rate: i128): u64 {
    if rate <= 0 then anchor
    else SaturatingAddU64(anchor, TruncateU64(Max(drippable, 0) / rate))
  }

  /** The figure reported on request. */
  function ProjectedEndTime(s: Stream): u64 {
    var remaining := SaturatingSub(s.deposited, s.withdrawn);
    match s.schedule
    case StepTranches(steps) => if steps == [] then s.lastUpdate else steps[|steps| - 1].unlockTime
    case HybridCliffLinear(cliffTime, cliffAmount) =>
      var unclaimedCliff := SaturatingSub(cliffAmount, s.withdrawn);
      DripEnd(cliffTime, SaturatingSub(remaining, unclaimedCliff), s.ratePerSecond)
    case Linear => DripEnd(s.pausedAt.UnwrapOr(s.lastUpdate), remaining, s.ratePerSecond)
  }

  /** Undrained balance once everything claimable at `now` is taken out. */
  function Unaccrued(s: Stream, now: u64): i128 {
    SaturatingSub(SaturatingSub(s.deposited, s.withdrawn), Claimable(s, now))
  }

  /** The figure reported by a resume, from the stream with its anchor already
      advanced. Here the quotient is truncated to u64 and only the final addition
      is checked, by trapping. */
  function ResumeEndTime(s: Stream, now: u64, unaccrued: i128): Result<u64> {
    if s.schedule.Linear? then
      :- Need(s.ratePerSecond != 0 && FitsI128(TruncDiv(unaccrued, s.ratePerSecond)), HostTrap);
      var seconds := TruncateU64(TruncDiv(unaccrued, s.ratePerSecond));
      :- Need(FitsU64(now + seconds), HostTrap);
      Ok(now + seconds)
    else Ok(ProjectedEndTime(s.(paused := false, pausedAt := None)))
  }

  // ----- Changes to one stream record -----

  function Credited(stream: Stream, amount: i128, now: u64): Result<Stream> {
    var fits := FitsI128(stream.withdrawn + amount);
    :- Need(fits, ArithmeticOverflow);
    var paid := stream.(withdrawn := stream.withdrawn + amount, lastUpdate := now);
    Ok(if paid.withdrawn >= paid.deposited then paid.(isActive := false, status := Completed) else paid)
  }

  function CancelledStream(stream: Stream, now: u64): Stream {
    var accrued := Claimable(stream, now);
    stream.(withdrawn := if accrued > 0 then SaturatingAdd(stream.withdrawn, accrued) else stream.withdrawn,
            isActive := false, status := Cancelled, paused := false, pausedAt := None, lastUpdate := now)
  }

  function PausedStream(stream: Stream, now: u64): Stream {
    stream.(paused := true, pausedAt := Some(now), status := Paused)
  }

  /** The anchor moves forward by the length of the pause. */
  function Reanchored(stream: Stream, now: u64): Stream {
    var pauseLength := SaturatingSubU64(now, stream.pausedAt.UnwrapOr(now));
    stream.(lastUpdate := SaturatingAddU64(stream.lastUpdate, pauseLength))
  }

  function ResumedStream(stream: Stream, now: u64): Stream {
    Reanchored(stream, now).(paused := false, pausedAt := None, status := Active)
  }

  // ----- Stream operations -----

  /** A stream together with the end time reported for it now. */
  function WithEndTime(stream: Stream, now: u64): Result<(Stream, u64)> {
    var endTime :- ProjectEndTime(now, Unaccrued(stream, now), stream.ratePerSecond);
    Ok((stream, endTime))
  }

  /** The deposit raised by `net`. The anchor stays where it was, so nothing already
      earned is lost. */
  function Funded(stream: Stream, net: i128, now: u64): Result<(Stream, u64)> {
    var fits := FitsI128(stream.deposited + net);
    :- Need(fits, ArithmeticOverflow);
    WithEndTime(stream.(deposited := stream.deposited + net), now)
  }

  function CreditTopUp(s: State, sender: Address, id: u64, stream: Stream, net: i128): Result<(State, ())> {
    var (funded, endTime) :- Funded(stream, net, s.now);
    var s1 := SaveStream(s, id, funded);
    Ok((Emit(s1, StreamToppedUp(id, sender, net, funded.deposited, endTime)), ()))
  }

  function TopUpStream(s: State, sender: Address, id: u64, amount: i128): Result<(State, ())> {
    var signed := RequireAuth(s, sender);
    :- signed;
    :- Need(!IsProtocolPaused(s), ProtocolIsPaused);
    :- Need(amount > 0, InvalidAmount);
    var stream :- LoadStream(s, id);
    :- Need(stream.sender == sender, Unauthorized);
    :- Need(stream.isActive, StreamInactive);
    :- Need(!stream.schedule.StepTranches?, TopUpUnsupported);
    var (s2, net) :- Deposit(s, stream.token, sender, amount, id);
    CreditTopUp(s2, sender, id, stream, net)
  }

  /** Record first, transfer after. */
  function ApplyWithdrawal(s: State, stream: Stream, id: u64, recipient: Address, amount: i128)
    : Result<(State, Stream)>
  {
    var paid :- Credited(stream, amount, s.now);
    var s1 :- Transfer(SaveStream(s, id, paid), paid.token, s.self, recipient, amount);
    Ok((s1, paid))
  }

  function EmitWithdrawal(s: State, stream: Stream, id: u64, recipient: Address, amount: i128): State {
    var s1 := Emit(s, TokensWithdrawn(id, recipient, amount, stream.lastUpdate));
    if stream.status == Completed then Emit(s1, StreamCompleted(id, recipient, stream.withdrawn)) else s1
  }

  function Withdraw(s: State, recipient: Address, id: u64): Result<(State, i128)> {
    var signed := RequireAuth(s, recipient);
    :- signed;
    var stream :- LoadStream(s, id);
    :- Need(stream.recipient == recipient, Unauthorized);
    :- Need(stream.isActive, StreamInactive);
    :- Need(!stream.paused, StreamIsPaused);
    var claimable := Claimable(stream, s.now);
    :- Need(claimable > 0, InvalidAmount);
    var (s1, paid) :- ApplyWithdrawal(s, stream, id, recipient, claimable);
    Ok((EmitWithdrawal(s1, paid, id, recipient, claimable), claimable))
  }

  /** One round of the batch loop. The result of the record update is ignored:
      had it failed, the events would go out all the same. */
  function BatchRound(s: State, recipient: Address, id: u64): Result<(State, Option<i128>)> {
    var stream :- LoadStream(s, id);
    :- Need(stream.recipient == recipient, Unauthorized);
    if !stream.isActive || stream.paused || Claimable(stream, s.now) <= 0 then Ok((s, None))
    else
      var claimable := Claimable(stream, s.now);
      var applied := ApplyWithdrawal(s, stream, id, recipient, claimable);
      if applied == Err(ArithmeticOverflow) then
        Ok((EmitWithdrawal(s, stream, id, recipient, claimable), Some(claimable)))
      else
        var (s1, paid) :- applied;
        Ok((EmitWithdrawal(s1, paid, id, recipient, claimable), Some(claimable)))
  }

  type Payouts = seq<(u64, i128)>

  function BatchLoop(s: State, recipient: Address, ids: seq<u64>, paid: Payouts): Result<(State, Payouts)>
    decreases |ids|
  {
    if ids == [] then Ok((s, paid))
    else
      var (s1, amount) :- BatchRound(s, recipient, ids[0]);
      BatchLoop(s1, recipient, ids[1..], if amount.Some? then paid + [(ids[0], amount.value)] else paid)
  }

  function BatchWithdraw(s: State, recipient: Address, ids: seq<u64>): Result<(State, Payouts)> {
    var signed := RequireAuth(s, recipient);
    :- signed;
    :- Need(|ids| <= MAX_BATCH_WITHDRAW, BatchTooLarge);
    BatchLoop(s, recipient, ids, [])
  }

  function PayIfAny(s: State, token: Address, to: Address, amount: int): Result<State> {
    if amount > 0 then Transfer(s, token, s.self, to, amount) else Ok(s)
  }

  function CancelStream(s: State, sender: Address, id: u64): Result<(State, ())> {
    var signed := RequireAuth(s, sender);
    :- signed;
    var stream :- LoadStream(s, id);
    :- Need(stream.sender == sender, Unauthorized);
    :- Need(stream.isActive, StreamInactive);
    var accrued := Claimable(stream, s.now);
    var closed := CancelledStream(stream, s.now);
    var refund := SaturatingSub(closed.deposited, closed.withdrawn);
    var s1 := SaveStream(s, id, closed);
    var s2 :- PayIfAny(s1, closed.token, closed.recipient, accrued);
    var s3 :- PayIfAny(s2, closed.token, sender, refund);
    Ok((Emit(s3, StreamCancelled(id, sender, closed.recipient, closed.withdrawn, refund)), ()))
  }

  function CloseStream(s: State, caller: Address, id: u64): Result<(State, ())> {
    var signed := RequireAuth(s, caller);
    :- signed;
    var stream :- LoadStream(s, id);
    var isAdmin := TryLoadConfig(s).Some? && TryLoadConfig(s).value.admin == caller;
    :- Need(caller == stream.sender || caller == stream.recipient || isAdmin, Unauthorized);
    :- Need(!stream.isActive, StreamStillActive);
    :- Need(stream.status == Completed || stream.status == Cancelled, StreamStillActive);
    :- Need(stream.status == Completed
              ==> stream.deposited == stream.withdrawn && Claimable(stream, s.now) == 0, StreamStillActive);
    Ok((Emit(RemoveStream(s, id), StreamClosed(id, caller, s.now)), ()))
  }

  function PauseStream(s: State, sender: Address, id: u64): Result<(State, ())> {
    var signed := RequireAuth(s, sender);
    :- signed;
    var stream :- LoadStream(s, id);
    :- Need(stream.sender == sender, Unauthorized);
    :- Need(stream.isActive, StreamInactive);
    :- Need(!stream.paused, StreamAlreadyPaused);
    var s1 := SaveStream(s, id, PausedStream(stream, s.now));
    Ok((Emit(s1, StreamPaused(id, sender, s.now)), ()))
  }

  function ResumeStream(s: State, sender: Address, id: u64): Result<(State, u64)> {
    var signed := RequireAuth(s, sender);
    :- signed;
    var stream :- LoadStream(s, id);
    :- Need(stream.sender == sender, Unauthorized);
    :- Need(stream.isActive, StreamNotActive);
    :- Need(stream.paused, StreamNotPaused);
    var endTime :- ResumeEndTime(Reanchored(stream, s.now), s.now, Unaccrued(stream, s.now));
    var s1 := SaveStream(s, id, ResumedStream(stream, s.now));
    Ok((Emit(s1, StreamResumed(id, sender, endTime)), endTime))
  }

  /** The read-only query for the withdrawable amount. */
  function GetClaimableAmount(s: State, id: u64): Option<i128> {
    match TryLoadStream(s, id)
    case None => None
    case Some(stream) => if !stream.isActive then Some(0) else Some(Claimable(stream, s.now))
  }

  // ----- Calls and runs -----

  datatype Call =
    | CallInitialize(admin: Address, treasury: Address, bps: nat)
    | CallUpdateFeeConfig(admin: Address, treasury: Address, bps: nat)
    | CallSetProtocolPause(caller: Address, paused: bool)
    | CallMigrate(signer: Address, target: nat)
    | CallCreateLinear(sender: Address, recipient: Address, token: Address, amount: i128, duration: u64)
    | CallCreateStep(sender: Address, recipient: Address, token: Address, amount: i128,
                     steps: seq<VestingStep>)
    | CallCreateHybrid(sender: Address, recipient: Address, token: Address, amount: i128,
                       cliffTime: u64, cliffAmount: i128, linearDuration: u64)
    | CallTopUp(sender: Address, id: u64, amount: i128)
    | CallWithdraw(recipient: Address, id: u64)
    | CallBatchWithdraw(recipient: Address, ids: seq<u64>)
    | CallCancel(sender: Address, id: u64)
    | CallClose(caller: Address, id: u64)
    | CallPause(sender: Address, id: u64)
    | CallResume(sender: Address, id: u64)

  datatype Response = Done | Number(n: int) | Paid(payouts: Payouts) | Failed(error: Error)

  function Finish<T>(s: State, r: Result<(State, T)>, respond: T -> Response): (State, Response) {
    match r
    case Ok((after, value)) => (after, respond(value))
    case Err(error) => (s, Failed(error))
  }

  function Exec(s: State, call: Call): (State, Response) {
    match call
    case CallInitialize(admin, treasury, bps) => Finish(s, Initialize(s, admin, treasury, bps), _ => Done)
    case CallUpdateFeeConfig(admin, treasury, bps) =>
      Finish(s, UpdateFeeConfig(s, admin, treasury, bps), _ => Done)
    case CallSetProtocolPause(caller, paused) => Finish(s, SetProtocolPause(s, caller, paused), _ => Done)
    case CallMigrate(signer, target) => Finish(s, Migrate(s, signer, target), _ => Done)
    case CallCreateLinear(sender, recipient, token, amount, duration) =>
      Finish(s, CreateStream(s, sender, recipient, token, amount, duration), (id: u64) => Number(id))
    case CallCreateStep(sender, recipient, token, amount, steps) =>
      Finish(s, CreateStepVestingStream(s, sender, recipient, token, amount, steps), (id: u64) => Number(id))
    case CallCreateHybrid(sender, recipient, token, amount, cliffTime, cliffAmount, linearDuration) =>
      Finish(s, CreateHybridCliffStream(s, sender, recipient, token, amount, cliffTime, cliffAmount,
                                        linearDuration), (id: u64) => Number(id))
    case CallTopUp(sender, id, amount) => Finish(s, TopUpStream(s, sender, id, amount), _ => Done)
    case CallWithdraw(recipient, id) => Finish(s, Withdraw(s, recipient, id), (a: i128) => Number(a))
    case CallBatchWithdraw(recipient, ids) =>
      Finish(s, BatchWithdraw(s, recipient, ids), (p: Payouts) => Paid(p))
    case CallCancel(sender, id) => Finish(s, CancelStream(s, sender, id), _ => Done)
    case CallClose(caller, id) => Finish(s, CloseStream(s, caller, id), _ => Done)
    case CallPause(sender, id) => Finish(s, PauseStream(s, sender, id), _ => Done)
    case CallResume(sender, id) => Finish(s, ResumeStream(s, sender, id), (t: u64) => Number(t))
  }

  /** One step of a run: a call in some transaction, the passing of time, or a
      token movement the contract takes no part in as payer. */
  datatype Step =
    | Invoke(tx: TxHash, call: Call)
    | Tick(seconds: nat)
    | Mint(token: Address, to: Address, amount: Amount)
    | Send(token: Address, from: Address, to: Address, amount: Amount)

  function Advance(s: State, step: Step): State {
    match step
    case Invoke(tx, call) => Exec(s.(tx := tx), call).0
    case Tick(d) => if FitsU64(s.now + d) then s.(now := s.now + d) else s
    case Mint(token, to, amount) =>
      if Balance(s, token, to) + amount > I128_MAX then s
      else s.(balances := s.balances[(token, to) := Balance(s, token, to) + amount])
    case Send(token, from, to, amount) =>
      if from == s.self || Transfer(s, token, from, to, amount).Err? then s
      else Transfer(s, token, from, to, amount).value
  }

  function Run(s: State, steps: seq<Step>): State {
    if steps == [] then s else Advance(Run(s, steps[..|steps| - 1]), steps[|steps| - 1])
  }

  lemma RunSnoc(s: State, steps: seq<Step>, last: Step)
    ensures Run(s, steps + [last]) == Advance(Run(s, steps), last)
  {
    assert (steps + [last])[..|steps|] == steps;
  }
}
