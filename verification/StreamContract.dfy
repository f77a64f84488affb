/** The contract as it runs: one object whose store, balances and event log are
    updated in place, step by step, and restored when a call fails. Every method
    is proved equal to its function in Entrypoints. */
module StreamContracts {
  import opened Bounded
  import opened Results
  import opened StreamTypes
  import opened Storage
  import opened Vesting
  import Spec = Entrypoints

  /** A call did what its specification says: on success both the new state and the
      answer agree; on failure the error agrees and nothing has changed. */
  ghost predicate Agrees<T>(before: State, spec: Result<(State, T)>, after: State, r: Result<T>) {
    match spec
    case Ok((expected, value)) => after == expected && r == Ok(value)
    case Err(e) => after == before && r == Err(e)
  }

  class StreamContract {
    const self: Address
    var now: u64
    var tx: TxHash
    var records: map<u64, StoredStream>
    var counter: u64
    var config: Option<StoredConfig>
    var version: nat
    var balances: Ledger
    var log: seq<LogEntry>

    function View(): State
      reads this
    {
      State(self, now, tx, records, counter, config, version, balances, log)
    }

    constructor (s: State)
      ensures View() == s
    {
      self := s.self;
      now, tx, records, counter := s.now, s.tx, s.records, s.counter;
      config, version, balances, log := s.config, s.version, s.balances, s.log;
    }

    // ----- Host and storage operations -----

    method Rollback(saved: State)
      requires saved.self == self
      modifies this
      ensures View() == saved
    {
      now, tx, records, counter := saved.now, saved.tx, saved.records, saved.counter;
      config, version, balances, log := saved.config, saved.version, saved.balances, saved.log;
    }

    method NextStreamId() returns (r: Result<u64>)
      modifies this`counter
      ensures Agrees(old(View()), Storage.NextStreamId(old(View())), View(), r)
    {
      if counter == U64_MAX {
        return Err(HostTrap);
      }
      counter := counter + 1;
      r := Ok(counter);
    }

    method SaveStream(id: u64, stream: Stream)
      modifies this`records
      ensures View() == Storage.SaveStream(old(View()), id, stream)
    {
      records := records[id := CurrentStream(stream)];
    }

    method RemoveStream(id: u64)
      modifies this`records
      ensures View() == Storage.RemoveStream(old(View()), id)
    {
      records := records - {id};
    }

    method SaveConfig(c: ProtocolConfig)
      modifies this`config
      ensures View() == Storage.SaveConfig(old(View()), c)
    {
      config := Some(CurrentConfig(c));
    }

    method Publish(event: Event)
      modifies this`log
      ensures View() == Emit(old(View()), event)
    {
      log := log + [LogEntry(tx, event)];
    }

    /** Debits, then credits; a refused credit leaves the debit for the caller to
        roll back. */
    method Transfer(token: Address, from: Address, to: Address, amount: int) returns (ok: bool)
      modifies this`balances
      ensures ok == Storage.Transfer(old(View()), token, from, to, amount).Ok?
      ensures ok ==> View() == Storage.Transfer(old(View()), token, from, to, amount).value
    {
      var held := Balance(View(), token, from);
      if amount < 0 || held < amount {
        return false;
      }
      balances := balances[(token, from) := held - amount];
      var receiving := Balance(View(), token, to);
      if receiving + amount > I128_MAX {
        return false;
      }
      balances := balances[(token, to) := receiving + amount];
      return true;
    }

    method CollectFee(token: Address, amount: i128, id: u64) returns (r: Result<i128>)
      requires amount > 0
      modifies this`balances, this`log
      ensures r == match Spec.CollectFee(old(View()), token, amount, id)
                   case Ok((_, net)) => Ok(net)
                   case Err(e) => Err(e)
      ensures r.Ok? ==> View() == Spec.CollectFee(old(View()), token, amount, id).value.0
    {
      var loaded := TryLoadConfig(View());
      if loaded.None? || loaded.value.feeRateBps == 0 {
        return Ok(amount);
      }
      var product := amount * loaded.value.feeRateBps;
      if !FitsI128(product) {
        return Err(ArithmeticOverflow);
      }
      Spec.FeeFits(amount, loaded.value.feeRateBps);
      var fee := TruncDiv(product, BPS_DENOMINATOR);
      if fee > 0 {
        var ok := Transfer(token, self, loaded.value.treasury, fee);
        if !ok {
          return Err(HostTrap);
        }
        Publish(FeeCollected(id, loaded.value.treasury, fee, token));
      }
      return Ok(amount - fee);
    }

    method Deposit(token: Address, sender: Address, amount: i128, id: u64) returns (r: Result<i128>)
      requires amount > 0
      modifies this`balances, this`log
      ensures r == match Spec.Deposit(old(View()), token, sender, amount, id)
                   case Ok((_, net)) => Ok(net)
                   case Err(e) => Err(e)
      ensures r.Ok? ==> View() == Spec.Deposit(old(View()), token, sender, amount, id).value.0
    {
      var ok := Transfer(token, sender, self, amount);
      if !ok {
        return Err(HostTrap);
      }
      r := CollectFee(token, amount, id);
    }

    // ----- Administration -----

    method Initialize(admin: Address, treasury: Address, bps: nat) returns (r: Result<()>)
      modifies this
      ensures Agrees(old(View()), Spec.Initialize(old(View()), admin, treasury, bps), View(), r)
    {
      if admin == self {
        return Err(AuthFailed);
      }
      if config.Some? {
        return Err(AlreadyInitialized);
      }
      if bps > MAX_FEE_RATE_BPS {
        return Err(InvalidFeeRate);
      }
      SaveConfig(ProtocolConfig(admin, treasury, bps, false, None));
      version := CURRENT_DATA_VERSION;
      Publish(Initialized(admin, treasury, bps));
      return Ok(());
    }

    method UpdateFeeConfig(admin: Address, treasury: Address, bps: nat) returns (r: Result<()>)
      modifies this
      ensures Agrees(old(View()), Spec.UpdateFeeConfig(old(View()), admin, treasury, bps), View(), r)
    {
      if admin == self {
        return Err(AuthFailed);
      }
      var loaded := TryLoadConfig(View());
      if loaded.None? {
        return Err(NotInitialized);
      }
      var c := loaded.value;
      if c.admin != admin {
        return Err(NotAdmin);
      }
      if bps > MAX_FEE_RATE_BPS {
        return Err(InvalidFeeRate);
      }
      SaveConfig(ProtocolConfig(c.admin, treasury, bps, c.isProtocolPaused, c.emergencyGuardian));
      Publish(FeeConfigUpdated(admin, c.treasury, treasury, c.feeRateBps, bps));
      return Ok(());
    }

    method SetProtocolPause(caller: Address, paused: bool) returns (r: Result<()>)
      modifies this
      ensures Agrees(old(View()), Spec.SetProtocolPause(old(View()), caller, paused), View(), r)
    {
      var loaded := TryLoadConfig(View());
      if loaded.None? {
        return Err(NotInitialized);
      }
      var c := loaded.value;
      if caller == self {
        return Err(AuthFailed);
      }
      var authorized := c.admin == caller || (paused && c.emergencyGuardian == Some(caller));
      if !authorized {
        return Err(if paused then NotGuardian else NotAdmin);
      }
      SaveConfig(c.(isProtocolPaused := paused));
      Publish(ProtocolPauseStatus(caller, paused, now));
      return Ok(());
    }

    method Migrate(signer: Address, target: nat) returns (r: Result<()>)
      modifies this
      ensures Agrees(old(View()), Spec.Migrate(old(View()), signer, target), View(), r)
    {
      var loaded := TryLoadConfig(View());
      if loaded.None? {
        return Err(NotInitialized);
      }
      if signer == self || signer != loaded.value.admin {
        return Err(AuthFailed);
      }
      var current := version;
      if current > CURRENT_DATA_VERSION {
        return Err(StateVersionTooNew);
      }
      if target > CURRENT_DATA_VERSION || target < current {
        return Err(UnsupportedMigration);
      }
      if target == current {
        return Ok(());
      }
      SaveConfig(loaded.value);
      version := target;
      Publish(StateMigrated(loaded.value.admin, current, target));
      return Ok(());
    }

    // ----- Tokens in -----

    method CreateStream(sender: Address, recipient: Address, token: Address, amount: i128, duration: u64)
      returns (r: Result<u64>)
      modifies this
      ensures Agrees(old(View()), Spec.CreateStream(old(View()), sender, recipient, token, amount, duration), View(), r)
    {
      if sender == self {
        return Err(AuthFailed);
      }
      if Spec.IsProtocolPaused(View()) {
        return Err(ProtocolIsPaused);
      }
      if amount <= 0 {
        return Err(InvalidAmount);
      }
      if duration == 0 {
        return Err(InvalidDuration);
      }
      var saved := View();
      var id :- NextStreamId();
      var deposited := Deposit(token, sender, amount, id);
      if deposited.Err? {
        Rollback(saved);
        return Err(deposited.error);
      }
      var net := deposited.value;
      TruncDivFits(net, duration);
      var rate := TruncDiv(net, duration);
      if rate == 0 {
        Rollback(saved);
        return Err(InvalidRate);
      }
      SaveStream(id, Spec.OpenStream(sender, recipient, token, rate, net, now, Linear));
      Publish(StreamCreated(id, sender, recipient, rate, token, net, now));
      return Ok(id);
    }

    method CreateStepVestingStream(sender: Address, recipient: Address, token: Address, amount: i128,
                                   steps: seq<VestingStep>)
      returns (r: Result<u64>)
      modifies this
      ensures Agrees(old(View()), Spec.CreateStepVestingStream(old(View()), sender, recipient, token, amount, steps),
                     View(), r)
    {
      if sender == self {
        return Err(AuthFailed);
      }
      if Spec.IsProtocolPaused(View()) {
        return Err(ProtocolIsPaused);
      }
      if amount <= 0 {
        return Err(InvalidAmount);
      }
      var stepCount := |steps|;
      if stepCount == 0 {
        return Err(EmptyVestingSchedule);
      }
      if stepCount > MAX_VESTING_STEPS {
        return Err(TooManyVestingSteps);
      }
      var saved := View();
      var id :- NextStreamId();
      var deposited := Deposit(token, sender, amount, id);
      if deposited.Err? {
        Rollback(saved);
        return Err(deposited.error);
      }
      var net := deposited.value;
      var verdict := ValidateStepSchedule(steps, now, net);
      if verdict.Some? {
        Rollback(saved);
        return Err(verdict.value);
      }
      SaveStream(id, Spec.OpenStream(sender, recipient, token, 0, net, now, StepTranches(steps)));
      Publish(StepVestingCreated(id, sender, recipient, token, net, stepCount, steps[stepCount - 1].unlockTime));
      return Ok(id);
    }

    method CreateHybridCliffStream(sender: Address, recipient: Address, token: Address, amount: i128,
                                   cliffTime: u64, cliffAmount: i128, linearDuration: u64)
      returns (r: Result<u64>)
      modifies this
      ensures Agrees(old(View()), Spec.CreateHybridCliffStream(old(View()), sender, recipient, token, amount, cliffTime,
                                                               cliffAmount, linearDuration), View(), r)
    {
      if sender == self {
        return Err(AuthFailed);
      }
      if Spec.IsProtocolPaused(View()) {
        return Err(ProtocolIsPaused);
      }
      if amount <= 0 {
        return Err(InvalidAmount);
      }
      if linearDuration == 0 {
        return Err(InvalidCliffParameters);
      }
      var saved := View();
      var id :- NextStreamId();
      var deposited := Deposit(token, sender, amount, id);
      if deposited.Err? {
        Rollback(saved);
        return Err(deposited.error);
      }
      var net := deposited.value;
      if cliffTime <= now || cliffAmount <= 0 || cliffAmount >= net {
        Rollback(saved);
        return Err(InvalidCliffParameters);
      }
      TruncDivFits(net - cliffAmount, linearDuration);
      var rate := TruncDiv(net - cliffAmount, linearDuration);
      if rate == 0 {
        Rollback(saved);
        return Err(InvalidCliffParameters);
      }
      SaveStream(id,
        Spec.OpenStream(sender, recipient, token, rate, net, now, HybridCliffLinear(cliffTime, cliffAmount)));
      Publish(HybridCliffCreated(id, sender, recipient, token, net, cliffTime, cliffAmount, rate));
      return Ok(id);
    }

    method TopUpStream(sender: Address, id: u64, amount: i128) returns (r: Result<()>)
      modifies this
      ensures Agrees(old(View()), Spec.TopUpStream(old(View()), sender, id, amount), View(), r)
    {
      if sender == self {
        return Err(AuthFailed);
      }
      if Spec.IsProtocolPaused(View()) {
        return Err(ProtocolIsPaused);
      }
      if amount <= 0 {
        return Err(InvalidAmount);
      }
      var stream :- LoadStream(View(), id);
      if stream.sender != sender {
        return Err(Unauthorized);
      }
      if !stream.isActive {
        return Err(StreamInactive);
      }
      if stream.schedule.StepTranches? {
        return Err(TopUpUnsupported);
      }
      var saved := View();
      var deposited := Deposit(stream.token, sender, amount, id);
      if deposited.Err? {
        Rollback(saved);
        return Err(deposited.error);
      }
      r := CreditTopUp(sender, id, stream, deposited.value);
      if r.Err? {
        Rollback(saved);
      }
    }

    method WithEndTime(stream: Stream) returns (r: Result<(Stream, u64)>)
      ensures r == Spec.WithEndTime(stream, now)
    {
      var claimable := CalculateClaimable(stream, now);
      var remaining := SaturatingSub(SaturatingSub(stream.deposited, stream.withdrawn), claimable);
      var newEndTime := Spec.ProjectEndTime(now, remaining, stream.ratePerSecond);
      if newEndTime.Err? {
        return Err(newEndTime.error);
      }
      return Ok((stream, newEndTime.value));
    }

    /** The raised deposit and its end time; only computes. */
    method Fund(stream: Stream, net: i128) returns (r: Result<(Stream, u64)>)
      ensures r == Spec.Funded(stream, net, now)
    {
      if !FitsI128(stream.deposited + net) {
        return Err(ArithmeticOverflow);
      }
      r := WithEndTime(stream.(deposited := stream.deposited + net));
    }

    /** The second half of a top-up, once the tokens are in. */
    method CreditTopUp(sender: Address, id: u64, stream: Stream, net: i128) returns (r: Result<()>)
      modifies this`records, this`log
      ensures Agrees(old(View()), Spec.CreditTopUp(old(View()), sender, id, stream, net), View(), r)
    {
      var funding := Fund(stream, net);
      if funding.Err? {
        return Err(funding.error);
      }
      var (funded, newEndTime) := funding.value;
      StoreTopUp(sender, id, funded, net, newEndTime);
      return Ok(());
    }

    method StoreTopUp(sender: Address, id: u64, stream: Stream, net: i128, newEndTime: u64)
      modifies this`records, this`log
      ensures View() == Emit(Storage.SaveStream(old(View()), id, stream),
                             StreamToppedUp(id, sender, net, stream.deposited, newEndTime))
    {
      SaveStream(id, stream);
      Publish(StreamToppedUp(id, sender, net, stream.deposited, newEndTime));
    }

    // ----- Tokens out -----

    /** Credits the record, stores it, then pays. The only error it reports itself
        is the checked addition's, before anything has changed; a refused transfer
        is a trap, reported with the effects still in place. */
    method ApplyWithdrawal(stream: Stream, id: u64, recipient: Address, amount: i128)
      returns (r: Result<()>, paid: Stream)
      modifies this`records, this`balances
      ensures r == match Spec.ApplyWithdrawal(old(View()), stream, id, recipient, amount)
                   case Ok(_) => Ok(())
                   case Err(e) => Err(e)
      ensures r.Ok? ==> Spec.ApplyWithdrawal(old(View()), stream, id, recipient, amount) == Ok((View(), paid))
      ensures r == Err(ArithmeticOverflow) ==> View() == old(View()) && paid == stream
    {
      paid := stream;
      if !FitsI128(paid.withdrawn + amount) {
        return Err(ArithmeticOverflow), paid;
      }
      paid := paid.(withdrawn := paid.withdrawn + amount);
      paid := paid.(lastUpdate := now);
      if paid.withdrawn >= paid.deposited {
        paid := paid.(isActive := false);
        paid := paid.(status := Completed);
      }
      SaveStream(id, paid);
      var ok := Transfer(paid.token, self, recipient, amount);
      if !ok {
        return Err(HostTrap), paid;
      }
      return Ok(()), paid;
    }

    method PublishWithdrawal(stream: Stream, id: u64, recipient: Address, amount: i128)
      modifies this`log
      ensures View() == Spec.EmitWithdrawal(old(View()), stream, id, recipient, amount)
    {
      Publish(TokensWithdrawn(id, recipient, amount, stream.lastUpdate));
      if stream.status == Completed {
        Publish(StreamCompleted(id, recipient, stream.withdrawn));
      }
    }

    method Withdraw(recipient: Address, id: u64) returns (r: Result<i128>)
      modifies this
      ensures Agrees(old(View()), Spec.Withdraw(old(View()), recipient, id), View(), r)
    {
      if recipient == self {
        return Err(AuthFailed);
      }
      var stream :- LoadStream(View(), id);
      if stream.recipient != recipient {
        return Err(Unauthorized);
      }
      if !stream.isActive {
        return Err(StreamInactive);
      }
      if stream.paused {
        return Err(StreamIsPaused);
      }
      var claimable := CalculateClaimable(stream, now);
      if claimable <= 0 {
        return Err(InvalidAmount);
      }
      var saved := View();
      var applied, paid := ApplyWithdrawal(stream, id, recipient, claimable);
      if applied.Err? {
        Rollback(saved);
        return Err(applied.error);
      }
      PublishWithdrawal(paid, id, recipient, claimable);
      return Ok(claimable);
    }

    method BatchWithdraw(recipient: Address, ids: seq<u64>) returns (r: Result<Spec.Payouts>)
      modifies this
      ensures Agrees(old(View()), Spec.BatchWithdraw(old(View()), recipient, ids), View(), r)
    {
      if recipient == self {
        return Err(AuthFailed);
      }
      if |ids| > MAX_BATCH_WITHDRAW {
        return Err(BatchTooLarge);
      }
      var saved := View();
      var withdrawn: Spec.Payouts := [];
      var i := 0;
      while i < |ids|
        invariant 0 <= i <= |ids|
        invariant saved == old(View())
        invariant Spec.BatchLoop(saved, recipient, ids, []) == Spec.BatchLoop(View(), recipient, ids[i..], withdrawn)
      {
        var id := ids[i];
        var loaded := LoadStream(View(), id);
        if loaded.Err? {
          Rollback(saved);
          return Err(loaded.error);
        }
        var stream := loaded.value;
        if stream.recipient != recipient {
          Rollback(saved);
          return Err(Unauthorized);
        }
        if stream.isActive && !stream.paused {
          var claimable := CalculateClaimable(stream, now);
          if claimable > 0 {
            var applied, paid := ApplyWithdrawal(stream, id, recipient, claimable);
            if applied == Err(HostTrap) {
              Rollback(saved);
              return Err(HostTrap);
            }
            PublishWithdrawal(paid, id, recipient, claimable);
            withdrawn := withdrawn + [(id, claimable)];
          }
        }
        i := i + 1;
      }
      return Ok(withdrawn);
    }

    method CancelStream(sender: Address, id: u64) returns (r: Result<()>)
      modifies this
      ensures Agrees(old(View()), Spec.CancelStream(old(View()), sender, id), View(), r)
    {
      if sender == self {
        return Err(AuthFailed);
      }
      var stream :- LoadStream(View(), id);
      if stream.sender != sender {
        return Err(Unauthorized);
      }
      if !stream.isActive {
        return Err(StreamInactive);
      }
      var accrued := CalculateClaimable(stream, now);
      if accrued > 0 {
        stream := stream.(withdrawn := SaturatingAdd(stream.withdrawn, accrued));
      }
      var refunded := SaturatingSub(stream.deposited, stream.withdrawn);
      stream := stream.(isActive := false, status := Cancelled);
      stream := stream.(paused := false, pausedAt := None, lastUpdate := now);
      var saved := View();
      SaveStream(id, stream);
      if accrued > 0 {
        var ok := Transfer(stream.token, self, stream.recipient, accrued);
        if !ok {
          Rollback(saved);
          return Err(HostTrap);
        }
      }
      if refunded > 0 {
        var ok := Transfer(stream.token, self, sender, refunded);
        if !ok {
          Rollback(saved);
          return Err(HostTrap);
        }
      }
      Publish(StreamCancelled(id, sender, stream.recipient, stream.withdrawn, refunded));
      return Ok(());
    }

    method CloseStream(caller: Address, id: u64) returns (r: Result<()>)
      modifies this
      ensures Agrees(old(View()), Spec.CloseStream(old(View()), caller, id), View(), r)
    {
      if caller == self {
        return Err(AuthFailed);
      }
      var stream :- LoadStream(View(), id);
      var loaded := TryLoadConfig(View());
      var isAdmin := loaded.Some? && loaded.value.admin == caller;
      if caller != stream.sender && caller != stream.recipient && !isAdmin {
        return Err(Unauthorized);
      }
      if stream.isActive {
        return Err(StreamStillActive);
      }
      if stream.status != Completed && stream.status != Cancelled {
        return Err(StreamStillActive);
      }
      if stream.status == Completed {
        if stream.deposited != stream.withdrawn {
          return Err(StreamStillActive);
        }
        var claimable := CalculateClaimable(stream, now);
        if claimable != 0 {
          return Err(StreamStillActive);
        }
      }
      RemoveStream(id);
      Publish(StreamClosed(id, caller, now));
      return Ok(());
    }

    // ----- Pausing one stream -----

    method PauseStream(sender: Address, id: u64) returns (r: Result<()>)
      modifies this
      ensures Agrees(old(View()), Spec.PauseStream(old(View()), sender, id), View(), r)
    {
      if sender == self {
        return Err(AuthFailed);
      }
      var stream :- LoadStream(View(), id);
      if stream.sender != sender {
        return Err(Unauthorized);
      }
      if !stream.isActive {
        return Err(StreamInactive);
      }
      if stream.paused {
        return Err(StreamAlreadyPaused);
      }
      stream := stream.(paused := true);
      stream := stream.(pausedAt := Some(now), status := Paused);
      SaveStream(id, stream);
      Publish(StreamPaused(id, sender, now));
      return Ok(());
    }

    method ResumeStream(sender: Address, id: u64) returns (r: Result<u64>)
      modifies this
      ensures Agrees(old(View()), Spec.ResumeStream(old(View()), sender, id), View(), r)
    {
      if sender == self {
        return Err(AuthFailed);
      }
      var stream :- LoadStream(View(), id);
      if stream.sender != sender {
        return Err(Unauthorized);
      }
      if !stream.isActive {
        return Err(StreamNotActive);
      }
      if !stream.paused {
        return Err(StreamNotPaused);
      }
      var pausedAt := stream.pausedAt.UnwrapOr(now);
      var pauseDuration := SaturatingSubU64(now, pausedAt);
      var claimableAtResume := CalculateClaimable(stream, now);
      stream := stream.(lastUpdate := SaturatingAddU64(stream.lastUpdate, pauseDuration));
      var remaining := SaturatingSub(SaturatingSub(stream.deposited, stream.withdrawn), claimableAtResume);
      var newEndTime;
      if stream.schedule.Linear? {
        if stream.ratePerSecond == 0 || !FitsI128(TruncDiv(remaining, stream.ratePerSecond)) {
          return Err(HostTrap);
        }
        var seconds := TruncateU64(TruncDiv(remaining, stream.ratePerSecond));
        if now + seconds > U64_MAX {
          return Err(HostTrap);
        }
        newEndTime := now + seconds;
      } else {
        newEndTime := Spec.ProjectedEndTime(stream.(paused := false, pausedAt := None));
      }
      stream := stream.(paused := false, pausedAt := None);
      stream := stream.(status := Active);
      SaveStream(id, stream);
      Publish(StreamResumed(id, sender, newEndTime));
      return Ok(newEndTime);
    }
  }
}
