/** What the contract owes, what it holds, and how each entrypoint moves the two
    together: every call evolves the store record by record and never eats into
    the surplus of holdings over obligations. */
module Solvency {
  import opened Bounded
  import opened Results
  import opened StreamTypes
  import opened Storage
  import opened Vesting
  import opened Entrypoints
  import opened Lifecycle

  /** Still owed on one record: the unpaid deposit of an active stream. */
  ghost function Due(records: map<u64, StoredStream>, id: u64, token: Address): int {
    if id in records && DecodeStream(records[id]).Some? then
      var stream := DecodeStream(records[id]).value;
      if stream.isActive && stream.token == token then stream.deposited - stream.withdrawn else 0
    else 0
  }

  ghost function OwedUpTo(records: map<u64, StoredStream>, token: Address, n: u64): int {
    if n == 0 then 0 else OwedUpTo(records, token, n - 1) + Due(records, n, token)
  }

  /** Sum of (deposited - withdrawn) over all active streams in a token. */
  ghost function Owed(s: State, token: Address): int {
    OwedUpTo(s.records, token, s.counter)
  }

  ghost function Surplus(s: State, token: Address): int {
    Balance(s, token, s.self) - Owed(s, token)
  }

  ghost predicate Solvent(s: State) {
    forall token: Address :: Owed(s, token) <= Balance(s, token, s.self)
  }

  ghost predicate TreasuryOutside(s: State) {
    TryLoadConfig(s).Some? ==> TryLoadConfig(s).value.treasury != s.self
  }

  ghost predicate RecipientOutside(s: State, id: u64) {
    match TryLoadStream(s, id)
    case None => true
    case Some(stream) => stream.isActive ==> stream.recipient != s.self
  }

  /** The contract is neither treasury nor recipient of anything live. */
  ghost predicate Outward(s: State) {
    TreasuryOutside(s) && forall id: u64 :: RecipientOutside(s, id)
  }

  ghost predicate SurplusKept(s: State, t: State) {
    && (forall token: Address :: Surplus(s, token) <= Surplus(t, token))
    && (Outward(s) ==> forall token: Address :: Surplus(t, token) == Surplus(s, token))
  }

  ghost predicate SettingsKept(s: State, t: State) {
    t.config == s.config && t.version == s.version
  }

  /** One record appeared, under the next id, for this recipient. */
  ghost predicate Opened(s: State, t: State, recipient: Address) {
    && SettingsKept(s, t)
    && s.counter < U64_MAX && t.counter == s.counter + 1
    && TryLoadStream(t, s.counter + 1).Some?
    && TryLoadStream(t, s.counter + 1).value.recipient == recipient
  }

  // ----- Sums over the store -----

  lemma {:induction false} OwedWithOneChange(r: map<u64, StoredStream>, q: map<u64, StoredStream>,
                                             token: Address, id: u64, n: u64)
    requires 1 <= id
    requires forall j: u64 :: j != id ==> Due(r, j, token) == Due(q, j, token)
    ensures OwedUpTo(q, token, n) - OwedUpTo(r, token, n)
         == if id <= n then Due(q, id, token) - Due(r, id, token) else 0
  {
    if n > 0 {
      OwedWithOneChange(r, q, token, id, n - 1);
    }
  }

  lemma {:induction false} DueIsPartOfOwed(s: State, token: Address, id: u64, n: u64)
    requires StreamsWellFormed(s) && 1 <= id
    ensures 0 <= OwedUpTo(s.records, token, n)
    ensures id <= n ==> Due(s.records, id, token) <= OwedUpTo(s.records, token, n)
  {
    if n > 0 {
      DueIsPartOfOwed(s, token, id, n - 1);
      assert TryLoadStream(s, n).Some? ==> WellFormed(TryLoadStream(s, n).value, s.now);
    }
  }

  // ----- Tokens in -----

  /** What arrives for the stream is exactly the net amount; the fee leaves again,
      or stays as surplus when the contract is its own treasury. */
  lemma DepositEffect(s: State, token: Address, sender: Address, amount: i128, id: u64)
    requires FeeCapped(s) && amount > 0 && sender != s.self
    requires Deposit(s, token, sender, amount, id).Ok?
    ensures var (t, net) := Deposit(s, token, sender, amount, id).value;
            && 0 < net <= amount
            && t == s.(balances := t.balances, log := t.log)
            && (|| t.log == s.log
                || exists treasury: Address, fee: i128 ::
                     t.log == s.log + [LogEntry(s.tx, FeeCollected(id, treasury, fee, token))])
            && (forall k: Address :: Balance(t, k, s.self) >= Balance(s, k, s.self) + if k == token then net else 0)
            && (TreasuryOutside(s) ==> forall k: Address ::
                  Balance(t, k, s.self) == Balance(s, k, s.self) + if k == token then net else 0)
  {
    var s1 := Transfer(s, token, sender, s.self, amount).value;
    TransferConserves(s, token, sender, s.self, amount);
    if TryLoadConfig(s).Some? && TryLoadConfig(s).value.feeRateBps > 0 {
      var config := TryLoadConfig(s).value;
      FeeBelowAmount(amount, config.feeRateBps);
      var fee := FeeOf(amount, config.feeRateBps);
      if fee > 0 {
        TransferConserves(s1, token, s.self, config.treasury, fee);
        var (t, net) := CollectFee(s1, token, amount, id).value;
        assert t.log == s.log + [LogEntry(s.tx, FeeCollected(id, config.treasury, fee, token))];
      }
    }
  }

  /** At no more than 10% the fee never takes the whole amount. */
  lemma FeeBelowAmount(amount: i128, bps: nat)
    requires amount > 0 && bps <= MAX_FEE_RATE_BPS
    ensures 0 <= FeeOf(amount, bps) < amount
  {
    ProductMonotone(bps, MAX_FEE_RATE_BPS, amount);
    ProductMonotone(0, amount, bps);
  }

  lemma OpenEffect(s: State, sender: Address, token: Address, amount: i128, stream: Stream, event: Event)
    requires StreamsWellFormed(s) && s.counter < U64_MAX && amount > 0 && sender != s.self
    requires var s1 := NextStreamId(s).value.0;
             var paid := Deposit(s1, token, sender, amount, s.counter + 1);
             paid.Ok? && stream.deposited == paid.value.1
    requires Fresh(stream, s.now) && stream.token == token && stream.sender == sender
    ensures var s3 := Deposit(NextStreamId(s).value.0, token, sender, amount, s.counter + 1).value.0;
            var t := Emit(SaveStream(s3, s.counter + 1, stream), event);
            && Evolved(s, t) && SurplusKept(s, t)
            && t.config == s.config && t.version == s.version
            && t.records == s.records[s.counter + 1 := CurrentStream(stream)]
  {
    var id := s.counter + 1;
    var s1 := NextStreamId(s).value.0;
    DepositEffect(s1, token, sender, amount, id);
    var s3 := Deposit(s1, token, sender, amount, id).value.0;
    var t := Emit(SaveStream(s3, id, stream), event);
    forall j: u64 ensures EvolvedAt(s, t, j) {
    }
    forall k: Address
      ensures Surplus(s, k) <= Surplus(t, k)
      ensures TreasuryOutside(s) ==> Surplus(t, k) == Surplus(s, k)
    {
      OwedWithOneChange(s.records, t.records, k, id, s.counter);
      assert Balance(t, k, s.self) == Balance(s3, k, s.self);
      assert Balance(s1, k, s.self) == Balance(s, k, s.self);
    }
  }

  /** A successful linear create, step by step. */
  lemma CreateStreamUnfolds(s: State, sender: Address, recipient: Address, token: Address,
                            amount: i128, duration: u64)
    requires CreateStream(s, sender, recipient, token, amount, duration).Ok?
    ensures amount > 0 && sender != s.self && s.counter < U64_MAX && duration > 0
    ensures var paid := Deposit(NextStreamId(s).value.0, token, sender, amount, s.counter + 1);
            && paid.Ok?
            && var (s3, net) := paid.value;
               var rate := TruncDiv(net, duration);
               && FitsI128(rate) && rate != 0 && s3.now == s.now
               && CreateStream(s, sender, recipient, token, amount, duration).value.0
                  == Emit(SaveStream(s3, s.counter + 1, OpenStream(sender, recipient, token, rate, net, s.now, Linear)),
                          StreamCreated(s.counter + 1, sender, recipient, rate, token, net, s.now))
  {
    var (s3, net) := Deposit(NextStreamId(s).value.0, token, sender, amount, s.counter + 1).value;
    TruncDivFits(net, duration);
    DepositKeepsClock(NextStreamId(s).value.0, token, sender, amount, s.counter + 1);
  }

  lemma DepositKeepsClock(s: State, token: Address, sender: Address, amount: i128, id: u64)
    requires amount > 0 && Deposit(s, token, sender, amount, id).Ok?
    ensures Deposit(s, token, sender, amount, id).value.0.now == s.now
  {
  }

  lemma CreateStreamEffect(s: State, sender: Address, recipient: Address, token: Address,
                           amount: i128, duration: u64)
    requires StreamsWellFormed(s) && CreateStream(s, sender, recipient, token, amount, duration).Ok?
    ensures var t := CreateStream(s, sender, recipient, token, amount, duration).value.0;
            Evolved(s, t) && SurplusKept(s, t) && Opened(s, t, recipient)
  {
    CreateStreamUnfolds(s, sender, recipient, token, amount, duration);
    var s1, id := NextStreamId(s).value.0, s.counter + 1;
    var (s3, net) := Deposit(s1, token, sender, amount, id).value;
    var rate := TruncDiv(net, duration);
    assert net > 0 by {
      DepositEffect(s1, token, sender, amount, id);
    }
    TruncDivFits(net, duration);
    OpenEffect(s, sender, token, amount, OpenStream(sender, recipient, token, rate, net, s.now, Linear),
      StreamCreated(id, sender, recipient, rate, token, net, s.now));
  }

  /** A successful step-tranche create, step by step. */
  lemma CreateStepUnfolds(s: State, sender: Address, recipient: Address, token: Address,
                          amount: i128, steps: seq<VestingStep>)
    requires CreateStepVestingStream(s, sender, recipient, token, amount, steps).Ok?
    ensures amount > 0 && sender != s.self && s.counter < U64_MAX && steps != []
    ensures var paid := Deposit(NextStreamId(s).value.0, token, sender, amount, s.counter + 1);
            && paid.Ok?
            && var (s3, net) := paid.value;
               && ScheduleVerdict(steps, s.now, net) == None
               && CreateStepVestingStream(s, sender, recipient, token, amount, steps).value.0
                  == Emit(SaveStream(s3, s.counter + 1,
                                     OpenStream(sender, recipient, token, 0, net, s.now, StepTranches(steps))),
                          StepVestingCreated(s.counter + 1, sender, recipient, token, net, |steps|,
                                             steps[|steps| - 1].unlockTime))
  {
    DepositKeepsClock(NextStreamId(s).value.0, token, sender, amount, s.counter + 1);
  }

  lemma CreateStepEffect(s: State, sender: Address, recipient: Address, token: Address,
                         amount: i128, steps: seq<VestingStep>)
    requires StreamsWellFormed(s) && CreateStepVestingStream(s, sender, recipient, token, amount, steps).Ok?
    ensures var t := CreateStepVestingStream(s, sender, recipient, token, amount, steps).value.0;
            Evolved(s, t) && SurplusKept(s, t) && Opened(s, t, recipient)
  {
    CreateStepUnfolds(s, sender, recipient, token, amount, steps);
    var s1 := NextStreamId(s).value.0;
    var net := Deposit(s1, token, sender, amount, s.counter + 1).value.1;
    assert net > 0 by {
      DepositEffect(s1, token, sender, amount, s.counter + 1);
    }
    ScheduleAcceptedIff(steps, s.now, net);
    UnlockedByMonotone(steps, s.now, s.now);
    OpenEffect(s, sender, token, amount, OpenStream(sender, recipient, token, 0, net, s.now, StepTranches(steps)),
      StepVestingCreated(s.counter + 1, sender, recipient, token, net, |steps|, steps[|steps| - 1].unlockTime));
  }

  /** A successful hybrid create, step by step. */
  lemma CreateHybridUnfolds(s: State, sender: Address, recipient: Address, token: Address, amount: i128,
                            cliffTime: u64, cliffAmount: i128, linearDuration: u64)
    requires CreateHybridCliffStream(s, sender, recipient, token, amount, cliffTime, cliffAmount, linearDuration).Ok?
    ensures amount > 0 && sender != s.self && s.counter < U64_MAX && linearDuration > 0
    ensures var paid := Deposit(NextStreamId(s).value.0, token, sender, amount, s.counter + 1);
            && paid.Ok?
            && var (s3, net) := paid.value;
               && s.now < cliffTime && 0 < cliffAmount < net
               && var rate := TruncDiv(net - cliffAmount, linearDuration);
                  var hybrid := HybridCliffLinear(cliffTime, cliffAmount);
                  && 1 <= rate <= I128_MAX
                  && CreateHybridCliffStream(s, sender, recipient, token, amount, cliffTime, cliffAmount,
                                             linearDuration).value.0
                     == Emit(SaveStream(s3, s.counter + 1,
                                        OpenStream(sender, recipient, token, rate, net, s.now, hybrid)),
                             HybridCliffCreated(s.counter + 1, sender, recipient, token, net, cliffTime, cliffAmount,
                                                rate))
  {
    DepositKeepsClock(NextStreamId(s).value.0, token, sender, amount, s.counter + 1);
    var (s3, net) := Deposit(NextStreamId(s).value.0, token, sender, amount, s.counter + 1).value;
    TruncDivFits(net - cliffAmount, linearDuration);
  }

  lemma CreateHybridEffect(s: State, sender: Address, recipient: Address, token: Address, amount: i128,
                           cliffTime: u64, cliffAmount: i128, linearDuration: u64)
    requires StreamsWellFormed(s)
    requires CreateHybridCliffStream(s, sender, recipient, token, amount, cliffTime, cliffAmount, linearDuration).Ok?
    ensures var t := CreateHybridCliffStream(s, sender, recipient, token, amount, cliffTime, cliffAmount,
                                             linearDuration).value.0;
            Evolved(s, t) && SurplusKept(s, t) && Opened(s, t, recipient)
  {
    CreateHybridUnfolds(s, sender, recipient, token, amount, cliffTime, cliffAmount, linearDuration);
    var net := Deposit(NextStreamId(s).value.0, token, sender, amount, s.counter + 1).value.1;
    var rate := TruncDiv(net - cliffAmount, linearDuration);
    OpenEffect(s, sender, token, amount,
      OpenStream(sender, recipient, token, rate, net, s.now, HybridCliffLinear(cliffTime, cliffAmount)),
      HybridCliffCreated(s.counter + 1, sender, recipient, token, net, cliffTime, cliffAmount, rate));
  }

  // ----- Changes to one record -----

  ghost function Unpaid(s: Stream): int {
    if s.isActive then s.deposited - s.withdrawn else 0
  }

  /** Rewriting one active record changes what is owed by exactly its own change. */
  lemma RewriteEffect(s: State, t: State, id: u64, a: Stream, b: Stream)
    requires StreamsWellFormed(s) && TryLoadStream(s, id) == Some(a) && a.isActive
    requires Moved(a, b, s.now)
    requires t == s.(records := s.records[id := CurrentStream(b)], balances := t.balances, log := t.log)
    requires s.log <= t.log
    ensures Evolved(s, t)
    ensures forall k: Address :: Owed(t, k) == Owed(s, k) + if k == a.token then Unpaid(b) - Unpaid(a) else 0
  {
    MovedWellFormed(a, b, s.now);
    forall j: u64 ensures EvolvedAt(s, t, j) {
    }
    forall k: Address
      ensures Owed(t, k) == Owed(s, k) + if k == a.token then Unpaid(b) - Unpaid(a) else 0
    {
      OwedWithOneChange(s.records, t.records, k, id, s.counter);
    }
  }

  lemma TopUpEffect(s: State, sender: Address, id: u64, amount: i128)
    requires StreamsWellFormed(s) && TopUpStream(s, sender, id, amount).Ok?
    ensures var t := TopUpStream(s, sender, id, amount).value.0;
            Evolved(s, t) && SurplusKept(s, t) && SettingsKept(s, t) && t.counter == s.counter
  {
    var t := TopUpStream(s, sender, id, amount).value.0;
    var a := LoadStream(s, id).value;
    DepositEffect(s, a.token, sender, amount, id);
    var (s2, net) := Deposit(s, a.token, sender, amount, id).value;
    RewriteEffect(s, t, id, a, a.(deposited := a.deposited + net));
    forall k: Address ensures Balance(t, k, s.self) == Balance(s2, k, s.self) {
    }
  }

  lemma WithdrawEffect(s: State, recipient: Address, id: u64)
    requires StreamsWellFormed(s) && Withdraw(s, recipient, id).Ok?
    ensures var t := Withdraw(s, recipient, id).value.0;
            && Evolved(s, t) && SettingsKept(s, t) && t.counter == s.counter
            && forall k: Address :: Surplus(t, k) == Surplus(s, k)
  {
    var t := Withdraw(s, recipient, id).value.0;
    var a := LoadStream(s, id).value;
    var amount := Claimable(a, s.now);
    var (s1, b) := ApplyWithdrawal(s, a, id, recipient, amount).value;
    TransferConserves(SaveStream(s, id, b), b.token, s.self, recipient, amount);
    SettledWellFormed(a, b, s.now);
    RewriteEffect(s, t, id, a, b);
    forall k: Address ensures Balance(t, k, s.self) == Balance(s, k, s.self) - if k == a.token then amount else 0 {
      assert Balance(SaveStream(s, id, b), k, s.self) == Balance(s, k, s.self);
      assert Balance(t, k, s.self) == Balance(s1, k, s.self);
    }
  }

  lemma PayIfAnyEffect(s: State, token: Address, to: Address, amount: int)
    requires 0 <= amount && PayIfAny(s, token, to, amount).Ok?
    ensures var t := PayIfAny(s, token, to, amount).value;
            && t == s.(balances := t.balances)
            && forall k: Address :: Balance(t, k, s.self)
                 == Balance(s, k, s.self) - if k == token && to != s.self then amount else 0
  {
    if amount > 0 {
      TransferConserves(s, token, s.self, to, amount);
    }
  }

  /** Where the money goes in a cancellation, and what else changes. */
  lemma CancelPays(s: State, sender: Address, id: u64)
    requires StreamsWellFormed(s) && CancelStream(s, sender, id).Ok?
    ensures TryLoadStream(s, id).Some? && TryLoadStream(s, id).value.isActive
    ensures sender == TryLoadStream(s, id).value.sender != s.self
    ensures var t := CancelStream(s, sender, id).value.0;
            var a := TryLoadStream(s, id).value;
            var b := CancelledStream(a, s.now);
            var accrued := Claimable(a, s.now);
            && t == s.(records := s.records[id := CurrentStream(b)], balances := t.balances, log := t.log)
            && s.log <= t.log
            && forall k: Address :: Balance(t, k, s.self) == Balance(s, k, s.self)
                 - if k == a.token then b.deposited - b.withdrawn + (if a.recipient == s.self then 0 else accrued)
                   else 0
  {
    var t := CancelStream(s, sender, id).value.0;
    var a := LoadStream(s, id).value;
    var b := CancelledStream(a, s.now);
    CancelledWellFormed(a, s.now);
    ClaimableIsEarnedMinusPaid(a, s.now);
    var accrued, refund := Claimable(a, s.now), SaturatingSub(b.deposited, b.withdrawn);
    var s1 := SaveStream(s, id, b);
    PayIfAnyEffect(s1, b.token, b.recipient, accrued);
    var s2 := PayIfAny(s1, b.token, b.recipient, accrued).value;
    PayIfAnyEffect(s2, b.token, sender, refund);
    var s3 := PayIfAny(s2, b.token, sender, refund).value;
    forall k: Address
      ensures Balance(t, k, s.self) == Balance(s3, k, s.self) && Balance(s1, k, s.self) == Balance(s, k, s.self)
    {
    }
  }

  lemma CancelEffect(s: State, sender: Address, id: u64)
    requires StreamsWellFormed(s) && CancelStream(s, sender, id).Ok?
    ensures var t := CancelStream(s, sender, id).value.0;
            Evolved(s, t) && SurplusKept(s, t) && SettingsKept(s, t) && t.counter == s.counter
  {
    CancelPays(s, sender, id);
    var a := TryLoadStream(s, id).value;
    CancelledWellFormed(a, s.now);
    RewriteEffect(s, CancelStream(s, sender, id).value.0, id, a, CancelledStream(a, s.now));
    assert RecipientOutside(s, id) ==> a.recipient != s.self;
    ClaimableIsEarnedMinusPaid(a, s.now);
  }

  lemma CloseEffect(s: State, caller: Address, id: u64)
    requires StreamsWellFormed(s) && CloseStream(s, caller, id).Ok?
    ensures var t := CloseStream(s, caller, id).value.0;
            Evolved(s, t) && SurplusKept(s, t) && SettingsKept(s, t) && t.counter == s.counter
  {
    var t := CloseStream(s, caller, id).value.0;
    forall j: u64 ensures EvolvedAt(s, t, j) {
    }
    forall k: Address ensures Surplus(t, k) == Surplus(s, k) {
      OwedWithOneChange(s.records, t.records, k, id, s.counter);
      assert Balance(t, k, s.self) == Balance(s, k, s.self);
    }
  }

  lemma PauseEffect(s: State, sender: Address, id: u64)
    requires StreamsWellFormed(s) && PauseStream(s, sender, id).Ok?
    ensures var t := PauseStream(s, sender, id).value.0;
            Evolved(s, t) && SurplusKept(s, t) && SettingsKept(s, t) && t.counter == s.counter
  {
    var t := PauseStream(s, sender, id).value.0;
    var a := LoadStream(s, id).value;
    RewriteEffect(s, t, id, a, PausedStream(a, s.now));
    forall k: Address ensures Balance(t, k, s.self) == Balance(s, k, s.self) {
    }
  }

  lemma ResumeEffect(s: State, sender: Address, id: u64)
    requires StreamsWellFormed(s) && ResumeStream(s, sender, id).Ok?
    ensures var t := ResumeStream(s, sender, id).value.0;
            Evolved(s, t) && SurplusKept(s, t) && SettingsKept(s, t) && t.counter == s.counter
  {
    var t := ResumeStream(s, sender, id).value.0;
    var a := LoadStream(s, id).value;
    RewriteEffect(s, t, id, a, ResumedStream(a, s.now));
    forall k: Address ensures Balance(t, k, s.self) == Balance(s, k, s.self) {
    }
  }
}
