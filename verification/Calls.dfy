/** What each call promises whoever makes it: when it refuses and with which error,
    and, when it goes through, every record, balance, setting and event it leaves -
    in terms of its own arguments and of what was stored before. */
module Calls {
  import opened Bounded
  import opened Results
  import opened StreamTypes
  import opened Storage
  import opened Vesting
  import opened Entrypoints
  import opened Lifecycle
  import opened Solvency

  // ----- Settings and balances as a caller sees them -----

  ghost predicate Engaged(s: State) {
    TryLoadConfig(s).Some? && TryLoadConfig(s).value.isProtocolPaused
  }

  ghost function FeeRate(s: State): nat {
    if TryLoadConfig(s).Some? then TryLoadConfig(s).value.feeRateBps else 0
  }

  ghost function Treasury(s: State): Option<Address> {
    if TryLoadConfig(s).Some? then Some(TryLoadConfig(s).value.treasury) else None
  }

  /** The fee on a deposit, in ten-thousandths rounded down. */
  ghost function FeeDue(s: State, amount: int): int {
    amount * FeeRate(s) / 10000
  }

  ghost function NetOf(s: State, amount: int): int {
    amount - FeeDue(s, amount)
  }

  ghost function When(condition: bool, amount: int): int {
    if condition then amount else 0
  }

  /** What a deposit does to one balance: the sender is short of the amount, the
      treasury has the fee, the contract the rest. */
  ghost function DepositShare(s: State, sender: Address, amount: int, who: Address): int {
    When(who == s.self, NetOf(s, amount)) - When(who == sender, amount)
      + When(Treasury(s) == Some(who), FeeDue(s, amount))
  }

  ghost predicate DepositMoves(s: State, t: State, token: Address, sender: Address, amount: int) {
    forall k: Address, w: Address ::
      Balance(t, k, w) == Balance(s, k, w) + When(k == token, DepositShare(s, sender, amount, w))
  }

  /** The sender has the amount, the contract room for it, the fee can be computed,
      and the treasury has room for it. */
  ghost predicate DepositFits(s: State, token: Address, sender: Address, amount: int) {
    && amount <= Balance(s, token, sender)
    && Balance(s, token, s.self) + amount <= I128_MAX
    && amount * FeeRate(s) <= I128_MAX
    && (Treasury(s).Some? && Treasury(s).value != s.self ==>
          Balance(s, token, Treasury(s).value) - When(Treasury(s).value == sender, amount) + FeeDue(s, amount)
            <= I128_MAX)
  }

  ghost function FeeLog(s: State, token: Address, amount: int, id: u64): seq<LogEntry>
    requires 0 <= FeeDue(s, amount) <= I128_MAX
  {
    if Treasury(s).Some? && FeeDue(s, amount) > 0
    then [LogEntry(s.tx, FeeCollected(id, Treasury(s).value, FeeDue(s, amount), token))] else []
  }

  lemma FeeBounds(s: State, amount: int)
    requires FeeCapped(s) && 0 < amount
    ensures 0 <= FeeDue(s, amount) < amount
  {
    ProductMonotone(FeeRate(s), 1000, amount);
    ProductMonotone(0, amount, FeeRate(s));
  }

  lemma FeeIsFeeOf(s: State, amount: i128)
    requires FeeCapped(s) && 0 < amount
    ensures FeeDue(s, amount) == FeeOf(amount, FeeRate(s))
    ensures 0 <= amount * FeeRate(s)
  {
    ProductMonotone(0, amount, FeeRate(s));
  }

  /** A deposit that fits goes through, and one that goes through fits. */
  lemma DepositDoes(s: State, token: Address, sender: Address, amount: i128, id: u64)
    requires FeeCapped(s) && 0 < amount && sender != s.self
    ensures 0 <= FeeDue(s, amount) < amount
    ensures var r := Deposit(s, token, sender, amount, id);
            && (r.Ok? <==> DepositFits(s, token, sender, amount))
            && (r.Err? ==> r.error == HostTrap || r.error == ArithmeticOverflow)
            && (r.Ok? ==> var (t, net) := r.value;
                  && net == NetOf(s, amount)
                  && t == s.(balances := t.balances, log := s.log + FeeLog(s, token, amount, id))
                  && DepositMoves(s, t, token, sender, amount))
  {
    FeeBounds(s, amount);
    FeeIsFeeOf(s, amount);
    if Transfer(s, token, sender, s.self, amount).Ok? {
      var s1 := Transfer(s, token, sender, s.self, amount).value;
      TransferConserves(s, token, sender, s.self, amount);
      FeeTaken(s1, token, amount, id);
    }
  }

  lemma FeeTaken(s: State, token: Address, amount: i128, id: u64)
    requires FeeCapped(s) && 0 < amount <= Balance(s, token, s.self)
    ensures 0 <= FeeDue(s, amount) < amount
    ensures var r := CollectFee(s, token, amount, id);
            && (r.Ok? <==> && amount * FeeRate(s) <= I128_MAX
                           && (Treasury(s).Some? && Treasury(s).value != s.self ==>
                                 Balance(s, token, Treasury(s).value) + FeeDue(s, amount) <= I128_MAX))
            && (r.Err? ==> r.error == HostTrap || r.error == ArithmeticOverflow)
            && (r.Ok? ==> var (t, net) := r.value;
                  && net == NetOf(s, amount)
                  && t == s.(balances := t.balances, log := s.log + FeeLog(s, token, amount, id))
                  && forall k: Address, w: Address ::
                       Balance(t, k, w) == Balance(s, k, w) + When(k == token && Treasury(s).Some?,
                         When(Treasury(s) == Some(w), FeeDue(s, amount)) - When(w == s.self, FeeDue(s, amount))))
  {
    FeeBounds(s, amount);
    FeeIsFeeOf(s, amount);
    if Treasury(s).Some? && FeeDue(s, amount) > 0 {
      if Transfer(s, token, s.self, Treasury(s).value, FeeDue(s, amount)).Ok? {
        TransferConserves(s, token, s.self, Treasury(s).value, FeeDue(s, amount));
      }
    }
  }

  // ----- Opening a stream -----

  /** A record with nothing paid yet, for these parties and on these terms. */
  ghost predicate Starts(b: Stream, sender: Address, recipient: Address, token: Address, net: int, start: int) {
    && b.sender == sender && b.recipient == recipient && b.token == token
    && b.deposited == net && b.withdrawn == 0 && b.startTime == start && b.lastUpdate == start
    && b.isActive && b.status == Active && !b.paused && b.pausedAt == None
  }

  /** One record more, under the next id, paid for by a deposit; one event after the
      fee's; nothing else. */
  ghost predicate OpenedFor(s: State, t: State, b: Stream, token: Address, sender: Address, amount: i128, event: Event)
    requires s.counter < U64_MAX && 0 <= FeeDue(s, amount) < amount
  {
    && t == s.(counter := s.counter + 1, records := s.records[s.counter + 1 := CurrentStream(b)],
               balances := t.balances,
               log := s.log + FeeLog(s, token, amount, s.counter + 1) + [LogEntry(s.tx, event)])
    && DepositMoves(s, t, token, sender, amount)
  }

  /** What a create of any kind looks at before it moves money. */
  ghost function OpeningRefusal(s: State, sender: Address, amount: int): Option<Error> {
    if sender == s.self then Some(AuthFailed)
    else if Engaged(s) then Some(ProtocolIsPaused)
    else if amount <= 0 then Some(InvalidAmount)
    else None
  }

  /** The deposit of a create, under the counter already raised. */
  lemma DepositForOpening(s: State, token: Address, sender: Address, amount: i128)
    requires FeeCapped(s) && 0 < amount && sender != s.self && s.counter < U64_MAX
    ensures 0 <= FeeDue(s, amount) < amount
    ensures var r := Deposit(s.(counter := s.counter + 1), token, sender, amount, s.counter + 1);
            && (r.Ok? <==> DepositFits(s, token, sender, amount))
            && (r.Err? ==> MoneyTrouble(r.error))
            && (r.Ok? ==> var (t, net) := r.value;
                  && net == NetOf(s, amount)
                  && t == s.(counter := s.counter + 1, balances := t.balances,
                             log := s.log + FeeLog(s, token, amount, s.counter + 1))
                  && DepositMoves(s, t, token, sender, amount))
  {
    var s1 := s.(counter := s.counter + 1);
    DepositDoes(s1, token, sender, amount, s.counter + 1);
    assert forall k: Address, w: Address :: Balance(s1, k, w) == Balance(s, k, w);
  }

  lemma RecordedAfterDeposit(s: State, m: State, token: Address, sender: Address, amount: i128, b: Stream, event: Event)
    requires s.counter < U64_MAX && 0 <= FeeDue(s, amount) < amount && DepositMoves(s, m, token, sender, amount)
    requires m == s.(counter := s.counter + 1, balances := m.balances,
                     log := s.log + FeeLog(s, token, amount, s.counter + 1))
    ensures OpenedFor(s, Emit(SaveStream(m, s.counter + 1, b), event), b, token, sender, amount, event)
  {
    assert forall k: Address, w: Address ::
      Balance(Emit(SaveStream(m, s.counter + 1, b), event), k, w) == Balance(m, k, w);
  }

  ghost predicate MoneyTrouble(e: Error) {
    e == HostTrap || e == ArithmeticOverflow
  }

  /** The linear record and event a create leaves. */
  ghost predicate OpensLinear(s: State, t: State, sender: Address, recipient: Address, token: Address, amount: i128,
                              duration: u64)
    requires s.counter < U64_MAX && 0 <= FeeDue(s, amount) < amount && 0 < duration
  {
    var id := s.counter + 1;
    && id in t.records && t.records[id].CurrentStream?
    && var b := t.records[id].stream;
       && Starts(b, sender, recipient, token, NetOf(s, amount), s.now)
       && b.ratePerSecond == NetOf(s, amount) / duration && b.schedule.Linear?
       && OpenedFor(s, t, b, token, sender, amount,
                    StreamCreated(id, sender, recipient, b.ratePerSecond, token, b.deposited, s.now))
  }

  lemma LinearOnceDeposited(s: State, m: State, sender: Address, recipient: Address, token: Address, amount: i128,
                            net: i128, duration: u64)
    requires s.counter < U64_MAX && 0 <= FeeDue(s, amount) < amount && 0 < duration && net == NetOf(s, amount)
    requires m == s.(counter := s.counter + 1, balances := m.balances,
                     log := s.log + FeeLog(s, token, amount, s.counter + 1))
    requires DepositMoves(s, m, token, sender, amount)
    ensures var r := OpenLinear(m, s.counter + 1, sender, recipient, token, net, duration);
            if net < duration then r == Err(InvalidRate)
            else && r.Ok? && r.value.1 == s.counter + 1
                 && OpensLinear(s, r.value.0, sender, recipient, token, amount, duration)
  {
    QuotientBound(net, duration);
    if duration <= net {
      var rate := net / duration;
      RecordedAfterDeposit(s, m, token, sender, amount,
                           OpenStream(sender, recipient, token, rate, net, s.now, Linear),
                           StreamCreated(s.counter + 1, sender, recipient, rate, token, net, s.now));
    } else if 1 <= net / duration {
      ProductMonotone(1, net / duration, duration);
    }
  }

  lemma LinearUpToDeposit(s: State, sender: Address, recipient: Address, token: Address, amount: i128, duration: u64)
    ensures var r := CreateStream(s, sender, recipient, token, amount, duration);
            var early := OpeningRefusal(s, sender, amount);
            && (early.Some? ==> r == Err(early.value))
            && (early.None? && duration == 0 ==> r == Err(InvalidDuration))
            && (early.None? && duration > 0 ==>
                  && (s.counter == U64_MAX ==> r == Err(HostTrap))
                  && (s.counter < U64_MAX ==>
                        var paid := Deposit(s.(counter := s.counter + 1), token, sender, amount, s.counter + 1);
                        r == if paid.Err? then Err(paid.error)
                             else OpenLinear(paid.value.0, s.counter + 1, sender, recipient, token, paid.value.1,
                                             duration)))
  {
  }

  /** A linear create is refused with the first complaint that applies; otherwise,
      once the deposit fits, it goes through exactly when that makes at least one
      token a second. */
  lemma CreateLinearDoes(s: State, sender: Address, recipient: Address, token: Address, amount: i128, duration: u64)
    requires FeeCapped(s)
    ensures var r := CreateStream(s, sender, recipient, token, amount, duration);
            var early := OpeningRefusal(s, sender, amount);
            if early.Some? then r == Err(early.value)
            else if duration == 0 then r == Err(InvalidDuration)
            else if s.counter == U64_MAX || !DepositFits(s, token, sender, amount)
            then r.Err? && MoneyTrouble(r.error)
            else if NetOf(s, amount) < duration then r == Err(InvalidRate)
            else && r.Ok? && r.value.1 == s.counter + 1 && 0 <= FeeDue(s, amount) < amount
                 && OpensLinear(s, r.value.0, sender, recipient, token, amount, duration)
  {
    LinearUpToDeposit(s, sender, recipient, token, amount, duration);
    if OpeningRefusal(s, sender, amount).None? && duration > 0 && s.counter < U64_MAX {
      DepositForOpening(s, token, sender, amount);
      if DepositFits(s, token, sender, amount) {
        var (m, net) := Deposit(s.(counter := s.counter + 1), token, sender, amount, s.counter + 1).value;
        LinearOnceDeposited(s, m, sender, recipient, token, amount, net, duration);
      }
    }
  }

  /** The step-tranche record and event a create leaves: the very steps it was given. */
  ghost predicate OpensSteps(s: State, t: State, sender: Address, recipient: Address, token: Address, amount: i128,
                             steps: seq<VestingStep>)
    requires s.counter < U64_MAX && 0 <= FeeDue(s, amount) < amount && steps != []
  {
    var id := s.counter + 1;
    && id in t.records && t.records[id].CurrentStream?
    && var b := t.records[id].stream;
       && Starts(b, sender, recipient, token, NetOf(s, amount), s.now)
       && b.ratePerSecond == 0 && b.schedule.StepTranches? && b.schedule.steps == steps
       && OpenedFor(s, t, b, token, sender, amount,
                    StepVestingCreated(id, sender, recipient, token, b.deposited, |steps|,
                                       steps[|steps| - 1].unlockTime))
  }

  /** Steps are positive, after the start and in order, and add up to the net - or
      past the i128 maximum when that is the net. */
  ghost predicate GoodSteps(steps: seq<VestingStep>, start: u64, net: int) {
    && Increasing(steps) && AllPositive(steps) && AllAfter(steps, start)
    && (TotalUnlock(steps) == net || (net == I128_MAX && TotalUnlock(steps) > I128_MAX))
  }

  lemma StepsOnceDeposited(s: State, m: State, sender: Address, recipient: Address, token: Address, amount: i128,
                           net: i128, steps: seq<VestingStep>)
    requires s.counter < U64_MAX && 0 <= FeeDue(s, amount) < amount && steps != [] && net == NetOf(s, amount)
    requires m == s.(counter := s.counter + 1, balances := m.balances,
                     log := s.log + FeeLog(s, token, amount, s.counter + 1))
    requires DepositMoves(s, m, token, sender, amount)
    ensures var r := OpenSteps(m, s.counter + 1, sender, recipient, token, net, steps);
            if GoodSteps(steps, s.now, net)
            then r.Ok? && r.value.1 == s.counter + 1
                 && OpensSteps(s, r.value.0, sender, recipient, token, amount, steps)
            else r.Err? && Some(r.error) == ScheduleVerdict(steps, s.now, net)
  {
    ScheduleAcceptedIff(steps, s.now, net);
    RecordedAfterDeposit(s, m, token, sender, amount,
                         OpenStream(sender, recipient, token, 0, net, s.now, StepTranches(steps)),
                         StepVestingCreated(s.counter + 1, sender, recipient, token, net, |steps|,
                                            steps[|steps| - 1].unlockTime));
  }

  lemma StepsUpToDeposit(s: State, sender: Address, recipient: Address, token: Address, amount: i128,
                         steps: seq<VestingStep>)
    ensures var r := CreateStepVestingStream(s, sender, recipient, token, amount, steps);
            var early := OpeningRefusal(s, sender, amount);
            && (early.Some? ==> r == Err(early.value))
            && (early.None? && steps == [] ==> r == Err(EmptyVestingSchedule))
            && (early.None? && 12 < |steps| ==> r == Err(TooManyVestingSteps))
            && (early.None? && 0 < |steps| <= 12 ==>
                  && (s.counter == U64_MAX ==> r == Err(HostTrap))
                  && (s.counter < U64_MAX ==>
                        var paid := Deposit(s.(counter := s.counter + 1), token, sender, amount, s.counter + 1);
                        r == if paid.Err? then Err(paid.error)
                             else OpenSteps(paid.value.0, s.counter + 1, sender, recipient, token, paid.value.1,
                                            steps)))
  {
  }

  /** A step-tranche create: at most 12 steps, and only good ones. */
  lemma CreateStepDoes(s: State, sender: Address, recipient: Address, token: Address, amount: i128,
                       steps: seq<VestingStep>)
    requires FeeCapped(s)
    ensures var r := CreateStepVestingStream(s, sender, recipient, token, amount, steps);
            var early := OpeningRefusal(s, sender, amount);
            if early.Some? then r == Err(early.value)
            else if steps == [] then r == Err(EmptyVestingSchedule)
            else if 12 < |steps| then r == Err(TooManyVestingSteps)
            else if s.counter == U64_MAX || !DepositFits(s, token, sender, amount)
            then r.Err? && MoneyTrouble(r.error)
            else if !GoodSteps(steps, s.now, NetOf(s, amount)) then r.Err?
            else && r.Ok? && r.value.1 == s.counter + 1 && 0 <= FeeDue(s, amount) < amount
                 && OpensSteps(s, r.value.0, sender, recipient, token, amount, steps)
  {
    StepsUpToDeposit(s, sender, recipient, token, amount, steps);
    if OpeningRefusal(s, sender, amount).None? && 0 < |steps| <= 12 && s.counter < U64_MAX {
      DepositForOpening(s, token, sender, amount);
      if DepositFits(s, token, sender, amount) {
        var (m, net) := Deposit(s.(counter := s.counter + 1), token, sender, amount, s.counter + 1).value;
        StepsOnceDeposited(s, m, sender, recipient, token, amount, net, steps);
      }
    }
  }

  /** The hybrid record and event a create leaves. */
  ghost predicate OpensHybrid(s: State, t: State, sender: Address, recipient: Address, token: Address, amount: i128,
                              cliffTime: u64, cliffAmount: i128, duration: u64)
    requires s.counter < U64_MAX && 0 <= FeeDue(s, amount) < amount && 0 < duration
  {
    var id := s.counter + 1;
    && id in t.records && t.records[id].CurrentStream?
    && var b := t.records[id].stream;
       && Starts(b, sender, recipient, token, NetOf(s, amount), s.now)
       && b.ratePerSecond == (NetOf(s, amount) - cliffAmount) / duration
       && b.schedule.HybridCliffLinear?
       && b.schedule.cliffTime == cliffTime && b.schedule.cliffAmount == cliffAmount
       && OpenedFor(s, t, b, token, sender, amount,
                    HybridCliffCreated(id, sender, recipient, token, b.deposited, cliffTime, cliffAmount,
                                       b.ratePerSecond))
  }

  /** The lump falls due after the start and leaves at least one token a second. */
  ghost predicate GoodCliff(cliffTime: u64, cliffAmount: int, duration: u64, start: u64, net: int) {
    start < cliffTime && 0 < cliffAmount && duration <= net - cliffAmount
  }

  lemma HybridOnceDeposited(s: State, m: State, sender: Address, recipient: Address, token: Address, amount: i128,
                            net: i128, cliffTime: u64, cliffAmount: i128, duration: u64)
    requires s.counter < U64_MAX && 0 <= FeeDue(s, amount) < amount && 0 < duration && net == NetOf(s, amount)
    requires m == s.(counter := s.counter + 1, balances := m.balances,
                     log := s.log + FeeLog(s, token, amount, s.counter + 1))
    requires DepositMoves(s, m, token, sender, amount)
    ensures var r := OpenHybrid(m, s.counter + 1, sender, recipient, token, net, cliffTime, cliffAmount, duration);
            if GoodCliff(cliffTime, cliffAmount, duration, s.now, net)
            then r.Ok? && r.value.1 == s.counter + 1
                 && OpensHybrid(s, r.value.0, sender, recipient, token, amount, cliffTime, cliffAmount, duration)
            else r == Err(InvalidCliffParameters)
  {
    if s.now < cliffTime && 0 < cliffAmount < net {
      var tail := net - cliffAmount;
      QuotientBound(tail, duration);
      if duration <= tail {
        var rate := tail / duration;
        RecordedAfterDeposit(s, m, token, sender, amount,
          OpenStream(sender, recipient, token, rate, net, s.now, HybridCliffLinear(cliffTime, cliffAmount)),
          HybridCliffCreated(s.counter + 1, sender, recipient, token, net, cliffTime, cliffAmount, rate));
      } else if 1 <= tail / duration {
        ProductMonotone(1, tail / duration, duration);
      }
    }
  }

  lemma HybridUpToDeposit(s: State, sender: Address, recipient: Address, token: Address, amount: i128,
                          cliffTime: u64, cliffAmount: i128, duration: u64)
    ensures var r := CreateHybridCliffStream(s, sender, recipient, token, amount, cliffTime, cliffAmount, duration);
            var early := OpeningRefusal(s, sender, amount);
            && (early.Some? ==> r == Err(early.value))
            && (early.None? && duration == 0 ==> r == Err(InvalidCliffParameters))
            && (early.None? && duration > 0 ==>
                  && (s.counter == U64_MAX ==> r == Err(HostTrap))
                  && (s.counter < U64_MAX ==>
                        var paid := Deposit(s.(counter := s.counter + 1), token, sender, amount, s.counter + 1);
                        r == if paid.Err? then Err(paid.error)
                             else OpenHybrid(paid.value.0, s.counter + 1, sender, recipient, token, paid.value.1,
                                             cliffTime, cliffAmount, duration)))
  {
  }

  /** A hybrid create: refused for want of a sensible cliff, or it keeps the lump, its
      moment and the rate that spreads the rest over the duration. */
  lemma CreateHybridDoes(s: State, sender: Address, recipient: Address, token: Address, amount: i128,
                         cliffTime: u64, cliffAmount: i128, duration: u64)
    requires FeeCapped(s)
    ensures var r := CreateHybridCliffStream(s, sender, recipient, token, amount, cliffTime, cliffAmount, duration);
            var early := OpeningRefusal(s, sender, amount);
            if early.Some? then r == Err(early.value)
            else if duration == 0 then r == Err(InvalidCliffParameters)
            else if s.counter == U64_MAX || !DepositFits(s, token, sender, amount)
            then r.Err? && MoneyTrouble(r.error)
            else if !GoodCliff(cliffTime, cliffAmount, duration, s.now, NetOf(s, amount))
            then r == Err(InvalidCliffParameters)
            else && r.Ok? && r.value.1 == s.counter + 1 && 0 <= FeeDue(s, amount) < amount
                 && OpensHybrid(s, r.value.0, sender, recipient, token, amount, cliffTime, cliffAmount, duration)
  {
    HybridUpToDeposit(s, sender, recipient, token, amount, cliffTime, cliffAmount, duration);
    if OpeningRefusal(s, sender, amount).None? && duration > 0 && s.counter < U64_MAX {
      DepositForOpening(s, token, sender, amount);
      if DepositFits(s, token, sender, amount) {
        var (m, net) := Deposit(s.(counter := s.counter + 1), token, sender, amount, s.counter + 1).value;
        HybridOnceDeposited(s, m, sender, recipient, token, amount, net, cliffTime, cliffAmount, duration);
      }
    }
  }

  // ----- Paying out -----

  /** Accrual stops where the stream was paused. */
  function AccruesUntil(a: Stream, now: u64): u64 {
    if a.pausedAt.Some? then a.pausedAt.value else now
  }

  /** Earned and not yet paid. */
  ghost function DueNow(a: Stream, now: u64): int {
    Max(0, Min(a.deposited, Earned(a, AccruesUntil(a, now))) - a.withdrawn)
  }

  lemma ClaimableIsDue(a: Stream, now: u64)
    requires WellFormed(a, now)
    ensures Claimable(a, now) == DueNow(a, now)
    ensures 0 <= DueNow(a, now) <= a.deposited - a.withdrawn
  {
    ClaimableIsEarnedMinusPaid(a, now);
  }

  /** Tokens the contract hands to one account, or to two. */
  ghost predicate PaysOut(s: State, t: State, token: Address, to: Address, amount: int, other: Address, rest: int) {
    forall k: Address, w: Address ::
      Balance(t, k, w) == Balance(s, k, w)
        + When(k == token, When(w == to, amount) + When(w == other, rest) - When(w == s.self, amount + rest))
  }

  /** What a call on one stream looks at first: who calls, and whether the record is
      there. */
  ghost function LookupRefusal(s: State, who: Address, id: u64): Option<Error> {
    if who == s.self then Some(AuthFailed)
    else if TryLoadStream(s, id).None? then Some(StreamNotFound)
    else None
  }

  ghost function WithdrawRefusal(a: Stream, recipient: Address, now: u64): Option<Error> {
    if recipient != a.recipient then Some(Unauthorized)
    else if !a.isActive then Some(StreamInactive)
    else if a.paused then Some(StreamIsPaused)
    else if Claimable(a, now) <= 0 then Some(InvalidAmount)
    else None
  }

  /** The record and events of a withdrawal: all that is due is paid, the anchor moves
      to now, and paying the last of the deposit completes the stream. */
  ghost predicate SettlesDue(s: State, t: State, id: u64, a: Stream) {
    var due := DueNow(a, s.now);
    var finished := a.withdrawn + due == a.deposited;
    && id in t.records && t.records[id].CurrentStream?
    && var b := t.records[id].stream;
       && b.withdrawn == a.withdrawn + due && b.lastUpdate == s.now
       && b.isActive == !finished && b.status == (if finished then Completed else Active)
       && b == a.(withdrawn := b.withdrawn, lastUpdate := b.lastUpdate, isActive := b.isActive, status := b.status)
       && FitsI128(due)
       && t == s.(records := s.records[id := CurrentStream(b)], balances := t.balances,
                  log := s.log + [LogEntry(s.tx, TokensWithdrawn(id, a.recipient, due, s.now))]
                           + if finished then [LogEntry(s.tx, StreamCompleted(id, a.recipient, a.deposited))] else [])
       && PaysOut(s, t, a.token, a.recipient, due, a.recipient, 0)
  }

  /** A withdrawal pays its recipient everything due, or says why not. */
  lemma WithdrawDoes(s: State, recipient: Address, id: u64)
    requires StreamsWellFormed(s)
    ensures var r := Withdraw(s, recipient, id);
            var early := LookupRefusal(s, recipient, id);
            if early.Some? then r == Err(early.value)
            else
              var a := TryLoadStream(s, id).value;
              var refusal := WithdrawRefusal(a, recipient, s.now);
              if refusal.Some? then r == Err(refusal.value)
              else if r.Err? then r.error == HostTrap
              else r.value.1 == DueNow(a, s.now) && SettlesDue(s, r.value.0, id, a)
  {
    if LookupRefusal(s, recipient, id).None? {
      var a := TryLoadStream(s, id).value;
      ClaimableIsDue(a, s.now);
      if WithdrawRefusal(a, recipient, s.now).None? {
        WithdrawalApplies(s, id, a);
      }
    }
  }

  lemma TransferPays(s: State, token: Address, to: Address, amount: int)
    ensures var r := Transfer(s, token, s.self, to, amount);
            if r.Err? then r.error == HostTrap
            else && r.value == s.(balances := r.value.balances)
                 && PaysOut(s, r.value, token, to, amount, to, 0)
  {
    if Transfer(s, token, s.self, to, amount).Ok? {
      TransferConserves(s, token, s.self, to, amount);
    }
  }

  lemma WithdrawalApplies(s: State, id: u64, a: Stream)
    requires WellFormed(a, s.now) && a.status == Active && 0 < DueNow(a, s.now) == Claimable(a, s.now)
    ensures var r := ApplyWithdrawal(s, a, id, a.recipient, Claimable(a, s.now));
            if r.Err? then r.error == HostTrap
            else SettlesDue(s, EmitWithdrawal(r.value.0, r.value.1, id, a.recipient, Claimable(a, s.now)), id, a)
  {
    var due := Claimable(a, s.now);
    ClaimableIsDue(a, s.now);
    var b := Credited(a, due, s.now).value;
    var s1 := SaveStream(s, id, b);
    TransferPays(s1, b.token, a.recipient, due);
    if Transfer(s1, b.token, s.self, a.recipient, due).Ok? {
      var t := Transfer(s1, b.token, s.self, a.recipient, due).value;
      SamePaysOut(s, s1, t, EmitWithdrawal(t, b, id, a.recipient, due), a.token, a.recipient, due, a.recipient, 0);
    }
  }

  /** The query answers what a withdrawal at the same moment would pay. */
  lemma QueryAnswers(s: State, id: u64)
    requires StreamsWellFormed(s)
    ensures GetClaimableAmount(s, id).None? <==> TryLoadStream(s, id).None?
    ensures match TryLoadStream(s, id)
            case None => true
            case Some(a) =>
              && GetClaimableAmount(s, id)
                 == Some(if a.status == Active || a.status == Paused then DueNow(a, s.now) else 0)
              && (Withdraw(s, a.recipient, id).Ok? ==>
                    GetClaimableAmount(s, id) == Some(Withdraw(s, a.recipient, id).value.1))
  {
    if TryLoadStream(s, id).Some? {
      var a := TryLoadStream(s, id).value;
      ClaimableIsDue(a, s.now);
    }
  }

  // ----- Ending a stream -----

  /** The record, payments and event of a cancellation: the part accrued is paid to the
      recipient, the rest goes back, and nothing can be due again. */
  ghost predicate Cancels(s: State, t: State, id: u64, a: Stream) {
    var accrued := DueNow(a, s.now);
    var refund := a.deposited - a.withdrawn - accrued;
    && id in t.records && t.records[id].CurrentStream?
    && var b := t.records[id].stream;
       && b.withdrawn == a.withdrawn + accrued && b.lastUpdate == s.now
       && !b.isActive && b.status == Cancelled && !b.paused && b.pausedAt == None
       && b == a.(withdrawn := b.withdrawn, lastUpdate := b.lastUpdate, isActive := b.isActive, status := b.status,
                  paused := b.paused, pausedAt := b.pausedAt)
       && FitsI128(refund)
       && t == s.(records := s.records[id := CurrentStream(b)], balances := t.balances,
                  log := s.log + [LogEntry(s.tx, StreamCancelled(id, a.sender, a.recipient, b.withdrawn, refund))])
       && PaysOut(s, t, a.token, a.recipient, accrued, a.sender, refund)
  }

  ghost function CancelRefusal(a: Stream, sender: Address): Option<Error> {
    if sender != a.sender then Some(Unauthorized)
    else if !a.isActive then Some(StreamInactive)
    else None
  }

  lemma CancelDoes(s: State, sender: Address, id: u64)
    requires StreamsWellFormed(s)
    ensures var r := CancelStream(s, sender, id);
            var early := LookupRefusal(s, sender, id);
            if early.Some? then r == Err(early.value)
            else
              var a := TryLoadStream(s, id).value;
              var refusal := CancelRefusal(a, sender);
              if refusal.Some? then r == Err(refusal.value)
              else if r.Err? then r.error == HostTrap
              else Cancels(s, r.value.0, id, a)
  {
    if LookupRefusal(s, sender, id).None? {
      var a := TryLoadStream(s, id).value;
      if CancelRefusal(a, sender).None? {
        CancellationPays(s, id, a);
      }
    }
  }

  lemma PayIfAnyDoes(s: State, token: Address, to: Address, amount: int)
    requires 0 <= amount
    ensures var r := PayIfAny(s, token, to, amount);
            if r.Err? then r.error == HostTrap
            else && r.value == s.(balances := r.value.balances)
                 && PaysOut(s, r.value, token, to, amount, to, 0)
  {
    TransferPays(s, token, to, amount);
  }

  /** Two payments, one after the other, are both made or the call is lost. */
  lemma TwoPayments(s: State, token: Address, to: Address, amount: int, other: Address, rest: int)
    requires 0 <= amount && 0 <= rest
    ensures var first := PayIfAny(s, token, to, amount);
            var second := if first.Ok? then PayIfAny(first.value, token, other, rest) else first;
            if second.Err? then second.error == HostTrap
            else && second.value == s.(balances := second.value.balances)
                 && PaysOut(s, second.value, token, to, amount, other, rest)
  {
    PayIfAnyDoes(s, token, to, amount);
    if PayIfAny(s, token, to, amount).Ok? {
      PayIfAnyDoes(PayIfAny(s, token, to, amount).value, token, other, rest);
    }
  }

  lemma SamePaysOut(s: State, s1: State, t1: State, t: State, token: Address, to: Address, amount: int, other: Address,
                    rest: int)
    requires PaysOut(s1, t1, token, to, amount, other, rest)
    requires (s1.balances, s1.self) == (s.balances, s.self) && t.balances == t1.balances
    ensures PaysOut(s, t, token, to, amount, other, rest)
  {
    forall k: Address, w: Address
      ensures Balance(s1, k, w) == Balance(s, k, w) && Balance(t, k, w) == Balance(t1, k, w)
    {
    }
  }

  lemma CancelledIs(a: Stream, now: u64)
    requires WellFormed(a, now) && a.isActive
    ensures var b, accrued := CancelledStream(a, now), DueNow(a, now);
            && b == a.(withdrawn := a.withdrawn + accrued, isActive := false, status := Cancelled, paused := false,
                       pausedAt := None, lastUpdate := now)
            && Claimable(a, now) == accrued && 0 <= accrued <= a.deposited - a.withdrawn
            && SaturatingSub(b.deposited, b.withdrawn) == a.deposited - a.withdrawn - accrued
  {
    ClaimableIsDue(a, now);
  }

  lemma CancellationPays(s: State, id: u64, a: Stream)
    requires WellFormed(a, s.now) && a.isActive && a.sender != s.self && TryLoadStream(s, id) == Some(a)
    ensures var r := CancelStream(s, a.sender, id);
            if r.Err? then r.error == HostTrap else Cancels(s, r.value.0, id, a)
  {
    CancelledIs(a, s.now);
    var accrued := DueNow(a, s.now);
    var refund := a.deposited - a.withdrawn - accrued;
    var s1 := SaveStream(s, id, CancelledStream(a, s.now));
    TwoPayments(s1, a.token, a.recipient, accrued, a.sender, refund);
    if PayIfAny(s1, a.token, a.recipient, accrued).Ok? {
      var s2 := PayIfAny(s1, a.token, a.recipient, accrued).value;
      if PayIfAny(s2, a.token, a.sender, refund).Ok? {
        SamePaysOut(s, s1, PayIfAny(s2, a.token, a.sender, refund).value, CancelStream(s, a.sender, id).value.0,
                    a.token, a.recipient, accrued, a.sender, refund);
      }
    }
  }

  ghost function CloseRefusal(s: State, a: Stream, caller: Address): Option<Error> {
    if caller != a.sender && caller != a.recipient
       && !(TryLoadConfig(s).Some? && TryLoadConfig(s).value.admin == caller) then Some(Unauthorized)
    else if a.isActive || (a.status != Completed && a.status != Cancelled) then Some(StreamStillActive)
    else if a.status == Completed && (a.deposited != a.withdrawn || Claimable(a, s.now) != 0)
    then Some(StreamStillActive)
    else None
  }

  /** A close deletes the record and says so; everything else stays. It refuses, in any
      store at all, streams still active and completed ones not paid out to the last. */
  lemma CloseDoes(s: State, caller: Address, id: u64)
    ensures var r := CloseStream(s, caller, id);
            var early := LookupRefusal(s, caller, id);
            if early.Some? then r == Err(early.value)
            else
              var refusal := CloseRefusal(s, TryLoadStream(s, id).value, caller);
              if refusal.Some? then r == Err(refusal.value)
              else && r.Ok? && id !in r.value.0.records
                   && r.value.0 == s.(records := map j | j in s.records && j != id :: s.records[j],
                                      log := s.log + [LogEntry(s.tx, StreamClosed(id, caller, s.now))])
  {
    if LookupRefusal(s, caller, id).None? {
      assert s.records - {id} == map j | j in s.records && j != id :: s.records[j];
    }
  }

  // ----- Pausing -----

  ghost function PauseRefusal(a: Stream, sender: Address): Option<Error> {
    if sender != a.sender then Some(Unauthorized)
    else if !a.isActive then Some(StreamInactive)
    else if a.paused then Some(StreamAlreadyPaused)
    else None
  }

  /** A pause marks the record with the moment, and from then on what is due stands
      still. */
  lemma PauseDoes(s: State, sender: Address, id: u64, later: u64)
    requires StreamsWellFormed(s) && s.now <= later
    ensures var r := PauseStream(s, sender, id);
            var early := LookupRefusal(s, sender, id);
            if early.Some? then r == Err(early.value)
            else
              var a := TryLoadStream(s, id).value;
              var refusal := PauseRefusal(a, sender);
              if refusal.Some? then r == Err(refusal.value)
              else
                var b := a.(paused := true, pausedAt := Some(s.now), status := Paused);
                && r.Ok?
                && r.value.0 == s.(records := s.records[id := CurrentStream(b)],
                                   log := s.log + [LogEntry(s.tx, StreamPaused(id, a.sender, s.now))])
                && DueNow(b, later) == DueNow(a, s.now)
  {
  }

  // ----- Calls that report an end time -----

  /** Deposited, but neither paid nor due. */
  ghost function Undrawn(a: Stream, now: u64): int {
    a.deposited - a.withdrawn - DueNow(a, now)
  }

  lemma UnaccruedIsUndrawn(a: Stream, now: u64)
    requires WellFormed(a, now)
    ensures Unaccrued(a, now) == Undrawn(a, now) && 0 <= Undrawn(a, now) <= a.deposited
  {
    ClaimableIsDue(a, now);
  }

  ghost function ResumeRefusal(a: Stream, sender: Address): Option<Error> {
    if sender != a.sender then Some(Unauthorized)
    else if !a.isActive then Some(StreamNotActive)
    else if !a.paused then Some(StreamNotPaused)
    else None
  }

  /** The end a resume reports: for a drip, now and the seconds the undrawn balance
      lasts, their number cut to 64 bits; for the others a date in the schedule. */
  ghost function ResumedEnd(a: Stream, now: u64): int
    requires SoundSchedule(a)
  {
    match a.schedule
    case Linear => now + (Undrawn(a, now) / a.ratePerSecond) % 0x1_0000_0000_0000_0000
    case StepTranches(steps) => if steps == [] then a.lastUpdate else steps[|steps| - 1].unlockTime
    case HybridCliffLinear(cliffTime, cliffAmount) =>
      Min(U64_MAX, cliffTime + ((a.deposited - cliffAmount) / a.ratePerSecond) % 0x1_0000_0000_0000_0000)
  }

  lemma ResumeEndIs(a: Stream, now: u64)
    requires WellFormed(a, now) && a.status == Paused
    ensures var r := ResumeEndTime(Reanchored(a, now), now, Unaccrued(a, now));
            && (ResumedEnd(a, now) <= U64_MAX ==> r == Ok(ResumedEnd(a, now)))
            && (ResumedEnd(a, now) > U64_MAX ==> r == Err(HostTrap))
  {
    UnaccruedIsUndrawn(a, now);
    match a.schedule
    case Linear => QuotientBound(Undrawn(a, now), a.ratePerSecond);
    case StepTranches(steps) => assert steps != [];
    case HybridCliffLinear(_, cliffAmount) =>
      var unclaimed := SaturatingSub(cliffAmount, a.withdrawn);
      assert SaturatingSub(SaturatingSub(a.deposited, a.withdrawn), unclaimed) == a.deposited - cliffAmount;
  }

  /** A resume moves the anchor on by the length of the pause, so that the pause has
      earned a drip nothing, and reports one and the same end in its answer and its event. */
  lemma ResumeDoes(s: State, sender: Address, id: u64)
    requires StreamsWellFormed(s)
    ensures var r := ResumeStream(s, sender, id);
            var early := LookupRefusal(s, sender, id);
            if early.Some? then r == Err(early.value)
            else
              var a := TryLoadStream(s, id).value;
              var refusal := ResumeRefusal(a, sender);
              if refusal.Some? then r == Err(refusal.value)
              else if ResumedEnd(a, s.now) > U64_MAX then r == Err(HostTrap)
              else
                var b := a.(lastUpdate := a.lastUpdate + (s.now - a.pausedAt.value), paused := false,
                            pausedAt := None, status := Active);
                && r.Ok? && r.value.1 == ResumedEnd(a, s.now)
                && r.value.0 == s.(records := s.records[id := CurrentStream(b)],
                                   log := s.log + [LogEntry(s.tx, StreamResumed(id, a.sender, ResumedEnd(a, s.now)))])
                && (a.schedule.Linear? ==> DueNow(b, s.now) == DueNow(a, s.now))
  {
    if LookupRefusal(s, sender, id).None? {
      var a := TryLoadStream(s, id).value;
      if ResumeRefusal(a, sender).None? {
        ResumeEndIs(a, s.now);
        ResumedWellFormed(a, s.now);
        ResumedDue(a, s.now);
      }
    }
  }

  lemma ResumedDue(a: Stream, now: u64)
    requires WellFormed(a, now) && a.status == Paused && a.lastUpdate + (now - a.pausedAt.value) <= U64_MAX
    ensures var b := a.(lastUpdate := a.lastUpdate + (now - a.pausedAt.value), paused := false,
                        pausedAt := None, status := Active);
            a.schedule.Linear? ==> DueNow(b, now) == DueNow(a, now)
  {
  }

  ghost function TopUpRefusal(a: Stream, sender: Address): Option<Error> {
    if sender != a.sender then Some(Unauthorized)
    else if !a.isActive then Some(StreamInactive)
    else if a.schedule.StepTranches? then Some(TopUpUnsupported)
    else None
  }

  /** The end a top-up reports, for the record with the deposit already raised. */
  ghost function ToppedUpEnd(b: Stream, now: u64): int
    requires b.ratePerSecond != 0
  {
    now + Undrawn(b, now) / b.ratePerSecond
  }

  /** The new deposit, or the end it makes, is too big to write down. */
  ghost predicate TopUpOverflows(a: Stream, net: int, now: u64)
    requires a.ratePerSecond != 0
  {
    !FitsI128(a.deposited + net) || !FitsU64(ToppedUpEnd(a.(deposited := a.deposited + net), now))
  }

  /** The record and events of a top-up: the deposit is raised by the net, the anchor
      stays, and the event says the net, the new deposit and the end. */
  ghost predicate TopsUp(s: State, t: State, id: u64, a: Stream, amount: i128)
    requires 0 <= FeeDue(s, amount) < amount && a.ratePerSecond != 0
  {
    && id in t.records && t.records[id].CurrentStream?
    && var b := t.records[id].stream;
       && b.deposited == a.deposited + NetOf(s, amount) && b == a.(deposited := b.deposited)
       && FitsU64(ToppedUpEnd(b, s.now))
       && t == s.(records := s.records[id := CurrentStream(b)], balances := t.balances,
                  log := s.log + FeeLog(s, a.token, amount, id)
                    + [LogEntry(s.tx, StreamToppedUp(id, a.sender, NetOf(s, amount), b.deposited,
                                                     ToppedUpEnd(b, s.now)))])
       && DepositMoves(s, t, a.token, a.sender, amount)
  }

  lemma EndFigureIs(b: Stream, now: u64)
    requires WellFormed(b, now) && b.ratePerSecond > 0
    ensures ProjectEndTime(now, Unaccrued(b, now), b.ratePerSecond)
         == if FitsU64(ToppedUpEnd(b, now)) then Ok(ToppedUpEnd(b, now)) else Err(ArithmeticOverflow)
  {
    UnaccruedIsUndrawn(b, now);
    QuotientBound(Undrawn(b, now), b.ratePerSecond);
  }

  lemma FundedIs(a: Stream, net: i128, now: u64)
    requires WellFormed(a, now) && a.isActive && !a.schedule.StepTranches? && 0 < net
    ensures a.deposited + net > I128_MAX ==> Funded(a, net, now) == Err(ArithmeticOverflow)
    ensures a.deposited + net <= I128_MAX ==>
              var b := a.(deposited := a.deposited + net);
              Funded(a, net, now) == if FitsU64(ToppedUpEnd(b, now)) then Ok((b, ToppedUpEnd(b, now)))
                                     else Err(ArithmeticOverflow)
  {
    if a.deposited + net <= I128_MAX {
      var b := a.(deposited := a.deposited + net);
      ToppedUpWellFormed(a, b, now);
      EndFigureIs(b, now);
    }
  }

  lemma TopUpPays(s: State, id: u64, a: Stream, amount: i128)
    requires FeeCapped(s) && WellFormed(a, s.now) && a.isActive && !a.schedule.StepTranches? && 0 < amount
    requires a.sender != s.self && Deposit(s, a.token, a.sender, amount, id).Ok?
    ensures 0 <= FeeDue(s, amount) < amount
    ensures var (m, net) := Deposit(s, a.token, a.sender, amount, id).value;
            var r := CreditTopUp(m, a.sender, id, a, net);
            if TopUpOverflows(a, NetOf(s, amount), s.now) then r == Err(ArithmeticOverflow)
            else r.Ok? && TopsUp(s, r.value.0, id, a, amount)
  {
    DepositDoes(s, a.token, a.sender, amount, id);
    var (m, net) := Deposit(s, a.token, a.sender, amount, id).value;
    FundedIs(a, net, s.now);
    if CreditTopUp(m, a.sender, id, a, net).Ok? {
      var t := CreditTopUp(m, a.sender, id, a, net).value.0;
      assert forall k: Address, w: Address :: Balance(t, k, w) == Balance(m, k, w);
    }
  }

  /** A top-up, with everything that can stop one. */
  lemma TopUpDoes(s: State, sender: Address, id: u64, amount: i128)
    requires StreamsWellFormed(s)
    ensures var r := TopUpStream(s, sender, id, amount);
            var early := OpeningRefusal(s, sender, amount);
            if early.Some? then r == Err(early.value)
            else if TryLoadStream(s, id).None? then r == Err(StreamNotFound)
            else
              var a := TryLoadStream(s, id).value;
              var refusal := TopUpRefusal(a, sender);
              if refusal.Some? then r == Err(refusal.value)
              else if !DepositFits(s, a.token, sender, amount) then r.Err? && MoneyTrouble(r.error)
              else if a.ratePerSecond != 0 && TopUpOverflows(a, NetOf(s, amount), s.now)
              then r == Err(ArithmeticOverflow)
              else && r.Ok? && 0 <= FeeDue(s, amount) < amount && a.ratePerSecond != 0
                   && TopsUp(s, r.value.0, id, a, amount)
  {
    if OpeningRefusal(s, sender, amount).None? && TryLoadStream(s, id).Some? {
      var a := TryLoadStream(s, id).value;
      if TopUpRefusal(a, sender).None? {
        DepositDoes(s, a.token, sender, amount, id);
        if DepositFits(s, a.token, sender, amount) {
          TopUpPays(s, id, a, amount);
        }
      }
    }
  }

  // ----- Refusals in any store, well formed or not -----

  /** The calls of a recipient or a sender on one stream are refused with the first of
      these complaints, whatever record is stored; past them only the host, or a sum
      that does not fit, can stop a call. */
  lemma WithdrawRefuses(s: State, recipient: Address, id: u64)
    ensures var r, early := Withdraw(s, recipient, id), LookupRefusal(s, recipient, id);
            if early.Some? then r == Err(early.value)
            else
              var refusal := WithdrawRefusal(TryLoadStream(s, id).value, recipient, s.now);
              if refusal.Some? then r == Err(refusal.value) else r.Err? ==> MoneyTrouble(r.error)
  {
  }

  lemma CancelRefuses(s: State, sender: Address, id: u64)
    ensures var r, early := CancelStream(s, sender, id), LookupRefusal(s, sender, id);
            if early.Some? then r == Err(early.value)
            else
              var refusal := CancelRefusal(TryLoadStream(s, id).value, sender);
              if refusal.Some? then r == Err(refusal.value) else r.Err? ==> r.error == HostTrap
  {
  }

  lemma PauseRefuses(s: State, sender: Address, id: u64)
    ensures var r, early := PauseStream(s, sender, id), LookupRefusal(s, sender, id);
            if early.Some? then r == Err(early.value)
            else
              var refusal := PauseRefusal(TryLoadStream(s, id).value, sender);
              if refusal.Some? then r == Err(refusal.value) else r.Ok?
  {
  }

  lemma ResumeRefuses(s: State, sender: Address, id: u64)
    ensures var r, early := ResumeStream(s, sender, id), LookupRefusal(s, sender, id);
            if early.Some? then r == Err(early.value)
            else
              var refusal := ResumeRefusal(TryLoadStream(s, id).value, sender);
              if refusal.Some? then r == Err(refusal.value) else r.Err? ==> r.error == HostTrap
  {
  }

  lemma TopUpRefuses(s: State, sender: Address, id: u64, amount: i128)
    ensures var r, early := TopUpStream(s, sender, id, amount), OpeningRefusal(s, sender, amount);
            if early.Some? then r == Err(early.value)
            else if TryLoadStream(s, id).None? then r == Err(StreamNotFound)
            else
              var refusal := TopUpRefusal(TryLoadStream(s, id).value, sender);
              if refusal.Some? then r == Err(refusal.value) else r.Err? ==> MoneyTrouble(r.error)
  {
  }
}
