/** The terms a stream was opened on bind it for life: what its recipient has had or
    can take is a matter of the arguments of the create, of the clock and of pauses. */
module Terms {
  import opened Bounded
  import opened Results
  import opened StreamTypes
  import opened Storage
  import opened Vesting
  import opened Entrypoints
  import opened Lifecycle
  import opened Solvency
  import opened Runs
  import opened ClosedForm
  import opened Calls

  // ----- From the create on -----

  /** Later states of a stream that is still running: who, in what token, since when,
      at what rate and on what schedule never change. */
  lemma TermsKept(t: State, steps: seq<Step>, id: u64)
    requires StreamsWellFormed(t) && TryLoadStream(t, id).Some? && TryLoadStream(Run(t, steps), id).Some?
    ensures var b, a := TryLoadStream(t, id).value, TryLoadStream(Run(t, steps), id).value;
            && (a.sender, a.recipient, a.token, a.ratePerSecond, a.startTime, a.schedule)
            == (b.sender, b.recipient, b.token, b.ratePerSecond, b.startTime, b.schedule)
            && b.deposited <= a.deposited && WellFormed(a, Run(t, steps).now)
  {
    RunInvariant(t, steps);
    assert LaterAt(t, Run(t, steps), id);
    assert id in Run(t, steps).records;
  }

  /** Parties and start as given to the create. */
  ghost predicate For(a: Stream, sender: Address, recipient: Address, token: Address, start: int) {
    a.sender == sender && a.recipient == recipient && a.token == token && a.startTime == start
  }

  /** A successful create leaves a well-formed store behind. */
  lemma OpenedWellFormed(s: State, call: Call)
    requires StreamsWellFormed(s) && (call.CallCreateLinear? || call.CallCreateStep? || call.CallCreateHybrid?)
    ensures StreamsWellFormed(Exec(s, call).0)
  {
    CallKeeps(s, call);
  }

  /** A linear stream, over every later run: paid out or ready is the rate its net
      deposit makes over its duration, for every unpaused second since it was opened. */
  lemma LinearTermsBind(s: State, sender: Address, recipient: Address, token: Address, amount: i128, duration: u64,
                        steps: seq<Step>)
    requires StreamsWellFormed(s) && CreateStream(s, sender, recipient, token, amount, duration).Ok?
    requires var t := CreateStream(s, sender, recipient, token, amount, duration).value.0;
             && TryLoadStream(Run(t, steps), s.counter + 1).Some?
             && TryLoadStream(Run(t, steps), s.counter + 1).value.isActive
    ensures duration > 0 && s.counter < U64_MAX
    ensures var t := CreateStream(s, sender, recipient, token, amount, duration).value.0;
            var u := Run(t, steps);
            var a := TryLoadStream(u, s.counter + 1).value;
            && For(a, sender, recipient, token, s.now) && NetOf(s, amount) <= a.deposited
            && a.withdrawn + Claimable(a, u.now)
               == Min(a.deposited, NetOf(s, amount) / duration * UnpausedSeconds(t, steps, s.counter + 1))
  {
    var id := s.counter + 1;
    var t := CreateStream(s, sender, recipient, token, amount, duration).value.0;
    CreateLinearDoes(s, sender, recipient, token, amount, duration);
    OpenedWellFormed(s, CallCreateLinear(sender, recipient, token, amount, duration));
    assert TryLoadStream(t, id) == Some(t.records[id].stream) && t.now == s.now;
    TermsKept(t, steps, id);
    assert EarnedBefore(t, id) == 0;
    LinearClosedForm(t, steps, id);
  }

  /** A step stream, over every later run: paid out or ready is the sum of those very
      steps it was opened with that are due, by now or by the pause. */
  lemma StepTermsBind(s: State, sender: Address, recipient: Address, token: Address, amount: i128,
                      tranches: seq<VestingStep>, steps: seq<Step>)
    requires StreamsWellFormed(s) && CreateStepVestingStream(s, sender, recipient, token, amount, tranches).Ok?
    requires var t := CreateStepVestingStream(s, sender, recipient, token, amount, tranches).value.0;
             && TryLoadStream(Run(t, steps), s.counter + 1).Some?
             && TryLoadStream(Run(t, steps), s.counter + 1).value.isActive
    ensures s.counter < U64_MAX
    ensures var u := Run(CreateStepVestingStream(s, sender, recipient, token, amount, tranches).value.0, steps);
            var a := TryLoadStream(u, s.counter + 1).value;
            && For(a, sender, recipient, token, s.now) && a.deposited == NetOf(s, amount)
            && a.withdrawn + Claimable(a, u.now)
               == Min(NetOf(s, amount), UnlockedBy(tranches, AccruesUntil(a, u.now)))
  {
    var id := s.counter + 1;
    var t := CreateStepVestingStream(s, sender, recipient, token, amount, tranches).value.0;
    CreateStepDoes(s, sender, recipient, token, amount, tranches);
    OpenedWellFormed(s, CallCreateStep(sender, recipient, token, amount, tranches));
    assert TryLoadStream(t, id) == Some(t.records[id].stream);
    assert WellFormed(t.records[id].stream, t.now);
    TermsKept(t, steps, id);
    EntitlementIsEarned(TryLoadStream(Run(t, steps), id).value, Run(t, steps).now);
  }

  /** A hybrid stream, over every later run: nothing before the cliff, and from then on
      the lump and the rate its remainder makes over the duration. */
  lemma HybridTermsBind(s: State, sender: Address, recipient: Address, token: Address, amount: i128,
                        cliffTime: u64, cliffAmount: i128, duration: u64, steps: seq<Step>)
    requires StreamsWellFormed(s)
    requires CreateHybridCliffStream(s, sender, recipient, token, amount, cliffTime, cliffAmount, duration).Ok?
    requires var t := CreateHybridCliffStream(s, sender, recipient, token, amount, cliffTime, cliffAmount,
                                              duration).value.0;
             && TryLoadStream(Run(t, steps), s.counter + 1).Some?
             && TryLoadStream(Run(t, steps), s.counter + 1).value.isActive
    ensures s.counter < U64_MAX && duration > 0
    ensures var u := Run(CreateHybridCliffStream(s, sender, recipient, token, amount, cliffTime, cliffAmount,
                                                 duration).value.0, steps);
            var a := TryLoadStream(u, s.counter + 1).value;
            var rate := (NetOf(s, amount) - cliffAmount) / duration;
            && For(a, sender, recipient, token, s.now) && NetOf(s, amount) <= a.deposited
            && a.withdrawn + Claimable(a, u.now)
               == Min(a.deposited, LumpAndDrip(cliffTime, cliffAmount, rate, AccruesUntil(a, u.now)))
  {
    var t := CreateHybridCliffStream(s, sender, recipient, token, amount, cliffTime, cliffAmount, duration).value.0;
    HybridOpened(s, sender, recipient, token, amount, cliffTime, cliffAmount, duration);
    HybridLater(t, s.counter + 1, steps);
  }

  lemma HybridOpened(s: State, sender: Address, recipient: Address, token: Address, amount: i128,
                     cliffTime: u64, cliffAmount: i128, duration: u64)
    requires StreamsWellFormed(s)
    requires CreateHybridCliffStream(s, sender, recipient, token, amount, cliffTime, cliffAmount, duration).Ok?
    ensures s.counter < U64_MAX && duration > 0
    ensures var t := CreateHybridCliffStream(s, sender, recipient, token, amount, cliffTime, cliffAmount,
                                             duration).value.0;
            && StreamsWellFormed(t) && TryLoadStream(t, s.counter + 1).Some?
            && var b := TryLoadStream(t, s.counter + 1).value;
               && For(b, sender, recipient, token, s.now) && b.deposited == NetOf(s, amount)
               && b.ratePerSecond == (NetOf(s, amount) - cliffAmount) / duration
               && b.schedule == HybridCliffLinear(cliffTime, cliffAmount)
  {
    CreateHybridDoes(s, sender, recipient, token, amount, cliffTime, cliffAmount, duration);
    OpenedWellFormed(s, CallCreateHybrid(sender, recipient, token, amount, cliffTime, cliffAmount, duration));
  }

  /** What a hybrid schedule has unlocked. */
  ghost function LumpAndDrip(cliffTime: int, cliffAmount: int, rate: int, until: int): int {
    if until < cliffTime then 0 else cliffAmount + rate * (until - cliffTime)
  }

  lemma HybridLater(t: State, id: u64, steps: seq<Step>)
    requires StreamsWellFormed(t) && TryLoadStream(t, id).Some?
    requires TryLoadStream(t, id).value.schedule.HybridCliffLinear?
    requires TryLoadStream(Run(t, steps), id).Some? && TryLoadStream(Run(t, steps), id).value.isActive
    ensures var u, b := Run(t, steps), TryLoadStream(t, id).value;
            var a := TryLoadStream(u, id).value;
            && For(a, b.sender, b.recipient, b.token, b.startTime) && b.deposited <= a.deposited
            && a.withdrawn + Claimable(a, u.now)
               == Min(a.deposited, LumpAndDrip(b.schedule.cliffTime, b.schedule.cliffAmount, b.ratePerSecond,
                                               AccruesUntil(a, u.now)))
  {
    TermsKept(t, steps, id);
    HybridEntitlement(TryLoadStream(Run(t, steps), id).value, Run(t, steps).now);
  }

  lemma HybridEntitlement(a: Stream, now: u64)
    requires WellFormed(a, now) && a.isActive && a.schedule.HybridCliffLinear?
    ensures a.withdrawn + Claimable(a, now)
         == Min(a.deposited, LumpAndDrip(a.schedule.cliffTime, a.schedule.cliffAmount, a.ratePerSecond,
                                         AccruesUntil(a, now)))
  {
    EntitlementIsEarned(a, now);
    if a.schedule.cliffTime <= AccruesUntil(a, now) {
      ProductMonotone(0, AccruesUntil(a, now) - a.schedule.cliffTime, a.ratePerSecond);
    }
  }

  // ----- After the close -----

  /** A closed stream is gone for good: its id is never issued again, and whoever closes
      it once more, after any run at all, is told that it does not exist. */
  lemma ClosedForGood(s: State, caller: Address, id: u64, steps: seq<Step>, other: Address)
    requires StreamsWellFormed(s) && CloseStream(s, caller, id).Ok?
    ensures var u := Run(CloseStream(s, caller, id).value.0, steps);
            && id !in u.records && id <= u.counter
            && CloseStream(u, other, id) == Err(if other == u.self then AuthFailed else StreamNotFound)
  {
    var t := CloseStream(s, caller, id).value.0;
    CloseDoes(s, caller, id);
    CallKeeps(s, CallClose(caller, id));
    RunInvariant(t, steps);
    assert id in s.records && id <= s.counter;
    assert id <= t.counter && id !in t.records;
  }

  // ----- Records from before schedules existed -----

  /** A legacy record is read in full, field by field, as a linear stream. */
  lemma LegacyRecordRead(s: State, id: u64, l: LegacyStream)
    requires id in s.records && s.records[id] == OldStream(l)
    ensures TryLoadStream(s, id).Some?
    ensures var a := TryLoadStream(s, id).value;
            && a.sender == l.sender && a.recipient == l.recipient && a.token == l.token
            && a.ratePerSecond == l.ratePerSecond && a.deposited == l.deposited && a.withdrawn == l.withdrawn
            && a.startTime == l.startTime && a.lastUpdate == l.lastUpdate
            && a.isActive == l.isActive && a.paused == l.paused && a.pausedAt == l.pausedAt && a.status == l.status
            && a.schedule.Linear?
  {
  }

  /** Legacy settings: admin, treasury and fee kept, the breaker off, no guardian. */
  lemma LegacyConfigRead(s: State, l: LegacyConfig)
    requires s.config == Some(OldConfig(l))
    ensures TryLoadConfig(s).Some?
    ensures var c := TryLoadConfig(s).value;
            && c.admin == l.admin && c.treasury == l.treasury && c.feeRateBps == l.feeRateBps
            && !c.isProtocolPaused && c.emergencyGuardian.None?
  {
  }

  /** Current records and settings are read as they are; anything else not at all. */
  lemma CurrentRead(s: State, id: u64)
    ensures id !in s.records || s.records[id].UnreadableStream? ==> TryLoadStream(s, id).None?
    ensures id in s.records && s.records[id].CurrentStream? ==> TryLoadStream(s, id) == Some(s.records[id].stream)
    ensures s.config.None? || s.config.value.UnreadableConfig? ==> TryLoadConfig(s).None?
    ensures s.config.Some? && s.config.value.CurrentConfig? ==> TryLoadConfig(s) == Some(s.config.value.config)
  {
  }

  /** The first withdrawal from a running legacy stream pays its recipient the drip
      since its anchor, up to what is left, and stores the record in the current shape
      on the terms of old. */
  lemma FirstLegacyWithdrawal(s: State, id: u64, l: LegacyStream)
    requires StreamsWellFormed(s) && Solvent(s) && id in s.records && s.records[id] == OldStream(l)
    requires l.status == Active && l.lastUpdate < s.now && l.recipient != s.self
    requires Balance(s, l.token, l.recipient) + (l.deposited - l.withdrawn) <= I128_MAX
    ensures l.lastUpdate <= s.now && Withdraw(s, l.recipient, id).Ok?
    ensures var (t, paid) := Withdraw(s, l.recipient, id).value;
            && paid == Min(l.ratePerSecond * (s.now - l.lastUpdate), l.deposited - l.withdrawn) > 0
            && Balance(t, l.token, l.recipient) == Balance(s, l.token, l.recipient) + paid
            && Balance(t, l.token, s.self) == Balance(s, l.token, s.self) - paid
            && t.records[id].CurrentStream?
            && var b := t.records[id].stream;
               && For(b, l.sender, l.recipient, l.token, l.startTime)
               && b.ratePerSecond == l.ratePerSecond && b.deposited == l.deposited && b.schedule.Linear?
               && b.withdrawn == l.withdrawn + paid && b.lastUpdate == s.now
  {
    LegacyRecordRead(s, id, l);
    var a := TryLoadStream(s, id).value;
    assert WellFormed(a, s.now);
    ClaimableIsDue(a, s.now);
    ProductMonotone(1, s.now - l.lastUpdate, l.ratePerSecond);
    WithdrawSucceedsIff(s, id);
    WithdrawDoes(s, l.recipient, id);
  }
}
