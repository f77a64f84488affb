/** What a recipient has been paid and could still take, as a closed formula: of
    the unpaused seconds for linear streams, of the clock alone for the other two,
    and independent of when and how often withdrawals happened. */
module ClosedForm {
  import opened Bounded
  import opened Results
  import opened StreamTypes
  import opened Storage
  import opened Vesting
  import opened Entrypoints
  import opened Lifecycle
  import opened Solvency
  import opened Runs

  // ----- Linear streams under any interleaving -----

  /** A stored stream that is accruing. */
  ghost predicate Accruing(s: State, id: u64) {
    match TryLoadStream(s, id)
    case None => false
    case Some(stream) => stream.isActive && !stream.paused
  }

  /** Seconds one step adds to a stream's accrual. */
  ghost function SecondsIn(s: State, step: Step, id: u64): nat {
    if step.Tick? && FitsU64(s.now + step.seconds) && Accruing(s, id) then step.seconds else 0
  }

  /** Seconds of a run that went by while the stream existed, active and unpaused. */
  ghost function UnpausedSeconds(s: State, steps: seq<Step>, id: u64): nat
    decreases |steps|
  {
    if steps == [] then 0
    else
      var front, step := steps[..|steps| - 1], steps[|steps| - 1];
      var m := Run(s, front);
      UnpausedSeconds(s, front, id) + SecondsIn(m, step, id)
  }

  /** What a stream had earned by the moment a run begins; nothing if it is opened in
      the run. */
  ghost function EarnedBefore(s: State, id: u64): int {
    match TryLoadStream(s, id)
    case None => 0
    case Some(a) => Earned(a, EffectiveTime(a, s.now))
  }

  /** Payments so far are what was earned before, `base`, and the rate times the
      unpaused seconds since, up to the anchor. */
  ghost predicate PaidByTheSecond(s: State, id: u64, base: int, seconds: int) {
    match TryLoadStream(s, id)
    case None => id in s.records || s.counter < id ==> seconds == 0 && base == 0
    case Some(a) => a.isActive && a.schedule.Linear? ==>
      a.withdrawn == base + a.ratePerSecond * (seconds - (EffectiveTime(a, s.now) - a.lastUpdate))
  }

  lemma MovedKeepsPace(a: Stream, b: Stream, now: u64, base: int, seconds: int)
    requires WellFormed(a, now) && Moved(a, b, now) && a.schedule.Linear? && b.isActive
    requires a.withdrawn == base + a.ratePerSecond * (seconds - (EffectiveTime(a, now) - a.lastUpdate))
    ensures b.withdrawn == base + b.ratePerSecond * (seconds - (EffectiveTime(b, now) - b.lastUpdate))
  {
    if !a.paused && Claimable(a, now) > 0 && Credited(a, Claimable(a, now), now) == Ok(b) {
      SettledWellFormed(a, b, now);
      var elapsed := now - a.lastUpdate;
      assert b.withdrawn == a.withdrawn + a.ratePerSecond * elapsed;
      Distribute(a.ratePerSecond, seconds - elapsed, elapsed);
    } else if a.paused && b == ResumedStream(a, now) {
      ResumedWellFormed(a, now);
    }
  }

  lemma EvolvedKeepsPace(s: State, t: State, id: u64, base: int, seconds: int)
    requires StreamsWellFormed(s) && Evolved(s, t) && PaidByTheSecond(s, id, base, seconds)
    ensures PaidByTheSecond(t, id, base, seconds)
  {
    assert EvolvedAt(s, t, id);
    if id in s.records && id in t.records {
      if t.records[id] != s.records[id] {
        var a, b := TryLoadStream(s, id).value, t.records[id].stream;
        MovedWellFormed(a, b, s.now);
        if a.schedule.Linear? && b.isActive {
          MovedKeepsPace(a, b, s.now, base, seconds);
        }
      }
    } else if id in t.records {
      assert seconds == 0;
    }
  }

  lemma {:induction false} BatchKeepsPace(s: State, recipient: Address, ids: seq<u64>, paid: Payouts,
                                          id: u64, base: int, seconds: int)
    requires StreamsWellFormed(s) && recipient != s.self && PaidByTheSecond(s, id, base, seconds)
    requires BatchLoop(s, recipient, ids, paid).Ok?
    ensures PaidByTheSecond(BatchLoop(s, recipient, ids, paid).value.0, id, base, seconds)
    decreases |ids|
  {
    if ids != [] {
      BatchRoundIsWithdrawOrSkip(s, recipient, ids[0]);
      var (s1, amount) := BatchRound(s, recipient, ids[0]).value;
      if amount.Some? {
        WithdrawEffect(s, recipient, ids[0]);
        EvolvedWellFormed(s, s1);
        EvolvedKeepsPace(s, s1, id, base, seconds);
      }
      BatchKeepsPace(s1, recipient, ids[1..],
        if amount.Some? then paid + [(ids[0], amount.value)] else paid, id, base, seconds);
    }
  }

  lemma CallKeepsPace(s: State, call: Call, id: u64, base: int, seconds: int)
    requires StreamsWellFormed(s) && PaidByTheSecond(s, id, base, seconds)
    ensures PaidByTheSecond(Exec(s, call).0, id, base, seconds)
  {
    if !call.CallBatchWithdraw? {
      CallEvolves(s, call);
      EvolvedKeepsPace(s, Exec(s, call).0, id, base, seconds);
    } else if BatchWithdraw(s, call.recipient, call.ids).Ok? {
      BatchKeepsPace(s, call.recipient, call.ids, [], id, base, seconds);
    }
  }

  lemma TickKeepsPace(s: State, d: nat, id: u64, base: int, seconds: int)
    requires PaidByTheSecond(s, id, base, seconds) && FitsU64(s.now + d)
    requires TryLoadStream(s, id).Some? ==> WellFormed(TryLoadStream(s, id).value, s.now)
    ensures PaidByTheSecond(s.(now := s.now + d), id, base, seconds + if Accruing(s, id) then d else 0)
  {
    assert TryLoadStream(s.(now := s.now + d), id) == TryLoadStream(s, id);
  }

  lemma SameRecordsSamePace(s: State, t: State, id: u64, base: int, seconds: int)
    requires (t.records, t.counter, t.now) == (s.records, s.counter, s.now)
    requires PaidByTheSecond(s, id, base, seconds)
    ensures PaidByTheSecond(t, id, base, seconds)
  {
    assert TryLoadStream(t, id) == TryLoadStream(s, id);
  }

  lemma InvokeKeepsPace(s: State, step: Step, id: u64, base: int, seconds: int)
    requires StreamsWellFormed(s) && PaidByTheSecond(s, id, base, seconds) && step.Invoke?
    ensures PaidByTheSecond(Advance(s, step), id, base, seconds)
  {
    var s1 := s.(tx := step.tx);
    SameRecordsSamePace(s, s1, id, base, seconds);
    assert StreamsWellFormed(s1) by {
      assert forall j: u64 :: TryLoadStream(s1, j) == TryLoadStream(s, j);
    }
    CallKeepsPace(s1, step.call, id, base, seconds);
  }

  lemma MoneyMoveKeepsRecords(s: State, step: Step)
    requires step.Mint? || step.Send?
    ensures Advance(s, step) == s.(balances := Advance(s, step).balances)
  {
    if step.Send? && Transfer(s, step.token, step.from, step.to, step.amount).Ok? {
      TransferConserves(s, step.token, step.from, step.to, step.amount);
    }
  }

  lemma QuietStepKeepsPace(s: State, step: Step, id: u64, base: int, seconds: int, after: int)
    requires StreamsWellFormed(s) && PaidByTheSecond(s, id, base, seconds) && !step.Invoke?
    requires after == seconds + SecondsIn(s, step, id)
    ensures PaidByTheSecond(Advance(s, step), id, base, after)
  {
    if step.Tick? {
      if FitsU64(s.now + step.seconds) {
        TickKeepsPace(s, step.seconds, id, base, seconds);
      }
    } else {
      MoneyMoveKeepsRecords(s, step);
      SameRecordsSamePace(s, Advance(s, step), id, base, seconds);
    }
  }

  lemma StepKeepsPace(s: State, step: Step, id: u64, base: int, seconds: int, after: int)
    requires StreamsWellFormed(s) && PaidByTheSecond(s, id, base, seconds)
    requires after == seconds + SecondsIn(s, step, id)
    ensures PaidByTheSecond(Advance(s, step), id, base, after)
  {
    if step.Invoke? {
      assert after == seconds;
      InvokeKeepsPace(s, step, id, base, after);
    } else {
      QuietStepKeepsPace(s, step, id, base, seconds, after);
    }
  }

  lemma {:induction false} RunKeepsPace(s: State, steps: seq<Step>, id: u64)
    requires StreamsWellFormed(s)
    ensures PaidByTheSecond(Run(s, steps), id, EarnedBefore(s, id), UnpausedSeconds(s, steps, id))
    decreases |steps|
  {
    if steps != [] {
      var front, step := steps[..|steps| - 1], steps[|steps| - 1];
      RunKeepsPace(s, front, id);
      assert StreamsWellFormed(Run(s, front)) by {
        RunInvariant(s, front);
      }
      StepKeepsPace(Run(s, front), step, id, EarnedBefore(s, id), UnpausedSeconds(s, front, id),
                    UnpausedSeconds(s, steps, id));
    }
  }

  lemma PacedEntitlement(a: Stream, now: u64, base: int, seconds: int)
    requires WellFormed(a, now) && a.isActive && a.schedule.Linear?
    requires a.withdrawn == base + a.ratePerSecond * (seconds - (EffectiveTime(a, now) - a.lastUpdate))
    ensures a.withdrawn + Claimable(a, now) == Min(a.deposited, base + a.ratePerSecond * seconds)
  {
    EntitlementIsEarned(a, now);
    var pending := EffectiveTime(a, now) - a.lastUpdate;
    assert Earned(a, EffectiveTime(a, now)) == a.withdrawn + a.ratePerSecond * pending;
    Distribute(a.ratePerSecond, seconds - pending, pending);
  }

  /** The stream has paid out or holds ready exactly `base` and its rate times
      `seconds`, up to the deposit. */
  ghost predicate PaidOrReady(t: State, id: u64, base: int, seconds: int) {
    match TryLoadStream(t, id)
    case None => false
    case Some(a) => a.withdrawn + Claimable(a, t.now) == Min(a.deposited, base + a.ratePerSecond * seconds)
  }

  lemma PacedRecord(t: State, id: u64, base: int, seconds: int)
    requires TryLoadStream(t, id).Some? && PaidByTheSecond(t, id, base, seconds)
    requires var a := TryLoadStream(t, id).value; WellFormed(a, t.now) && a.isActive && a.schedule.Linear?
    ensures PaidOrReady(t, id, base, seconds)
  {
    PacedEntitlement(TryLoadStream(t, id).value, t.now, base, seconds);
  }

  lemma ReachableRecord(s: State, steps: seq<Step>, id: u64)
    requires StreamsWellFormed(s) && TryLoadStream(Run(s, steps), id).Some?
    ensures WellFormed(TryLoadStream(Run(s, steps), id).value, Run(s, steps).now)
  {
    RunInvariant(s, steps);
  }

  /** However withdrawals, pauses, resumes, top-ups and the passing of time are
      interleaved, an active linear stream has paid out or holds ready exactly what
      it had earned when the run began and its rate times its unpaused seconds since,
      up to the deposit: also where the contract's own multiplication overflows, and
      whether the run found the record in the current shape, in the legacy one, or
      not at all. */
  lemma LinearClosedForm(s: State, steps: seq<Step>, id: u64)
    requires StreamsWellFormed(s)
    requires TryLoadStream(Run(s, steps), id).Some?
    requires var a := TryLoadStream(Run(s, steps), id).value; a.isActive && a.schedule.Linear?
    ensures PaidOrReady(Run(s, steps), id, EarnedBefore(s, id), UnpausedSeconds(s, steps, id))
  {
    var t, base, seconds := Run(s, steps), EarnedBefore(s, id), UnpausedSeconds(s, steps, id);
    assert WellFormed(TryLoadStream(t, id).value, t.now) by {
      ReachableRecord(s, steps, id);
    }
    assert PaidByTheSecond(t, id, base, seconds) by {
      RunKeepsPace(s, steps, id);
    }
    PacedRecord(t, id, base, seconds);
  }

  /** From deployment nothing was earned before. */
  lemma LinearFromDeployment(s: State, steps: seq<Step>, id: u64)
    requires Genesis(s)
    requires TryLoadStream(Run(s, steps), id).Some?
    requires var a := TryLoadStream(Run(s, steps), id).value; a.isActive && a.schedule.Linear?
    ensures var t := Run(s, steps);
            var a := TryLoadStream(t, id).value;
            a.withdrawn + Claimable(a, t.now) == Min(a.deposited, a.ratePerSecond * UnpausedSeconds(s, steps, id))
  {
    GenesisWellFormed(s);
    LinearClosedForm(s, steps, id);
  }

  // ----- Schedules pinned to the clock -----

  lemma ScheduledEntitlement(a: Stream, now: u64, later: int)
    requires WellFormed(a, now) && a.isActive && !a.schedule.Linear?
    ensures a.withdrawn + Claimable(a, now) == Min(a.deposited, Earned(a, EffectiveTime(a, now)))
    ensures EffectiveTime(a, now) <= later ==> Earned(a, EffectiveTime(a, now)) <= Earned(a, later)
  {
    EntitlementIsEarned(a, now);
    if EffectiveTime(a, now) <= later {
      EarnedMonotone(a, EffectiveTime(a, now), later);
    }
  }

  /** In every reachable state an active step or hybrid stream has paid out or
      holds ready exactly what its schedule unlocked by the effective time - a figure
      in which neither the payments nor the anchor of the record play a part - up to
      the deposit; and that amount only grows with time. */
  lemma ScheduledClosedForm(s: State, steps: seq<Step>, id: u64, later: int)
    requires StreamsWellFormed(s)
    requires TryLoadStream(Run(s, steps), id).Some?
    requires var a := TryLoadStream(Run(s, steps), id).value; a.isActive && !a.schedule.Linear?
    ensures var t := Run(s, steps);
            var a := TryLoadStream(t, id).value;
            var unlocked := Earned(a, EffectiveTime(a, t.now));
            && a.withdrawn + Claimable(a, t.now) == Min(a.deposited, unlocked)
            && (forall paid: i128, anchor: u64 ::
                  Earned(a.(withdrawn := paid, lastUpdate := anchor), EffectiveTime(a, t.now)) == unlocked)
            && (EffectiveTime(a, t.now) <= later ==> unlocked <= Earned(a, later))
  {
    ReachableRecord(s, steps, id);
    ScheduledEntitlement(TryLoadStream(Run(s, steps), id).value, Run(s, steps).now, later);
  }

  // ----- Independence of the withdrawal pattern -----

  /** The record after a withdrawal attempt: unchanged when the attempt is refused. */
  function Attempt(s: Stream, t: u64): Stream {
    if s.isActive && !s.paused && Claimable(s, t) > 0 && Credited(s, Claimable(s, t), t).Ok?
    then Credited(s, Claimable(s, t), t).value
    else s
  }

  function AttemptAll(s: Stream, times: seq<u64>): Stream
    decreases |times|
  {
    if times == [] then s else AttemptAll(Attempt(s, times[0]), times[1..])
  }

  ghost predicate NonDecreasing(times: seq<u64>) {
    forall i, j :: 0 <= i < j < |times| ==> times[i] <= times[j]
  }

  /** What one attempt amounts to: the part of the deposit earned by then. */
  ghost function PaidAt(s: Stream, t: int): int {
    if s.isActive then Min(s.deposited, Earned(s, t)) else s.withdrawn
  }

  lemma AttemptPaysEarned(s: Stream, t: u64)
    requires WellFormed(s, t) && !s.paused
    ensures var b := Attempt(s, t);
            && WellFormed(b, t) && !b.paused
            && b == s.(withdrawn := b.withdrawn, lastUpdate := b.lastUpdate, isActive := b.isActive, status := b.status)
            && b.withdrawn == PaidAt(s, t)
            && (b.isActive <==> s.isActive && PaidAt(s, t) < s.deposited)
            && (b == s || b.lastUpdate == t)
            && b.status == if s.isActive && !b.isActive then Completed else s.status
  {
    EntitlementIsEarned(s, t);
    if s.isActive && Claimable(s, t) > 0 {
      SettledWellFormed(s, Attempt(s, t), t);
    }
  }

  lemma AttemptKeepsEarning(s: Stream, t: u64, later: u64)
    requires WellFormed(s, t) && !s.paused && t <= later
    ensures PaidAt(Attempt(s, t), later) == PaidAt(s, later)
  {
    var b := Attempt(s, t);
    AttemptPaysEarned(s, t);
    EarnedMonotone(s, t, later);
    if s.isActive && b.isActive && b != s && s.schedule.Linear? {
      Distribute(s.ratePerSecond, later - t, t - s.lastUpdate);
    }
  }

  /** For all three schedules: any non-decreasing series of withdrawal attempts on
      an unpaused stream pays in total what one attempt at the last moment pays,
      and completes the stream exactly when that one would. */
  lemma {:induction false} PathIndependence(s: Stream, times: seq<u64>)
    requires times != [] && NonDecreasing(times) && WellFormed(s, times[0]) && !s.paused
    ensures var many, once := AttemptAll(s, times), Attempt(s, times[|times| - 1]);
            many.withdrawn == once.withdrawn && many.isActive == once.isActive && many.status == once.status
    decreases |times|
  {
    var first, last := times[0], times[|times| - 1];
    var b := Attempt(s, first);
    if |times| == 1 {
      assert AttemptAll(s, times) == AttemptAll(b, []);
    } else {
      assert times[1..][|times| - 2] == last;
      AttemptPaysEarned(s, first);
      EntitlementGrows(b, first, times[1]);
      PathIndependence(b, times[1..]);
      EntitlementGrows(s, first, last);
      EntitlementGrows(b, first, last);
      AttemptPaysEarned(s, last);
      AttemptPaysEarned(b, last);
      AttemptKeepsEarning(s, first, last);
    }
  }

  // ----- The same over calls on the store -----

  /** The recipient has room for the rest of the deposit. */
  ghost predicate RoomFor(s: State, a: Stream) {
    a.recipient != s.self && Balance(s, a.token, a.recipient) + (a.deposited - a.withdrawn) <= I128_MAX
  }

  /** A successful withdrawal stores the attempted record and leaves all others; a
      refused one leaves the whole store. */
  lemma WithdrawStoresAttempt(s: State, id: u64)
    requires StreamsWellFormed(s) && TryLoadStream(s, id).Some?
    ensures var a := TryLoadStream(s, id).value;
            var t := Exec(s, CallWithdraw(a.recipient, id)).0;
            if Withdraw(s, a.recipient, id).Ok?
            then t.records == s.records[id := CurrentStream(Attempt(a, s.now))] else t == s
  {
  }

  /** In a solvent store, and with room at the recipient, the two come to the same:
      paid or refused, the call does to the record what the attempt says, and moves
      exactly what the attempt pays. */
  lemma WithdrawIsAttempt(s: State, id: u64)
    requires StreamsWellFormed(s) && Solvent(s) && TryLoadStream(s, id).Some?
    requires RoomFor(s, TryLoadStream(s, id).value)
    ensures var a := TryLoadStream(s, id).value;
            var b := Attempt(a, s.now);
            var t := Exec(s, CallWithdraw(a.recipient, id)).0;
            && TryLoadStream(t, id) == Some(b)
            && (t.self, t.now) == (s.self, s.now)
            && Balance(t, a.token, a.recipient) == Balance(s, a.token, a.recipient) + (b.withdrawn - a.withdrawn)
            && Balance(t, a.token, s.self) == Balance(s, a.token, s.self) - (b.withdrawn - a.withdrawn)
  {
    var a := TryLoadStream(s, id).value;
    WithdrawSucceedsIff(s, id);
    ClaimableIsEarnedMinusPaid(a, s.now);
    if Withdraw(s, a.recipient, id).Ok? {
      var s1 := SaveStream(s, id, Attempt(a, s.now));
      assert forall w: Address :: Balance(s1, a.token, w) == Balance(s, a.token, w);
      TransferConserves(s1, a.token, s.self, a.recipient, Claimable(a, s.now));
    }
  }

  /** Time passing and withdrawals of one stream by its recipient, nothing else. */
  ghost predicate TicksAndWithdrawals(steps: seq<Step>, recipient: Address, id: u64) {
    forall i :: 0 <= i < |steps| ==>
      steps[i].Tick? || (steps[i].Invoke? && steps[i].call == CallWithdraw(recipient, id))
  }

  function JustTicks(steps: seq<Step>): seq<Step> {
    if steps == [] then []
    else
      var front, last := JustTicks(steps[..|steps| - 1]), steps[|steps| - 1];
      if last.Tick? then front + [last] else front
  }

  /** What is known of the stream after some ticks and withdrawals: it will have paid
      what it would have paid, and the recipient has exactly what it paid so far. */
  ghost predicate OnTrack(s: State, m: State, id: u64) {
    && StreamsWellFormed(m) && Solvent(m)
    && m.self == s.self && s.now <= m.now
    && TryLoadStream(s, id).Some? && TryLoadStream(m, id).Some?
    && var a, b := TryLoadStream(s, id).value, TryLoadStream(m, id).value;
       && WellFormed(a, m.now) && RoomFor(s, a) && !a.paused && !b.paused
       && (b.token, b.recipient, b.deposited) == (a.token, a.recipient, a.deposited)
       && (forall t: u64 :: m.now <= t ==> PaidAt(b, t) == PaidAt(a, t))
       && (forall t: u64 :: m.now <= t ==> StatusAt(b, t) == StatusAt(a, t))
       && Balance(m, a.token, a.recipient) == Balance(s, a.token, a.recipient) + (b.withdrawn - a.withdrawn)
  }

  /** Where an attempt at time t would leave the status. */
  ghost function StatusAt(s: Stream, t: int): Status {
    if s.isActive && PaidAt(s, t) >= s.deposited then Completed else s.status
  }

  lemma SolventAfter(s: State, step: Step)
    requires StreamsWellFormed(s) && Solvent(s)
    ensures Solvent(Advance(s, step))
  {
    StepKeeps(s, step);
    forall k: Address ensures Owed(Advance(s, step), k) <= Balance(Advance(s, step), k, s.self) {
      assert Surplus(s, k) <= Surplus(Advance(s, step), k);
    }
  }

  lemma PaidAtGrows(s: Stream, t: int, later: int)
    requires SoundSchedule(s) && t <= later
    ensures PaidAt(s, t) <= PaidAt(s, later)
  {
    EarnedMonotone(s, t, later);
  }

  lemma TickStaysOnTrack(s: State, m: State, step: Step, id: u64)
    requires OnTrack(s, m, id) && step.Tick?
    ensures OnTrack(s, Advance(m, step), id)
  {
    StepKeeps(m, step);
    SolventAfter(m, step);
    if FitsU64(m.now + step.seconds) {
      EntitlementGrows(TryLoadStream(s, id).value, m.now, m.now + step.seconds);
      assert TryLoadStream(Advance(m, step), id) == TryLoadStream(m, id);
    }
  }

  lemma AttemptLeadsToSame(b: Stream, now: u64, t: u64)
    requires WellFormed(b, now) && !b.paused && now <= t
    ensures PaidAt(Attempt(b, now), t) == PaidAt(b, t) && StatusAt(Attempt(b, now), t) == StatusAt(b, t)
  {
    AttemptPaysEarned(b, now);
    AttemptKeepsEarning(b, now, t);
    PaidAtGrows(b, now, t);
  }

  lemma WithdrawStaysOnTrack(s: State, m: State, tx: TxHash, id: u64)
    requires OnTrack(s, m, id)
    ensures var t := Advance(m, Invoke(tx, CallWithdraw(TryLoadStream(s, id).value.recipient, id)));
            OnTrack(s, t, id) && t.now == m.now
  {
    var step := Invoke(tx, CallWithdraw(TryLoadStream(s, id).value.recipient, id));
    StepKeeps(m, step);
    SolventAfter(m, step);
    var m1 := m.(tx := tx);
    var b := TryLoadStream(m, id).value;
    assert forall j: u64 :: TryLoadStream(m1, j) == TryLoadStream(m, j);
    assert Solvent(m1) by {
      forall k: Address ensures Owed(m1, k) <= Balance(m1, k, m1.self) {
        assert Owed(m1, k) == Owed(m, k);
      }
    }
    WithdrawIsAttempt(m1, id);
    AttemptPaysEarned(b, m.now);
    forall t: u64 | m.now <= t
      ensures PaidAt(Attempt(b, m.now), t) == PaidAt(b, t) && StatusAt(Attempt(b, m.now), t) == StatusAt(b, t)
    {
      AttemptLeadsToSame(b, m.now, t);
    }
  }

  lemma StepStaysOnTrack(s: State, m: State, step: Step, id: u64)
    requires OnTrack(s, m, id)
    requires step.Tick? || (step.Invoke? && step.call == CallWithdraw(TryLoadStream(s, id).value.recipient, id))
    ensures OnTrack(s, Advance(m, step), id)
    ensures Advance(m, step).now == if step.Tick? && FitsU64(m.now + step.seconds) then m.now + step.seconds else m.now
  {
    if step.Tick? {
      TickStaysOnTrack(s, m, step, id);
    } else {
      WithdrawStaysOnTrack(s, m, step.tx, id);
    }
  }

  lemma {:induction false} RunStaysOnTrack(s: State, steps: seq<Step>, id: u64)
    requires OnTrack(s, s, id) && TicksAndWithdrawals(steps, TryLoadStream(s, id).value.recipient, id)
    ensures OnTrack(s, Run(s, steps), id)
    decreases |steps|
  {
    if steps != [] {
      var front := steps[..|steps| - 1];
      assert TicksAndWithdrawals(front, TryLoadStream(s, id).value.recipient, id) by {
        assert forall i :: 0 <= i < |front| ==> front[i] == steps[i];
      }
      RunStaysOnTrack(s, front, id);
      StepStaysOnTrack(s, Run(s, front), steps[|steps| - 1], id);
    }
  }

  lemma {:induction false} JustTicksAreTicks(steps: seq<Step>, recipient: Address, id: u64)
    ensures TicksAndWithdrawals(JustTicks(steps), recipient, id)
    decreases |steps|
  {
    if steps != [] {
      JustTicksAreTicks(steps[..|steps| - 1], recipient, id);
    }
  }

  lemma {:induction false} SameClock(s: State, steps: seq<Step>, id: u64)
    requires OnTrack(s, s, id) && TicksAndWithdrawals(steps, TryLoadStream(s, id).value.recipient, id)
    ensures Run(s, JustTicks(steps)).now == Run(s, steps).now
    decreases |steps|
  {
    if steps != [] {
      var recipient := TryLoadStream(s, id).value.recipient;
      var front, last := steps[..|steps| - 1], steps[|steps| - 1];
      assert TicksAndWithdrawals(front, recipient, id) by {
        assert forall i :: 0 <= i < |front| ==> front[i] == steps[i];
      }
      SameClock(s, front, id);
      RunStaysOnTrack(s, front, id);
      JustTicksAreTicks(front, recipient, id);
      RunStaysOnTrack(s, JustTicks(front), id);
      StepStaysOnTrack(s, Run(s, front), last, id);
      if last.Tick? {
        StepStaysOnTrack(s, Run(s, JustTicks(front)), last, id);
        RunSnoc(s, JustTicks(front), last);
      }
    }
  }

  /** Path independence of calls: from a solvent store, any run of clock ticks and
      withdrawals of one unpaused stream, ended by a withdrawal, leaves the record and
      the recipient's balance where the ticks and that last withdrawal alone leave
      them: the same total paid, and completed in the one exactly when in the other. */
  lemma WithdrawalPatternIrrelevant(s: State, steps: seq<Step>, tx: TxHash, id: u64)
    requires StreamsWellFormed(s) && Solvent(s) && TryLoadStream(s, id).Some?
    requires !TryLoadStream(s, id).value.paused && RoomFor(s, TryLoadStream(s, id).value)
    requires TicksAndWithdrawals(steps, TryLoadStream(s, id).value.recipient, id)
    ensures var a := TryLoadStream(s, id).value;
            var last := Invoke(tx, CallWithdraw(a.recipient, id));
            var many, once := Run(s, steps + [last]), Run(s, JustTicks(steps) + [last]);
            && many.now == once.now
            && TryLoadStream(many, id).Some? && TryLoadStream(once, id).Some?
            && var b, c := TryLoadStream(many, id).value, TryLoadStream(once, id).value;
               && (b.withdrawn, b.isActive, b.status) == (c.withdrawn, c.isActive, c.status)
               && b.withdrawn == PaidAt(a, many.now)
               && Balance(many, a.token, a.recipient) == Balance(once, a.token, a.recipient)
                  == Balance(s, a.token, a.recipient) + (b.withdrawn - a.withdrawn)
  {
    var a := TryLoadStream(s, id).value;
    var last := Invoke(tx, CallWithdraw(a.recipient, id));
    RunStaysOnTrack(s, steps, id);
    JustTicksAreTicks(steps, a.recipient, id);
    RunStaysOnTrack(s, JustTicks(steps), id);
    SameClock(s, steps, id);
    RunSnoc(s, steps, last);
    RunSnoc(s, JustTicks(steps), last);
    LastWithdrawal(s, Run(s, steps), tx, id);
    LastWithdrawal(s, Run(s, JustTicks(steps)), tx, id);
  }

  lemma LastWithdrawal(s: State, m: State, tx: TxHash, id: u64)
    requires OnTrack(s, m, id)
    ensures var a := TryLoadStream(s, id).value;
            var t := Advance(m, Invoke(tx, CallWithdraw(a.recipient, id)));
            && t.now == m.now && TryLoadStream(t, id).Some?
            && var b := TryLoadStream(t, id).value;
               && b.withdrawn == PaidAt(a, m.now) && b.status == StatusAt(a, m.now)
               && (b.isActive <==> b.status == Active)
               && Balance(t, a.token, a.recipient) == Balance(s, a.token, a.recipient) + (b.withdrawn - a.withdrawn)
  {
    var a := TryLoadStream(s, id).value;
    WithdrawStaysOnTrack(s, m, tx, id);
    var b := TryLoadStream(m, id).value;
    var m1 := m.(tx := tx);
    assert forall j: u64 :: TryLoadStream(m1, j) == TryLoadStream(m, j);
    assert Solvent(m1) by {
      forall k: Address ensures Owed(m1, k) <= Balance(m1, k, m1.self) {
        assert Owed(m1, k) == Owed(m, k);
      }
    }
    WithdrawIsAttempt(m1, id);
    AttemptPaysEarned(b, m.now);
    assert PaidAt(b, m.now) == PaidAt(a, m.now) && StatusAt(b, m.now) == StatusAt(a, m.now);
  }
}
