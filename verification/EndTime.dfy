/** The three figures the contract reports for when a stream runs out - on query, on
    top-up and on resume - and when they tell the same story. */
module EndTime {
  import opened Bounded
  import opened Results
  import opened StreamTypes
  import opened Vesting
  import opened Entrypoints
  import opened Lifecycle
  import opened Storage
  import opened Runs
  import opened Examples
  import Calls

  /** Whole seconds of accrual left at the anchor. */
  ghost function SecondsLeft(s: Stream): int
    requires s.ratePerSecond > 0
  {
    (s.deposited - s.withdrawn) / s.ratePerSecond
  }

  ghost predicate Drip(s: Stream, now: u64) {
    WellFormed(s, now) && s.schedule.Linear? && s.isActive
  }

  /** More has accrued since the anchor than is left to pay. */
  ghost predicate RunDry(s: Stream, now: u64) {
    s.deposited - s.withdrawn < s.ratePerSecond * (EffectiveTime(s, now) - s.lastUpdate)
  }

  /** What the event of a top-up that left the record so reports. */
  function TopUpFigure(funded: Stream, now: u64): Result<u64> {
    ProjectEndTime(now, Unaccrued(funded, now), funded.ratePerSecond)
  }

  lemma DripEndExact(anchor: u64, drippable: i128, rate: i128)
    requires rate > 0 && 0 <= drippable && drippable / rate <= U64_MAX
    ensures DripEnd(anchor, drippable, rate) == Min(U64_MAX, anchor + drippable / rate)
  {
    QuotientBound(drippable, rate);
    var q := drippable / rate;
    assert TruncateU64(q) == q;
  }

  lemma ProjectedEndExact(s: Stream, now: u64)
    requires Drip(s, now) && SecondsLeft(s) <= U64_MAX
    ensures ProjectedEndTime(s) == Min(U64_MAX, s.pausedAt.UnwrapOr(s.lastUpdate) + SecondsLeft(s))
  {
    DripEndExact(s.pausedAt.UnwrapOr(s.lastUpdate), s.deposited - s.withdrawn, s.ratePerSecond);
  }

  /** Taking e seconds' worth out of the balance takes e off the quotient. */
  lemma QuotientShift(balance: int, rate: int, e: int)
    requires rate > 0 && 0 <= e && rate * e <= balance
    ensures (balance - rate * e) / rate == balance / rate - e
  {
    var q := balance / rate;
    QuotientBound(balance, rate);
    Distribute(rate, q, e);
    QuotientUnique(balance - rate * e, rate, q - e);
  }

  /** Whole seconds still to come when e of them have gone by, and whether the
      balance ran dry on the way. */
  lemma SecondsToCome(balance: int, rate: int, e: int)
    requires rate > 0 && 0 <= balance && 0 <= e
    ensures Max(0, balance - rate * e) / rate == Max(0, balance / rate - e)
    ensures balance < rate * e ==> balance / rate < e
    ensures rate * e <= balance ==> e <= balance / rate
  {
    var q := balance / rate;
    QuotientBound(balance, rate);
    if rate * e <= balance {
      QuotientShift(balance, rate, e);
      QuotientBound(balance - rate * e, rate);
    } else {
      if e <= q {
        ProductMonotone(e, q, rate);
      }
      assert 0 / rate == 0;
    }
  }

  /** A partial withdrawal leaves the reported end where it was. */
  lemma WithdrawalKeepsEnd(s: Stream, now: u64)
    requires Drip(s, now) && !s.paused && SecondsLeft(s) <= U64_MAX
    requires Claimable(s, now) > 0 && Credited(s, Claimable(s, now), now).Ok?
    requires Credited(s, Claimable(s, now), now).value.isActive
    ensures ProjectedEndTime(Credited(s, Claimable(s, now), now).value) == ProjectedEndTime(s)
  {
    var b := Credited(s, Claimable(s, now), now).value;
    SettledWellFormed(s, b, now);
    var e := now - s.lastUpdate;
    assert b.withdrawn == s.withdrawn + s.ratePerSecond * e;
    QuotientShift(s.deposited - s.withdrawn, s.ratePerSecond, e);
    ProjectedEndExact(s, now);
    ProjectedEndExact(b, now);
  }

  /** Pausing and resuming moves the reported end by exactly the pause length. */
  lemma PauseThenResumeMovesEnd(s: Stream, pause: u64, resume: u64)
    requires Drip(s, pause) && !s.paused && pause <= resume
    requires s.lastUpdate + SecondsLeft(s) + (resume - pause) <= U64_MAX
    ensures ProjectedEndTime(ResumedStream(PausedStream(s, pause), resume)) == ProjectedEndTime(s) + (resume - pause)
  {
    var p := PausedStream(s, pause);
    MovedWellFormed(s, p, pause);
    EntitlementGrows(p, pause, resume);
    ResumedWellFormed(p, resume);
    QuotientBound(s.deposited - s.withdrawn, s.ratePerSecond);
    ProjectedEndExact(s, pause);
    ProjectedEndExact(ResumedStream(p, resume), resume);
  }

  /** At the moment of a pause the reported end jumps forward by the seconds already
      accrued since the anchor, which it counts a second time. */
  lemma EndJumpsAtPause(s: Stream, now: u64)
    requires Drip(s, now) && !s.paused && now + SecondsLeft(s) <= U64_MAX
    ensures ProjectedEndTime(PausedStream(s, now)) == ProjectedEndTime(s) + (now - s.lastUpdate)
  {
    MovedWellFormed(s, PausedStream(s, now), now);
    QuotientBound(s.deposited - s.withdrawn, s.ratePerSecond);
    ProjectedEndExact(s, now);
    ProjectedEndExact(PausedStream(s, now), now);
  }

  /** While the pause lasts the reported end stands still, and the true one, where a
      resume at the moment of the query would put it, moves on with time: the report
      is too late until the pause has lasted as long as the stream had run since its
      anchor, right at that very moment, and too early from then on. */
  lemma PausedEndAgreesIff(s: Stream, q: u64)
    requires Drip(s, q) && s.paused && q + SecondsLeft(s) <= U64_MAX
    ensures var since := s.pausedAt.value;
            var reported, actual := ProjectedEndTime(s), ProjectedEndTime(ResumedStream(s, q));
            && reported == since + SecondsLeft(s)
            && actual == q + SecondsLeft(s) - (since - s.lastUpdate)
            && (reported == actual <==> q - since == since - s.lastUpdate)
            && (reported > actual <==> q - since < since - s.lastUpdate)
  {
    QuotientBound(s.deposited - s.withdrawn, s.ratePerSecond);
    ResumedWellFormed(s, q);
    ProjectedEndExact(s, q);
    ProjectedEndExact(ResumedStream(s, q), q);
  }

  /** Both errors: paused at 10 after ten seconds' accrual, the report of 110 is 10
      late at once, right at 20, and 10 early at 30. */
  lemma PausedEndBothWays()
    ensures var s := PausedStream(OpenStream(1, 2, 3, 10, 1000, 0, Linear), 10);
            && Drip(s, 10) && ProjectedEndTime(s) == 110
            && ProjectedEndTime(ResumedStream(s, 10)) == 100
            && ProjectedEndTime(ResumedStream(s, 20)) == 110
            && ProjectedEndTime(ResumedStream(s, 30)) == 120
  {
  }

  lemma UnaccruedExact(s: Stream, now: u64)
    requires Drip(s, now)
    ensures Unaccrued(s, now)
         == Max(0, s.deposited - s.withdrawn - s.ratePerSecond * (EffectiveTime(s, now) - s.lastUpdate))
  {
    EntitlementIsEarned(s, now);
  }

  /** What a resume answers, 64 bits permitting. */
  lemma ResumeFigure(s: Stream, now: u64)
    requires Drip(s, now) && s.paused && SecondsLeft(s) <= U64_MAX
    requires ResumeEndTime(Reanchored(s, now), now, Unaccrued(s, now)).Ok?
    ensures ResumeEndTime(Reanchored(s, now), now, Unaccrued(s, now)).value
         == now + Max(0, SecondsLeft(s) - (s.pausedAt.value - s.lastUpdate))
  {
    UnaccruedExact(s, now);
    SecondsToCome(s.deposited - s.withdrawn, s.ratePerSecond, s.pausedAt.value - s.lastUpdate);
    QuotientBound(Unaccrued(s, now), s.ratePerSecond);
    TruncateSmall(Unaccrued(s, now) / s.ratePerSecond);
  }

  lemma TruncateSmall(x: int)
    requires 0 <= x <= U64_MAX
    ensures TruncateU64(x) == x
  {
  }

  lemma DripResumeFigureAgreesIff(s: Stream, now: u64)
    requires Drip(s, now) && s.paused && SecondsLeft(s) <= U64_MAX
    requires ResumeEndTime(Reanchored(s, now), now, Unaccrued(s, now)).Ok?
    ensures ResumeEndTime(Reanchored(s, now), now, Unaccrued(s, now)).value == ProjectedEndTime(ResumedStream(s, now))
       <==> !RunDry(s, now)
  {
    ResumeFigure(s, now);
    ResumedWellFormed(s, now);
    SecondsToCome(s.deposited - s.withdrawn, s.ratePerSecond, s.pausedAt.value - s.lastUpdate);
    ProjectedEndExact(ResumedStream(s, now), now);
  }

  /** The figure a top-up of a running stream reports is the figure queries report
      afterwards if and only if the new deposit reaches past what has accrued. */
  lemma TopUpFigureAgreesIff(funded: Stream, now: u64)
    requires Drip(funded, now) && !funded.paused
    requires TopUpFigure(funded, now).Ok?
    ensures TopUpFigure(funded, now).value == ProjectedEndTime(funded)
       <==> !RunDry(funded, now)
  {
    var e := now - funded.lastUpdate;
    UnaccruedExact(funded, now);
    SecondsToCome(funded.deposited - funded.withdrawn, funded.ratePerSecond, e);
    ProjectedEndExact(funded, now);
  }

  /** What a top-up of a paused linear stream reports, and what queries report for
      it: the event counts from now, the query from the pause point, and only the
      event takes off the seconds accrued before the pause. */
  lemma PausedTopUpFigures(funded: Stream, now: u64)
    requires Drip(funded, now) && funded.paused
    requires TopUpFigure(funded, now).Ok?
    ensures TopUpFigure(funded, now).value
         == now + Max(0, SecondsLeft(funded) - (funded.pausedAt.value - funded.lastUpdate))
    ensures ProjectedEndTime(funded) == Min(U64_MAX, funded.pausedAt.value + SecondsLeft(funded))
  {
    var e := funded.pausedAt.value - funded.lastUpdate;
    UnaccruedExact(funded, now);
    SecondsToCome(funded.deposited - funded.withdrawn, funded.ratePerSecond, e);
    ProjectedEndExact(funded, now);
  }

  /** So, 64 bits permitting, the two agree on a paused stream only by accident:
      when the pause has lasted as long as the stream had run since its anchor, or,
      for one that ran dry, when now happens to be the projected end. */
  lemma PausedTopUpFigureAgreesIff(funded: Stream, now: u64)
    requires Drip(funded, now) && funded.paused && funded.pausedAt.value + SecondsLeft(funded) <= U64_MAX
    requires TopUpFigure(funded, now).Ok?
    ensures TopUpFigure(funded, now).value == ProjectedEndTime(funded)
       <==> (if RunDry(funded, now) then now == funded.pausedAt.value + SecondsLeft(funded)
             else now - funded.pausedAt.value == funded.pausedAt.value - funded.lastUpdate)
  {
    PausedTopUpFigures(funded, now);
    SecondsToCome(funded.deposited - funded.withdrawn, funded.ratePerSecond, funded.pausedAt.value - funded.lastUpdate);
  }

  // ----- Cliff plus linear tail -----

  ghost predicate Cliff(s: Stream, now: u64) {
    WellFormed(s, now) && s.schedule.HybridCliffLinear? && s.isActive
  }

  /** Seconds the whole linear tail takes. */
  ghost function TailSeconds(s: Stream): int
    requires s.schedule.HybridCliffLinear? && s.ratePerSecond > 0
  {
    (s.deposited - s.schedule.cliffAmount) / s.ratePerSecond
  }

  /** The tail's full length has been reached by the effective time. */
  ghost predicate TailRunDry(s: Stream, now: u64)
    requires s.schedule.HybridCliffLinear?
  {
    s.deposited - s.schedule.cliffAmount < s.ratePerSecond * (EffectiveTime(s, now) - s.schedule.cliffTime)
  }

  /** Payments and pauses leave the projected end of a hybrid stream alone. */
  lemma CliffEndExact(s: Stream, now: u64)
    requires Cliff(s, now) && TailSeconds(s) <= U64_MAX
    ensures ProjectedEndTime(s) == Min(U64_MAX, s.schedule.cliffTime + TailSeconds(s))
  {
    var unclaimed := SaturatingSub(s.schedule.cliffAmount, s.withdrawn);
    assert SaturatingSub(SaturatingSub(s.deposited, s.withdrawn), unclaimed) == s.deposited - s.schedule.cliffAmount;
    DripEndExact(s.schedule.cliffTime, s.deposited - s.schedule.cliffAmount, s.ratePerSecond);
  }

  lemma CliffUnaccruedExact(s: Stream, now: u64)
    requires Cliff(s, now)
    ensures var e := EffectiveTime(s, now) - s.schedule.cliffTime;
            Unaccrued(s, now)
              == (if e < 0 then s.deposited
                  else Max(0, s.deposited - s.schedule.cliffAmount - s.ratePerSecond * e))
  {
    EntitlementIsEarned(s, now);
  }

  lemma TailIsShorter(tail: int, whole: int, rate: int)
    requires rate > 0 && 0 <= tail <= whole
    ensures tail / rate <= whole / rate
  {
    var p, q := tail / rate, whole / rate;
    QuotientBound(tail, rate);
    QuotientBound(whole, rate);
    if q < p {
      ProductMonotone(q + 1, p, rate);
      Distribute(rate, q, 1);
    }
  }

  /** What a top-up of a hybrid stream reports: before the cliff it spreads the whole
      deposit, lump included, over the rate; from the cliff on it is the seconds of
      the tail still to come. */
  lemma CliffTopUpFigure(funded: Stream, now: u64)
    requires Cliff(funded, now)
    requires TopUpFigure(funded, now).Ok?
    ensures TailSeconds(funded) <= U64_MAX
    ensures var e := EffectiveTime(funded, now) - funded.schedule.cliffTime;
            && TopUpFigure(funded, now).value
               == now + (if e < 0 then funded.deposited / funded.ratePerSecond else Max(0, TailSeconds(funded) - e))
            && (0 <= e ==> (TailRunDry(funded, now) ==> TailSeconds(funded) < e)
                           && (!TailRunDry(funded, now) ==> e <= TailSeconds(funded)))
  {
    var r, tail := funded.ratePerSecond, funded.deposited - funded.schedule.cliffAmount;
    var e := EffectiveTime(funded, now) - funded.schedule.cliffTime;
    CliffUnaccruedExact(funded, now);
    QuotientBound(funded.deposited, r);
    if e < 0 {
      TailIsShorter(tail, funded.deposited, r);
    } else {
      SecondsToCome(tail, r, e);
    }
  }

  /** Exactly when a top-up of a hybrid stream reports the end queries report: from
      the cliff on, when the stream is running and its tail not run dry (paused, only
      at the very moment of the pause); before the cliff, only if the lump would have
      dripped away in just the time left to the cliff. */
  lemma HybridTopUpFigureAgreesIff(funded: Stream, now: u64)
    requires Cliff(funded, now)
    requires TopUpFigure(funded, now).Ok?
    ensures TopUpFigure(funded, now).value == ProjectedEndTime(funded)
       <==> (if EffectiveTime(funded, now) < funded.schedule.cliffTime
             then now + funded.deposited / funded.ratePerSecond
                  == Min(U64_MAX, funded.schedule.cliffTime + TailSeconds(funded))
             else !TailRunDry(funded, now) && (funded.paused ==> now == funded.pausedAt.value))
  {
    CliffTopUpFigure(funded, now);
    CliffEndExact(funded, now);
  }

  lemma LumpEnd()
    ensures ProjectedEndTime(LUMP.(deposited := 1000)) == 600
  {
  }

  /** A run where the figure is off: at one a second, with a lump of 500 due at 100,
      a deposit topped up to 1000 drains at 600, and the event says 1000. */
  lemma HybridTopUpFigureDiffers() returns (t: State)
    ensures Genesis(BARE) && t == Advance(LumpOpened(), Invoke(2, CallTopUp(5, 1, 1)))
    ensures t.log == LumpOpened().log + [LogEntry(2, StreamToppedUp(1, 5, 1, 1000, 1000))]
    ensures TryLoadStream(t, 1).Some? && ProjectedEndTime(TryLoadStream(t, 1).value) == 600
  {
    LumpToppedUp();
    LumpEnd();
    t := Advance(LumpOpened(), Invoke(2, CallTopUp(5, 1, 1)));
  }

  /** Outside the linear schedule a resume answers with what queries report after it,
      and neither pause, resume nor withdrawal moves that figure. */
  lemma ScheduledEndStays(s: Stream, b: Stream, now: u64)
    requires WellFormed(s, now) && s.isActive && !s.schedule.Linear? && Moved(s, b, now)
    requires b.deposited == s.deposited
    ensures ProjectedEndTime(b) == ProjectedEndTime(s)
    ensures s.paused && b == ResumedStream(s, now) ==>
              ResumeEndTime(Reanchored(s, now), now, Unaccrued(s, now)) == Ok(ProjectedEndTime(b))
  {
    MovedWellFormed(s, b, now);
  }

  /** The end reported on request, for every well-formed record: a linear stream runs
      from its anchor, or from the pause, for as many seconds as the balance lasts, a
      hybrid's tail from the cliff; the seconds lose what does not fit in 64 bits, and
      the sum stops at the largest timestamp. A step stream ends with its last step. */
  lemma ProjectedEndIs(s: Stream, now: u64)
    requires WellFormed(s, now)
    ensures s.schedule.StepTranches? ==> s.schedule.steps != []
    ensures ProjectedEndTime(s)
         == match s.schedule
            case Linear =>
              Min(U64_MAX, (if s.pausedAt.Some? then s.pausedAt.value else s.lastUpdate)
                           + (s.deposited - s.withdrawn) / s.ratePerSecond % 0x1_0000_0000_0000_0000)
            case StepTranches(steps) => steps[|steps| - 1].unlockTime
            case HybridCliffLinear(cliffTime, cliffAmount) =>
              Min(U64_MAX, cliffTime
                           + (s.deposited - cliffAmount) / s.ratePerSecond % 0x1_0000_0000_0000_0000)
  {
    match s.schedule
    case StepTranches(steps) => assert steps != [];
    case HybridCliffLinear(_, cliffAmount) =>
      var unclaimed := SaturatingSub(cliffAmount, s.withdrawn);
      assert SaturatingSub(SaturatingSub(s.deposited, s.withdrawn), unclaimed) == s.deposited - cliffAmount;
    case Linear =>
  }

  lemma LessThanOneSecond(balance: int, rate: int, e: int)
    requires rate > 0 && 0 <= balance && 0 <= e
    ensures Max(0, balance - rate * e) < rate <==> balance / rate <= e
  {
    var q := balance / rate;
    QuotientBound(balance, rate);
    if q <= e {
      ProductMonotone(q, e, rate);
    } else {
      ProductMonotone(e + 1, q, rate);
      Distribute(rate, e, 1);
    }
  }

  /** The reported end of a running stream is the first moment, at or after its
      anchor, when less than one second's rate is still unaccrued. */
  lemma EndIsFirstDrainedMoment(s: Stream, t: u64)
    requires Drip(s, s.lastUpdate) && !s.paused
    requires s.lastUpdate + SecondsLeft(s) <= U64_MAX && s.lastUpdate <= t
    ensures Unaccrued(s, t) < s.ratePerSecond <==> ProjectedEndTime(s) <= t
  {
    EntitlementGrows(s, s.lastUpdate, t);
    UnaccruedExact(s, t);
    ProjectedEndExact(s, s.lastUpdate);
    LessThanOneSecond(s.deposited - s.withdrawn, s.ratePerSecond, t - s.lastUpdate);
  }

  /** The same for the tail of a hybrid stream, from the cliff on. */
  lemma HybridEndIsFirstDrainedMoment(s: Stream, t: u64)
    requires Cliff(s, s.lastUpdate) && !s.paused && s.lastUpdate <= t && s.schedule.cliffTime <= t
    requires s.schedule.cliffTime + TailSeconds(s) <= U64_MAX
    ensures Unaccrued(s, t) < s.ratePerSecond <==> ProjectedEndTime(s) <= t
  {
    EntitlementGrows(s, s.lastUpdate, t);
    CliffUnaccruedExact(s, t);
    CliffEndExact(s, t);
    LessThanOneSecond(s.deposited - s.schedule.cliffAmount, s.ratePerSecond, t - s.schedule.cliffTime);
  }

  lemma {:induction false} LastStepMissing(steps: seq<VestingStep>, t: int)
    requires steps != [] && AllPositive(steps) && t < steps[|steps| - 1].unlockTime
    ensures UnlockedBy(steps, t) < TotalUnlock(steps)
    decreases |steps|
  {
    var tail := steps[1..];
    assert steps[0].unlockAmount > 0;
    if tail == [] {
      assert UnlockedBy(tail, t) == UnlockedBy(tail, U64_MAX) == 0;
    } else {
      assert tail[|tail| - 1] == steps[|steps| - 1];
      LastStepMissing(tail, t);
    }
  }

  lemma {:induction false} AllStepsReached(steps: seq<VestingStep>, t: int)
    requires forall i :: 0 <= i < |steps| ==> steps[i].unlockTime <= t
    ensures UnlockedBy(steps, t) == TotalUnlock(steps)
    decreases |steps|
  {
    if steps != [] {
      AllStepsReached(steps[1..], t);
    }
  }

  /** A step stream whose steps do add up to its deposit is drained exactly from its
      projected end, the last unlock, on. */
  lemma StepEndIsFirstDrainedMoment(s: Stream, t: u64)
    requires WellFormed(s, s.lastUpdate) && s.isActive && !s.paused && s.schedule.StepTranches? && s.lastUpdate <= t
    requires TotalUnlock(s.schedule.steps) == s.deposited
    ensures Unaccrued(s, t) == 0 <==> ProjectedEndTime(s) <= t
  {
    var steps := s.schedule.steps;
    EntitlementGrows(s, s.lastUpdate, t);
    EntitlementIsEarned(s, t);
    assert steps != [];
    if t < steps[|steps| - 1].unlockTime {
      LastStepMissing(steps, t);
    } else {
      AllStepsReached(steps, t);
    }
  }

  // ----- What a resume answers and logs -----

  lemma ResumeUnfolds(s: State, sender: Address, id: u64)
    requires StreamsWellFormed(s) && ResumeStream(s, sender, id).Ok?
    ensures TryLoadStream(s, id).Some?
    ensures var a := TryLoadStream(s, id).value;
            var (t, end) := ResumeStream(s, sender, id).value;
            && WellFormed(a, s.now) && a.isActive && a.paused && sender == a.sender
            && ResumeEndTime(Reanchored(a, s.now), s.now, Unaccrued(a, s.now)) == Ok(end)
            && TryLoadStream(t, id) == Some(ResumedStream(a, s.now))
            && t.log == s.log + [LogEntry(s.tx, StreamResumed(id, sender, end))]
  {
  }

  /** The end a successful resume answers with, 64 bits permitting, and logs: for a
      linear stream now and what was left of its seconds at the pause; for the others
      the last unlock and the end of the tail. */
  lemma ResumeReports(s: State, sender: Address, id: u64)
    requires StreamsWellFormed(s) && ResumeStream(s, sender, id).Ok?
    ensures TryLoadStream(s, id).Some? && WellFormed(TryLoadStream(s, id).value, s.now)
    ensures var (t, end) := ResumeStream(s, sender, id).value;
            && t.log == s.log + [LogEntry(s.tx, StreamResumed(id, sender, end))]
            && var a := TryLoadStream(s, id).value;
               && a.status == Paused
               && match a.schedule
                  case Linear => SecondsLeft(a) <= U64_MAX ==>
                    end == s.now + Max(0, SecondsLeft(a) - (a.pausedAt.value - a.lastUpdate))
                  case StepTranches(steps) => steps != [] && end == steps[|steps| - 1].unlockTime
                  case HybridCliffLinear(cliffTime, _) => TailSeconds(a) <= U64_MAX ==>
                    end == Min(U64_MAX, cliffTime + TailSeconds(a))
  {
    ResumeUnfolds(s, sender, id);
    var a := TryLoadStream(s, id).value;
    match a.schedule
    case Linear =>
      if SecondsLeft(a) <= U64_MAX {
        ResumeFigure(a, s.now);
      }
    case StepTranches(steps) => assert steps != [];
    case HybridCliffLinear(_, _) =>
      ResumedWellFormed(a, s.now);
      if TailSeconds(a) <= U64_MAX {
        CliffEndExact(ResumedStream(a, s.now), s.now);
      }
  }

  /** It is the end queries report for the record then stored: for step and hybrid
      streams always, for a linear one if and only if it had not run dry before it was
      paused. */
  lemma ResumeFigureAgreesIff(s: State, sender: Address, id: u64)
    requires StreamsWellFormed(s) && ResumeStream(s, sender, id).Ok?
    requires TryLoadStream(s, id).Some? && WellFormed(TryLoadStream(s, id).value, s.now)
    requires var a := TryLoadStream(s, id).value; a.schedule.Linear? ==> SecondsLeft(a) <= U64_MAX
    ensures var a := TryLoadStream(s, id).value;
            var (t, end) := ResumeStream(s, sender, id).value;
            && TryLoadStream(t, id).Some?
            && (end == ProjectedEndTime(TryLoadStream(t, id).value) <==> !a.schedule.Linear? || !RunDry(a, s.now))
  {
    ResumeUnfolds(s, sender, id);
    var a := TryLoadStream(s, id).value;
    if a.schedule.Linear? {
      DripResumeFigureAgreesIff(a, s.now);
    } else {
      ScheduledEndStays(a, ResumedStream(a, s.now), s.now);
    }
  }

  /** For a linear stream it is the true moment of exhaustion if and only if the
      seconds left fit in 64 bits; otherwise the high bits are lost without an error. */
  lemma ResumeFigureTruncatesIff(s: State, sender: Address, id: u64)
    requires StreamsWellFormed(s) && ResumeStream(s, sender, id).Ok?
    requires TryLoadStream(s, id).Some? && TryLoadStream(s, id).value.schedule.Linear?
    ensures var a := TryLoadStream(s, id).value;
            && a.ratePerSecond > 0
            && (ResumeStream(s, sender, id).value.1 == s.now + Calls.Undrawn(a, s.now) / a.ratePerSecond
                <==> Calls.Undrawn(a, s.now) / a.ratePerSecond <= U64_MAX)
  {
    ResumeUnfolds(s, sender, id);
    var a := TryLoadStream(s, id).value;
    Calls.UnaccruedIsUndrawn(a, s.now);
    QuotientBound(Unaccrued(a, s.now), a.ratePerSecond);
  }

  // ----- What a top-up logs -----

  /** The end in a top-up's event is the figure of the record then stored. */
  lemma TopUpReports(s: State, sender: Address, id: u64, amount: i128)
    requires StreamsWellFormed(s) && TopUpStream(s, sender, id, amount).Ok?
    ensures var t := TopUpStream(s, sender, id, amount).value.0;
            && TryLoadStream(t, id).Some? && t.log != []
            && var b := TryLoadStream(t, id).value;
               var last := t.log[|t.log| - 1].event;
               && (Drip(b, s.now) || Cliff(b, s.now))
               && last.StreamToppedUp? && last.id == id && last.newDeposited == b.deposited
               && TopUpFigure(b, s.now) == Ok(last.newEndTime)
  {
    Calls.TopUpDoes(s, sender, id, amount);
    var a, t := TryLoadStream(s, id).value, TopUpStream(s, sender, id, amount).value.0;
    var b := t.records[id].stream;
    ToppedUpWellFormed(a, b, s.now);
    Calls.UnaccruedIsUndrawn(b, s.now);
    QuotientBound(Calls.Undrawn(b, s.now), b.ratePerSecond);
  }

  /** When the figure for a record with its deposit just raised is the one queries
      report: the condition of each kind of stream, running and paused. */
  ghost predicate FigureRight(b: Stream, now: u64)
    requires b.ratePerSecond > 0 && (b.paused ==> b.pausedAt.Some?)
  {
    match b.schedule
    case StepTranches(_) => true
    case Linear =>
      if !b.paused then !RunDry(b, now)
      else if RunDry(b, now) then now == b.pausedAt.value + SecondsLeft(b)
      else now - b.pausedAt.value == b.pausedAt.value - b.lastUpdate
    case HybridCliffLinear(cliffTime, _) =>
      if EffectiveTime(b, now) < cliffTime
      then now + b.deposited / b.ratePerSecond == Min(U64_MAX, cliffTime + TailSeconds(b))
      else !TailRunDry(b, now) && (b.paused ==> now == b.pausedAt.value)
  }

  /** Every successful top-up: the end in its event is the end queries report from then
      on, 64 bits permitting, exactly under the condition of its kind of stream. */
  lemma TopUpEventAgreesIff(s: State, sender: Address, id: u64, amount: i128)
    requires StreamsWellFormed(s) && TopUpStream(s, sender, id, amount).Ok?
    ensures var t := TopUpStream(s, sender, id, amount).value.0;
            && TryLoadStream(t, id).Some? && t.log != []
            && var b := TryLoadStream(t, id).value;
               var last := t.log[|t.log| - 1].event;
               && last.StreamToppedUp? && b.ratePerSecond > 0 && (b.paused ==> b.pausedAt.Some?)
               && ((b.schedule.Linear? && b.paused ==> b.pausedAt.value + SecondsLeft(b) <= U64_MAX) ==>
                     (last.newEndTime == ProjectedEndTime(b) <==> FigureRight(b, s.now)))
  {
    TopUpReports(s, sender, id, amount);
    var t := TopUpStream(s, sender, id, amount).value.0;
    var b := TryLoadStream(t, id).value;
    if b.schedule.HybridCliffLinear? {
      HybridTopUpFigureAgreesIff(b, s.now);
    } else if !b.paused {
      TopUpFigureAgreesIff(b, s.now);
    } else if b.pausedAt.value + SecondsLeft(b) <= U64_MAX {
      PausedTopUpFigureAgreesIff(b, s.now);
    }
  }

  /** Only the sender can resume, only a paused stream, and a linear one only if the
      end time, its quotient cut to 64 bits, still fits in 64 bits. */
  lemma ResumeSucceedsIff(s: State, sender: Address, id: u64)
    requires StreamsWellFormed(s) && TryLoadStream(s, id).Some?
    ensures ResumeStream(s, sender, id).Ok?
       <==> var a := TryLoadStream(s, id).value;
            && sender == a.sender && a.status == Paused
            && (a.schedule.Linear? ==> s.now + TruncateU64(Unaccrued(a, s.now) / a.ratePerSecond) <= U64_MAX)
  {
    var a := TryLoadStream(s, id).value;
    if a.schedule.Linear? && a.isActive {
      UnaccruedExact(a, s.now);
      QuotientBound(Unaccrued(a, s.now), a.ratePerSecond);
    }
  }

  /** Waiting does not help: a paused stream that cannot be resumed now cannot be
      resumed later either, short of a top-up. */
  lemma ResumeTrapIsPermanent(s: State, id: u64, later: u64)
    requires StreamsWellFormed(s) && TryLoadStream(s, id).Some? && TryLoadStream(s, id).value.status == Paused
    requires s.now <= later && ResumeStream(s, TryLoadStream(s, id).value.sender, id).Err?
    ensures ResumeStream(s.(now := later), TryLoadStream(s, id).value.sender, id).Err?
  {
    var a, t := TryLoadStream(s, id).value, s.(now := later);
    assert TryLoadStream(t, id) == Some(a);
    ResumeSucceedsIff(s, a.sender, id);
    assert Unaccrued(a, later) == Unaccrued(a, s.now);
    assert StreamsWellFormed(t) by {
      forall j | TryLoadStream(t, j).Some?
        ensures WellFormed(TryLoadStream(t, j).value, later) && TryLoadStream(t, j).value.sender != s.self
      {
        assert TryLoadStream(s, j) == TryLoadStream(t, j);
        EntitlementGrows(TryLoadStream(s, j).value, s.now, later);
      }
    }
    ResumeSucceedsIff(t, a.sender, id);
  }

  lemma TrappedAtOnce()
    ensures StreamsWellFormed(TrappedPause()) && ResumeStream(TrappedPause(), 5, 1).Err?
  {
    TrappedPauseReached();
    assert Genesis(BARE);
    GenesisWellFormed(BARE);
    RunInvariant(BARE, TRAP_STEPS);
    ResumeSucceedsIff(TrappedPause(), 5, 1);
    assert Claimable(TRAPPED, 1) == 0;
    QuotientUnique(U64_MAX, 1, U64_MAX);
    assert TruncateU64(U64_MAX) == U64_MAX;
  }

  /** A run into the trap: at one token a second, the largest 64-bit deposit opened,
      paused and resumed at time 1. No later moment is any better. */
  lemma ResumeTrapReached(later: u64)
    requires 1 <= later
    ensures Genesis(BARE) && TrappedPause().now == 1
    ensures TryLoadStream(TrappedPause(), 1).Some? && TryLoadStream(TrappedPause(), 1).value.sender == 5
    ensures ResumeStream(TrappedPause(), 5, 1).Err? && ResumeStream(TrappedPause().(now := later), 5, 1).Err?
  {
    TrappedPauseReached();
    TrappedAtOnce();
    ResumeTrapIsPermanent(TrappedPause(), 1, later);
  }

  /** A run that gets there: a deposit of 2^65 - 3 over the longest duration, so one
      token a second, paused and resumed at once, is told an end 2^64 too early. */
  lemma ResumeFigureCanBeTruncated()
    ensures Genesis(BARE) && TryLoadStream(LongPause(), 1) == Some(LONG_STREAM)
    ensures Unaccrued(LONG_STREAM, 0) / LONG_STREAM.ratePerSecond == LONG > U64_MAX
    ensures Exec(LongPause().(tx := 3), CallResume(5, 1)).1 == Number(LONG - TWO_POW_64)
  {
    LongPauseReached();
    assert Claimable(LONG_STREAM, 0) == 0;
    QuotientUnique(LONG, 1, LONG);
    assert TruncateU64(LONG) == LONG - TWO_POW_64;
  }
}
