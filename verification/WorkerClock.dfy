/** The backend's answer for the rows the worker really leaves: their accrual anchor
    is set from the worker's own clock by every event that carries no time. */
module WorkerClock {
  import opened Bounded
  import opened Results
  import opened StreamTypes
  import opened Storage
  import opened Vesting
  import opened Entrypoints
  import opened Lifecycle
  import opened Runs
  import opened Indexer
  import opened RowTimes
  import opened ContractLog
  import opened Projection
  import opened ClaimableServices
  import opened Examples

  /** A row with its times, as the service reads it. */
  function WorkerRow(id: nat, row: Row, t: Times, updatedAt: Option<int>): StreamRow {
    StreamRow(id, row.rate, row.deposited, row.withdrawn, row.startTime, t.lastUpdate, row.isActive, row.isPaused,
              match row.pausedAt case Some(at) => Some(at) case None => None, t.totalPaused, updatedAt)
  }

  /** An anchor that does not change what the service answers: the record's own; or
      one past it while nothing has accrued; or one from which as much has accrued
      by either reckoning as there is left to pay. */
  predicate AnchorHarmless(s: Stream, anchor: int, now: u64) {
    var until := EffectiveTime(s, now);
    || Max(anchor, 0) == s.lastUpdate
    || s.lastUpdate == until <= anchor
    || s.ratePerSecond * (until - Max(s.lastUpdate, anchor)) >= Remaining(s)
  }

  /** For a row that is right in everything but its anchor: when the service answers
      as the contract does, and which way it errs when it does not. */
  lemma AnchorAgreesIff(id: nat, s: Stream, row: Row, t: Times, updatedAt: Option<int>, now: u64)
    requires WellFormed(s, now) && s.schedule.Linear? && s.isActive && Mirrors(row, s)
    ensures var answer := FreshAmount(WorkerRow(id, row, t, updatedAt), now);
            && (answer == ContractAnswer(s, now) <==> AnchorHarmless(s, t.lastUpdate, now))
            && (t.lastUpdate >= s.lastUpdate ==> answer <= ContractAnswer(s, now))
            && (t.lastUpdate <= s.lastUpdate ==> answer >= ContractAnswer(s, now))
  {
    var served, owed := Served(s, t.lastUpdate, now), EffectiveTime(s, now) - s.lastUpdate;
    ServedAmount(id, s, row, t, updatedAt, now);
    OwedAmount(id, s, now);
    CappedProducts(served, owed, s.ratePerSecond, Remaining(s));
    HarmlessMeans(s, t.lastUpdate, now);
  }

  /** Seconds accrued since the anchor. */
  function Served(s: Stream, anchor: int, now: u64): int {
    Max(0, EffectiveTime(s, now) - Max(anchor, 0))
  }

  lemma ServedAmount(id: nat, s: Stream, row: Row, t: Times, updatedAt: Option<int>, now: u64)
    requires WellFormed(s, now) && s.schedule.Linear? && s.isActive && Mirrors(row, s)
    ensures FreshAmount(WorkerRow(id, row, t, updatedAt), now)
         == Min(Served(s, t.lastUpdate, now) * s.ratePerSecond, Remaining(s))
    ensures 0 < Remaining(s)
  {
    var r := WorkerRow(id, row, t, updatedAt);
    assert MirrorElapsed(r, now) == Served(s, t.lastUpdate, now);
    AmountFromSeconds(r, now);
    assert LeftOf(r) == Remaining(s) == s.deposited - s.withdrawn;
    ProductMonotone(0, Served(s, t.lastUpdate, now), s.ratePerSecond);
  }

  lemma OwedAmount(id: nat, s: Stream, now: u64)
    requires WellFormed(s, now) && s.schedule.Linear? && s.isActive
    ensures ContractAnswer(s, now) == Min((EffectiveTime(s, now) - s.lastUpdate) * s.ratePerSecond, Remaining(s))
  {
    AmountFromElapsed(id, s, now);
  }

  lemma HarmlessMeans(s: Stream, anchor: int, now: u64)
    requires WellFormed(s, now) && s.schedule.Linear? && s.isActive
    ensures var served, owed := Served(s, anchor, now), EffectiveTime(s, now) - s.lastUpdate;
            AnchorHarmless(s, anchor, now) <==> served == owed || s.ratePerSecond * Min(served, owed) >= Remaining(s)
  {
    var until := EffectiveTime(s, now);
    var served, owed := Served(s, anchor, now), until - s.lastUpdate;
    if anchor <= until {
      assert Min(served, owed) == until - Max(s.lastUpdate, anchor);
    } else {
      assert Min(served, owed) == 0 && until - Max(s.lastUpdate, anchor) < 0;
      ProductMonotone(until - Max(s.lastUpdate, anchor), 0, s.ratePerSecond);
    }
  }

  lemma CappedProducts(a: int, b: int, rate: int, cap: int)
    requires 0 <= a && 0 <= b && 0 < rate && 0 < cap
    ensures Min(a * rate, cap) == Min(b * rate, cap) <==> a == b || rate * Min(a, b) >= cap
    ensures a <= b ==> Min(a * rate, cap) <= Min(b * rate, cap)
    ensures b <= a ==> Min(b * rate, cap) <= Min(a * rate, cap)
  {
    if a < b {
      StrictProduct(a, b, rate);
    } else if b < a {
      StrictProduct(b, a, rate);
    }
  }

  /** What the service is measured against is the contract's own query: for every
      stored linear stream the service answers, from a row that repeats its record,
      what the query answers in that very state. */
  lemma MirrorAnswersQuery(s: State, id: u64)
    requires StreamsWellFormed(s) && TryLoadStream(s, id).Some?
    ensures var a := TryLoadStream(s, id).value;
            && GetClaimableAmount(s, id) == Some(ContractAnswer(a, s.now))
            && (a.schedule.Linear? ==> GetClaimableAmount(s, id) == Some(FreshAmount(RowOf(id, a), s.now)))
  {
    var a := TryLoadStream(s, id).value;
    if a.schedule.Linear? {
      MirrorAgreesOnReachable(id, a, s.now);
    }
  }

  // ----- Over every run -----

  /** The worker's row for a stream after handling a log, as the service reads it. */
  function ServedRow(log: seq<LogEntry>, clocks: nat -> int, id: u64, updatedAt: Option<int>): StreamRow
    requires id in HandleAll(EMPTY_DB, log).rows
  {
    WorkerRow(id, HandleAll(EMPTY_DB, log).rows[id], StampAll(map[], EMPTY_DB, log, clocks)[id], updatedAt)
  }

  lemma {:induction false} AnchoredIffRow(log: seq<LogEntry>, clocks: nat -> int, id: u64)
    ensures AnchorAfter(log, clocks, id).Some? == RowAfter(None, log, id).Some?
    decreases |log|
  {
    if log != [] {
      AnchoredIffRow(log[..|log| - 1], clocks, id);
    }
  }

  lemma {:induction false} AnchorFromLast(log: seq<LogEntry>, clocks: nat -> int, id: u64)
    ensures var anchor, latest := AnchorAfter(log, clocks, id), LastOwn(log, id);
            anchor.Some? ==> latest.Some? && anchor.value == AnchorOf(latest.value, anchor.value)
    decreases |log|
  {
    if log != [] {
      AnchorFromLast(log[..|log| - 1], clocks, id);
    }
  }

  /** For the log of any run with distinct pairs, handled in its order at any readings
      of the clock: the service's answer for a linear stream, asked at the end of the
      run or at any time later, is the contract's if and only if the stream is over or
      the anchor its last event left is harmless. */
  lemma WorkerAnswerAgreesIff(s: State, steps: seq<Step>, clocks: nat -> int, id: u64, updatedAt: Option<int>, q: u64)
    requires Genesis(s) && FreshPairs({}, Run(s, steps).log) && Run(s, steps).now <= q
    requires TryLoadStream(Run(s, steps), id).Some? && TryLoadStream(Run(s, steps), id).value.schedule.Linear?
    ensures var t := Run(s, steps);
            var a := TryLoadStream(t, id).value;
            && id in HandleAll(EMPTY_DB, t.log).rows && AnchorAfter(t.log, clocks, id).Some?
            && (FreshAmount(ServedRow(t.log, clocks, id, updatedAt), q) == ContractAnswer(a, q)
                <==> !a.isActive || AnchorHarmless(a, AnchorAfter(t.log, clocks, id).value, q))
  {
    var t := Run(s, steps);
    var a := TryLoadStream(t, id).value;
    AccountOf(s, steps, id);
    ProjectionRefinesContract(s, steps, id);
    AnchoredIffRow(t.log, clocks, id);
    AnchorIsLastSet(t.log, clocks, id);
    if a.isActive {
      StoredWellFormed(s, steps, id, q);
      AnchorAgreesIff(id, a, HandleAll(EMPTY_DB, t.log).rows[id], StampAll(map[], EMPTY_DB, t.log, clocks)[id],
                      updatedAt, q);
    }
  }

  lemma StoredWellFormed(s: State, steps: seq<Step>, id: u64, q: u64)
    requires Genesis(s) && TryLoadStream(Run(s, steps), id).Some? && Run(s, steps).now <= q
    ensures WellFormed(TryLoadStream(Run(s, steps), id).value, q)
  {
    GenesisWellFormed(s);
    RunInvariant(s, steps);
    EntitlementGrows(TryLoadStream(Run(s, steps), id).value, Run(s, steps).now, q);
  }

  /** So long as the last event of the stream is its creation or a withdrawal the
      answer is right, at whatever readings of the clock and whenever it is asked. */
  lemma RightAfterPayment(s: State, steps: seq<Step>, clocks: nat -> int, id: u64, updatedAt: Option<int>, q: u64)
    requires Genesis(s) && FreshPairs({}, Run(s, steps).log) && Run(s, steps).now <= q
    requires TryLoadStream(Run(s, steps), id).Some? && TryLoadStream(Run(s, steps), id).value.schedule.Linear?
    requires var latest := LastOwn(Run(s, steps).log, id);
             latest.Some? ==> latest.value.StreamCreated? || latest.value.TokensWithdrawn?
    ensures id in HandleAll(EMPTY_DB, Run(s, steps).log).rows
    ensures FreshAmount(ServedRow(Run(s, steps).log, clocks, id, updatedAt), q)
         == ContractAnswer(TryLoadStream(Run(s, steps), id).value, q)
  {
    var log := Run(s, steps).log;
    WorkerAnswerAgreesIff(s, steps, clocks, id, updatedAt, q);
    AccountOf(s, steps, id);
    AnchorFromLast(log, clocks, id);
    StoredWellFormed(s, steps, id, q);
  }

  /** Ten seconds into a stream of 10 a second it is topped up, and the worker handles
      that at once: the service answers 0, and the contract still owes 100. */
  lemma TopUpForgetsAccrual()
    ensures Genesis(BARE) && ToppedUpLater().now == 10
    ensures TryLoadStream(ToppedUpLater(), 1).Some? && 1 in HandleAll(EMPTY_DB, ToppedUpLater().log).rows
    ensures ContractAnswer(TryLoadStream(ToppedUpLater(), 1).value, 10) == 100
    ensures FreshAmount(ServedRow(ToppedUpLater().log, (n: nat) => 10, 1, None), 10) == 0
  {
    ToppedUpLaterReached();
    var creation, toppedUp := Opening(1), LogEntry(2, StreamToppedUp(1, 5, 500, 1500, 150));
    var clocks := (n: nat) => 10;
    HandleSnoc(EMPTY_DB, [], creation);
    HandleSnoc(EMPTY_DB, [creation], toppedUp);
    StampSnoc(map[], EMPTY_DB, [], creation, clocks);
    StampSnoc(map[], EMPTY_DB, [creation], toppedUp, clocks);
    assert [] + [creation] == [creation];
    var db := HandleAll(EMPTY_DB, [creation]);
    assert db.seen == {(1, CREATED)};
  }
}
