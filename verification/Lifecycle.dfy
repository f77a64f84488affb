/** The life of a stream record: which records are well formed, how one call may
    change them, and what holds of every record over every run. */
module Lifecycle {
  import opened Bounded
  import opened Results
  import opened StreamTypes
  import opened Storage
  import opened Vesting
  import opened Entrypoints

  ghost predicate WellFormed(s: Stream, now: u64) {
    && 0 < s.deposited
    && 0 <= s.withdrawn <= s.deposited
    && (s.isActive <==> s.status == Active || s.status == Paused)
    && (s.paused <==> s.status == Paused)
    && (s.paused <==> s.pausedAt.Some?)
    && s.startTime <= s.lastUpdate <= s.pausedAt.UnwrapOr(now) <= now
    && (s.status == Completed ==> s.withdrawn == s.deposited)
    && (s.isActive ==> s.withdrawn < s.deposited)
    && SoundSchedule(s)
    && (s.isActive ==> s.withdrawn <= Earned(s, s.lastUpdate))
  }

  ghost predicate FeeCapped(s: State) {
    TryLoadConfig(s).Some? ==> TryLoadConfig(s).value.feeRateBps <= MAX_FEE_RATE_BPS
  }

  ghost predicate StreamsWellFormed(s: State) {
    && (forall id :: id in s.records ==> 1 <= id <= s.counter)
    && (forall id :: TryLoadStream(s, id).Some? ==>
          WellFormed(TryLoadStream(s, id).value, s.now) && TryLoadStream(s, id).value.sender != s.self)
    && FeeCapped(s)
  }

  /** Everything the recipient has had or could take right now. */
  function Entitlement(s: Stream, now: u64): int {
    s.withdrawn + if s.isActive then Claimable(s, now) else 0
  }

  /** The transitions an active record can take in one call. */
  ghost predicate Moved(a: Stream, b: Stream, now: u64) {
    && a.isActive
    && (|| (!a.paused && Claimable(a, now) > 0 && Credited(a, Claimable(a, now), now) == Ok(b))
        || (!a.schedule.StepTranches? && a.deposited < b.deposited && b == a.(deposited := b.deposited))
        || b == CancelledStream(a, now)
        || (!a.paused && b == PausedStream(a, now))
        || (a.paused && b == ResumedStream(a, now)))
  }

  ghost predicate Fresh(b: Stream, now: u64) {
    && WellFormed(b, now)
    && b.status == Active && b.withdrawn == 0 && b.startTime == b.lastUpdate == now
  }

  ghost predicate EvolvedAt(s: State, t: State, id: u64) {
    if id in s.records then
      if id in t.records then
        || t.records[id] == s.records[id]
        || (&& TryLoadStream(s, id).Some? && t.records[id].CurrentStream?
            && Moved(TryLoadStream(s, id).value, t.records[id].stream, s.now))
      else TryLoadStream(s, id).Some? && !TryLoadStream(s, id).value.isActive
    else id in t.records ==>
      && id == t.counter == s.counter + 1
      && t.records[id].CurrentStream? && Fresh(t.records[id].stream, s.now)
      && t.records[id].stream.sender != s.self
  }

  /** What a single call may do to the store, record by record. */
  ghost predicate Evolved(s: State, t: State) {
    && (t.self, t.now, t.tx) == (s.self, s.now, s.tx)
    && s.counter <= t.counter
    && s.log <= t.log
    && (FeeCapped(s) ==> FeeCapped(t))
    && forall id: u64 :: EvolvedAt(s, t, id)
  }

  // ----- Every transition keeps a record well formed -----

  lemma SettledWellFormed(a: Stream, b: Stream, now: u64)
    requires WellFormed(a, now) && a.isActive && !a.paused
    requires Claimable(a, now) > 0 && Credited(a, Claimable(a, now), now) == Ok(b)
    ensures WellFormed(b, now)
    ensures b.withdrawn == Min(a.deposited, Earned(a, now))
  {
    ClaimableIsEarnedMinusPaid(a, now);
    assert b.withdrawn == Min(a.deposited, Earned(a, now));
    if b.isActive {
      assert b.withdrawn <= Earned(b, now);
    }
  }

  lemma ToppedUpWellFormed(a: Stream, b: Stream, now: u64)
    requires WellFormed(a, now) && a.isActive && !a.schedule.StepTranches?
    requires a.deposited < b.deposited && b == a.(deposited := b.deposited)
    ensures WellFormed(b, now)
  {
    assert Earned(a, a.lastUpdate) <= Earned(b, b.lastUpdate);
  }

  lemma ResumedWellFormed(a: Stream, now: u64)
    requires WellFormed(a, now) && a.isActive && a.paused
    ensures WellFormed(ResumedStream(a, now), now)
    ensures ResumedStream(a, now).lastUpdate == a.lastUpdate + (now - a.pausedAt.value) <= now
  {
    var b := ResumedStream(a, now);
    assert b.lastUpdate == a.lastUpdate + (now - a.pausedAt.value);
    EarnedMonotone(a, a.lastUpdate, b.lastUpdate);
    match a.schedule
    case Linear => assert Earned(b, b.lastUpdate) == b.withdrawn;
    case StepTranches(_) =>
    case HybridCliffLinear(_, _) =>
  }

  lemma CancelledWellFormed(a: Stream, now: u64)
    requires WellFormed(a, now) && a.isActive
    ensures var b := CancelledStream(a, now);
            && WellFormed(b, now)
            && b.withdrawn == Max(a.withdrawn, Min(a.deposited, Earned(a, EffectiveTime(a, now))))
            && b.withdrawn == a.withdrawn + Claimable(a, now)
  {
    ClaimableIsEarnedMinusPaid(a, now);
  }

  lemma MovedWellFormed(a: Stream, b: Stream, now: u64)
    requires WellFormed(a, now) && Moved(a, b, now)
    ensures WellFormed(b, now)
    ensures (b.sender, b.recipient, b.token, b.ratePerSecond, b.schedule, b.startTime)
         == (a.sender, a.recipient, a.token, a.ratePerSecond, a.schedule, a.startTime)
    ensures a.withdrawn <= b.withdrawn && a.deposited <= b.deposited
    ensures Entitlement(a, now) <= Entitlement(b, now)
  {
    EntitlementIsEarned(a, now);
    if !a.paused && Claimable(a, now) > 0 && Credited(a, Claimable(a, now), now) == Ok(b) {
      SettledWellFormed(a, b, now);
    } else if !a.schedule.StepTranches? && a.deposited < b.deposited && b == a.(deposited := b.deposited) {
      ToppedUpWellFormed(a, b, now);
    } else if b == CancelledStream(a, now) {
      CancelledWellFormed(a, now);
    } else if a.paused {
      ResumedWellFormed(a, now);
    } else {
      assert b == PausedStream(a, now);
      assert Earned(b, b.lastUpdate) == Earned(a, a.lastUpdate);
    }
    EntitlementIsEarned(b, now);
    MovedEarnsOn(a, b, now);
  }

  /** An active record's recipient is entitled to exactly the part of the deposit
      earned by the effective time. */
  lemma EntitlementIsEarned(s: Stream, now: u64)
    requires WellFormed(s, now)
    ensures s.isActive ==> Entitlement(s, now) == Min(s.deposited, Earned(s, EffectiveTime(s, now)))
  {
    ClaimableIsEarnedMinusPaid(s, now);
    EarnedMonotone(s, s.lastUpdate, EffectiveTime(s, now));
  }

  lemma SettledEarnsOn(a: Stream, b: Stream, now: u64)
    requires WellFormed(a, now) && a.isActive && !a.paused
    requires Claimable(a, now) > 0 && Credited(a, Claimable(a, now), now) == Ok(b)
    ensures b.isActive ==> Earned(a, now) <= Earned(b, now)
    ensures !b.isActive ==> Min(a.deposited, Earned(a, now)) <= b.withdrawn
  {
    SettledWellFormed(a, b, now);
    EarnedMonotone(b, b.lastUpdate, now);
  }

  lemma ResumedEarnsOn(a: Stream, now: u64)
    requires WellFormed(a, now) && a.isActive && a.paused
    ensures Earned(a, a.pausedAt.value) <= Earned(ResumedStream(a, now), now)
  {
    ResumedWellFormed(a, now);
    EarnedMonotone(a, a.pausedAt.value, now);
  }

  lemma MovedEarnsOn(a: Stream, b: Stream, now: u64)
    requires WellFormed(a, now) && Moved(a, b, now)
    ensures b.isActive ==> Earned(a, EffectiveTime(a, now)) <= Earned(b, EffectiveTime(b, now))
    ensures !b.isActive ==> Min(a.deposited, Earned(a, EffectiveTime(a, now))) <= b.withdrawn
  {
    if !a.paused && Claimable(a, now) > 0 && Credited(a, Claimable(a, now), now) == Ok(b) {
      SettledWellFormed(a, b, now);
      SettledEarnsOn(a, b, now);
    } else if !a.schedule.StepTranches? && a.deposited < b.deposited && b == a.(deposited := b.deposited) {
    } else if b == CancelledStream(a, now) {
      CancelledWellFormed(a, now);
    } else if a.paused {
      ResumedEarnsOn(a, now);
    } else {
    }
  }

  lemma EntitlementGrows(s: Stream, now: u64, later: u64)
    requires WellFormed(s, now) && now <= later
    ensures WellFormed(s, later)
    ensures Entitlement(s, now) <= Entitlement(s, later)
  {
    EntitlementIsEarned(s, now);
    EntitlementIsEarned(s, later);
    EarnedMonotone(s, EffectiveTime(s, now), EffectiveTime(s, later));
  }

  lemma EvolvedWellFormed(s: State, t: State)
    requires StreamsWellFormed(s) && Evolved(s, t)
    ensures StreamsWellFormed(t)
  {
    forall id | id in t.records ensures 1 <= id <= t.counter {
      assert EvolvedAt(s, t, id);
    }
    forall id | TryLoadStream(t, id).Some?
      ensures WellFormed(TryLoadStream(t, id).value, t.now) && TryLoadStream(t, id).value.sender != t.self
    {
      assert EvolvedAt(s, t, id);
      if id in s.records && t.records[id] != s.records[id] {
        MovedWellFormed(TryLoadStream(s, id).value, t.records[id].stream, s.now);
      } else if id in s.records {
        assert TryLoadStream(t, id) == TryLoadStream(s, id);
      }
    }
  }
}
