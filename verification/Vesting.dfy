/** The three unlock curves: what is claimable at a moment, which step schedules
    are accepted, and what both mean in unbounded arithmetic. */
module Vesting {
  import opened Bounded
  import opened Results
  import opened StreamTypes

  // ----- The contract's arithmetic -----

  /** Accrual stops at the pause point while a stream is paused. */
  function EffectiveTime(s: Stream, now: u64): u64 {
    if s.paused then s.pausedAt.UnwrapOr(s.lastUpdate) else now
  }

  function Remaining(s: Stream): i128 {
    Max(SaturatingSub(s.deposited, s.withdrawn), 0)
  }

  /** Saturating sum of the steps reached by time t, stopping at the first one in
      the future. */
  function ReachedTotal(steps: seq<VestingStep>, t: u64, acc: i128): i128 {
    if steps == [] || steps[0].unlockTime > t then acc
    else ReachedTotal(steps[1..], t, SaturatingAdd(acc, steps[0].unlockAmount))
  }

  function Claimable(s: Stream, now: u64): i128 {
    var t := EffectiveTime(s, now);
    var remaining := Remaining(s);
    match s.schedule
    case Linear =>
      var streamed := SaturatingSubU64(t, s.lastUpdate) * s.ratePerSecond;
      if FitsI128(streamed) then Min(streamed, remaining) else remaining
    case StepTranches(steps) =>
      Min(Max(SaturatingSub(ReachedTotal(steps, t, 0), s.withdrawn), 0), remaining)
    case HybridCliffLinear(cliffTime, cliffAmount) =>
      if t < cliffTime then 0
      else
        var tail := SaturatingSub(s.deposited, cliffAmount);
        var dripped := SaturatingSubU64(t, cliffTime) * s.ratePerSecond;
        var linear := if FitsI128(dripped) then Min(dripped, tail) else tail;
        Min(Max(SaturatingSub(SaturatingAdd(cliffAmount, linear), s.withdrawn), 0), remaining)
  }

  method CalculateClaimable(s: Stream, now: u64) returns (claimable: i128)
    ensures claimable == Claimable(s, now)
  {
    var effectiveNow := if s.paused then s.pausedAt.UnwrapOr(s.lastUpdate) else now;
    var remaining := Max(SaturatingSub(s.deposited, s.withdrawn), 0);
    match s.schedule
    case Linear =>
      var elapsed := SaturatingSubU64(effectiveNow, s.lastUpdate);
      var streamed := elapsed * s.ratePerSecond;
      if !FitsI128(streamed) {
        return remaining;
      }
      claimable := Min(streamed, remaining);
    case StepTranches(steps) =>
      var unlocked: i128 := 0;
      var i := 0;
      while i < |steps|
        invariant 0 <= i <= |steps|
        invariant ReachedTotal(steps, effectiveNow, 0) == ReachedTotal(steps[i..], effectiveNow, unlocked)
      {
        if steps[i].unlockTime > effectiveNow {
          break;
        }
        unlocked := SaturatingAdd(unlocked, steps[i].unlockAmount);
        i := i + 1;
      }
      claimable := Min(Max(SaturatingSub(unlocked, s.withdrawn), 0), remaining);
    case HybridCliffLinear(cliffTime, cliffAmount) =>
      if effectiveNow < cliffTime {
        return 0;
      }
      var linearTotal := SaturatingSub(s.deposited, cliffAmount);
      var dripped := SaturatingSubU64(effectiveNow, cliffTime) * s.ratePerSecond;
      var linear := if FitsI128(dripped) then Min(dripped, linearTotal) else linearTotal;
      claimable := Min(Max(SaturatingSub(SaturatingAdd(cliffAmount, linear), s.withdrawn), 0), remaining);
  }

  // ----- Acceptance of step schedules -----

  /** The complaint, if any, against step k given the ones before it. */
  function FaultAt(steps: seq<VestingStep>, start: u64, k: nat): Option<Error>
    requires k < |steps|
  {
    if steps[k].unlockAmount <= 0 then Some(InvalidVestingStepAmount)
    else if steps[k].unlockTime <= start then Some(VestingStepBeforeStart)
    else if k > 0 && steps[k].unlockTime <= steps[k - 1].unlockTime then Some(NonMonotonicVestingSteps)
    else None
  }

  function FirstFault(steps: seq<VestingStep>, start: u64, k: nat): Option<Error>
    requires k <= |steps|
    decreases |steps| - k
  {
    if k == |steps| then None
    else if FaultAt(steps, start, k).Some? then FaultAt(steps, start, k)
    else FirstFault(steps, start, k + 1)
  }

  function ScheduleVerdict(steps: seq<VestingStep>, start: u64, net: i128): Option<Error> {
    if FirstFault(steps, start, 0).Some? then FirstFault(steps, start, 0)
    else if ReachedTotal(steps, U64_MAX, 0) != net then Some(VestingStepTotalMismatch)
    else None
  }

  method ValidateStepSchedule(steps: seq<VestingStep>, start: u64, net: i128) returns (verdict: Option<Error>)
    ensures verdict == ScheduleVerdict(steps, start, net)
  {
    var total: i128 := 0;
    var previous: Option<u64> := None;
    var i := 0;
    while i < |steps|
      invariant 0 <= i <= |steps|
      invariant previous == if i == 0 then None else Some(steps[i - 1].unlockTime)
      invariant FirstFault(steps, start, 0) == FirstFault(steps, start, i)
      invariant ReachedTotal(steps, U64_MAX, 0) == ReachedTotal(steps[i..], U64_MAX, total)
    {
      if steps[i].unlockAmount <= 0 {
        return Some(InvalidVestingStepAmount);
      }
      if steps[i].unlockTime <= start {
        return Some(VestingStepBeforeStart);
      }
      if previous.Some? && steps[i].unlockTime <= previous.value {
        return Some(NonMonotonicVestingSteps);
      }
      previous := Some(steps[i].unlockTime);
      total := SaturatingAdd(total, steps[i].unlockAmount);
      i := i + 1;
    }
    if total != net {
      return Some(VestingStepTotalMismatch);
    }
    return None;
  }

  // ----- Meaning -----

  ghost predicate Increasing(steps: seq<VestingStep>) {
    forall i, j :: 0 <= i < j < |steps| ==> steps[i].unlockTime < steps[j].unlockTime
  }

  ghost predicate AllPositive(steps: seq<VestingStep>) {
    forall i :: 0 <= i < |steps| ==> steps[i].unlockAmount > 0
  }

  ghost predicate AllAfter(steps: seq<VestingStep>, start: u64) {
    forall i :: 0 <= i < |steps| ==> steps[i].unlockTime > start
  }

  /** Exact sum of every step due by time t, wherever it stands in the list. */
  ghost function UnlockedBy(steps: seq<VestingStep>, t: int): int {
    if steps == [] then 0
    else (if steps[0].unlockTime <= t then steps[0].unlockAmount else 0) + UnlockedBy(steps[1..], t)
  }

  ghost function TotalUnlock(steps: seq<VestingStep>): int {
    UnlockedBy(steps, U64_MAX)
  }

  ghost predicate SoundSchedule(s: Stream) {
    match s.schedule
    case Linear => s.ratePerSecond >= 1
    case StepTranches(steps) =>
      && s.ratePerSecond == 0
      && Increasing(steps) && AllPositive(steps) && AllAfter(steps, s.startTime)
      && Min(I128_MAX, TotalUnlock(steps)) == s.deposited
    case HybridCliffLinear(cliffTime, cliffAmount) =>
      s.ratePerSecond >= 1 && s.startTime < cliffTime && 0 < cliffAmount < s.deposited
  }

  /** Exact total earned by time t, paid out or not, in unbounded arithmetic. A
      linear stream earns from its anchor; the other two from fixed timestamps. */
  ghost function Earned(s: Stream, t: int): int {
    match s.schedule
    case Linear => s.withdrawn + s.ratePerSecond * Max(0, t - s.lastUpdate)
    case StepTranches(steps) => UnlockedBy(steps, t)
    case HybridCliffLinear(cliffTime, cliffAmount) =>
      if t < cliffTime then 0
      else cliffAmount + Min(s.ratePerSecond * (t - cliffTime), s.deposited - cliffAmount)
  }

  lemma {:induction false} UnlockedByMonotone(steps: seq<VestingStep>, t: int, u: int)
    requires AllPositive(steps) && t <= u
    ensures 0 <= UnlockedBy(steps, t) <= UnlockedBy(steps, u)
  {
    if steps != [] {
      UnlockedByMonotone(steps[1..], t, u);
    }
  }

  lemma {:induction false} NothingUnlocked(steps: seq<VestingStep>, t: int)
    requires forall i :: 0 <= i < |steps| ==> steps[i].unlockTime > t
    ensures UnlockedBy(steps, t) == 0
  {
    if steps != [] {
      NothingUnlocked(steps[1..], t);
    }
  }

  /** Stopping at the first future step loses nothing, and saturation only ever
      cuts the exact sum off at i128::MAX. */
  lemma {:induction false} EarlyExitIsFullScan(steps: seq<VestingStep>, t: u64, acc: i128)
    requires Increasing(steps) && AllPositive(steps) && acc >= 0
    ensures ReachedTotal(steps, t, acc) == Min(I128_MAX, acc + UnlockedBy(steps, t))
  {
    if steps == [] {
    } else if steps[0].unlockTime > t {
      NothingUnlocked(steps, t);
    } else {
      UnlockedByMonotone(steps[1..], t, t);
      EarlyExitIsFullScan(steps[1..], t, SaturatingAdd(acc, steps[0].unlockAmount));
    }
  }

  lemma {:induction false} NoFaultMeansSound(steps: seq<VestingStep>, start: u64, k: nat)
    requires k <= |steps|
    ensures FirstFault(steps, start, k) == None
       <==> forall i :: k <= i < |steps| ==> FaultAt(steps, start, i) == None
    decreases |steps| - k
  {
    if k < |steps| {
      NoFaultMeansSound(steps, start, k + 1);
    }
  }

  lemma {:induction false} NeighboursOrdered(steps: seq<VestingStep>, i: nat, j: nat)
    requires i < j < |steps|
    requires forall k :: 0 < k < |steps| ==> steps[k - 1].unlockTime < steps[k].unlockTime
    ensures steps[i].unlockTime < steps[j].unlockTime
    decreases j - i
  {
    if i + 1 < j {
      NeighboursOrdered(steps, i, j - 1);
    }
  }

  lemma StructureIffNoFault(steps: seq<VestingStep>, start: u64)
    ensures FirstFault(steps, start, 0) == None
       <==> Increasing(steps) && AllPositive(steps) && AllAfter(steps, start)
  {
    NoFaultMeansSound(steps, start, 0);
    if FirstFault(steps, start, 0) == None {
      forall k | 0 < k < |steps| ensures steps[k - 1].unlockTime < steps[k].unlockTime {
        assert FaultAt(steps, start, k) == None;
      }
      forall i, j | 0 <= i < j < |steps| ensures steps[i].unlockTime < steps[j].unlockTime {
        NeighboursOrdered(steps, i, j);
      }
      forall i | 0 <= i < |steps| ensures steps[i].unlockAmount > 0 && steps[i].unlockTime > start {
        assert FaultAt(steps, start, i) == None;
      }
    }
    if Increasing(steps) && AllPositive(steps) && AllAfter(steps, start) {
      forall i | 0 <= i < |steps| ensures FaultAt(steps, start, i) == None {
      }
    }
  }

  /** Exactly which schedules are accepted. The saturating sum means that the one
      net deposit for which the steps need not add up is i128::MAX itself. */
  lemma ScheduleAcceptedIff(steps: seq<VestingStep>, start: u64, net: i128)
    ensures ScheduleVerdict(steps, start, net) == None
       <==> && Increasing(steps) && AllPositive(steps) && AllAfter(steps, start)
            && (TotalUnlock(steps) == net || (net == I128_MAX && TotalUnlock(steps) > I128_MAX))
  {
    StructureIffNoFault(steps, start);
    if FirstFault(steps, start, 0) == None {
      EarlyExitIsFullScan(steps, U64_MAX, 0);
      UnlockedByMonotone(steps, U64_MAX, U64_MAX);
    }
  }

  /** Which complaint: that of the first step out of line with the ones before it, its
      amount ahead of its time; the total only when all steps are in line. */
  lemma FirstComplaint(steps: seq<VestingStep>, start: u64, net: i128, k: nat)
    requires k < |steps|
    requires var before := steps[..k]; Increasing(before) && AllPositive(before) && AllAfter(before, start)
    requires var upTo := steps[..k + 1]; !(Increasing(upTo) && AllPositive(upTo) && AllAfter(upTo, start))
    ensures ScheduleVerdict(steps, start, net)
         == Some(if steps[k].unlockAmount <= 0 then InvalidVestingStepAmount
                 else if steps[k].unlockTime <= start then VestingStepBeforeStart
                 else NonMonotonicVestingSteps)
  {
    StructureIffNoFault(steps[..k], start);
    StructureIffNoFault(steps[..k + 1], start);
    NoFaultMeansSound(steps[..k], start, 0);
    NoFaultMeansSound(steps[..k + 1], start, 0);
    forall i | 0 <= i < k ensures FaultAt(steps, start, i) == None {
      assert FaultAt(steps[..k], start, i) == None;
    }
    assert forall i :: 0 <= i <= k ==> FaultAt(steps[..k + 1], start, i) == FaultAt(steps, start, i);
    FaultFoundFirst(steps, start, 0, k);
  }

  lemma {:induction false} FaultFoundFirst(steps: seq<VestingStep>, start: u64, i: nat, k: nat)
    requires i <= k < |steps| && FaultAt(steps, start, k).Some?
    requires forall j :: i <= j < k ==> FaultAt(steps, start, j) == None
    ensures FirstFault(steps, start, i) == FaultAt(steps, start, k)
    decreases k - i
  {
    if i < k {
      FaultFoundFirst(steps, start, i + 1, k);
    }
  }

  /** The accepted schedule whose steps do not add up to the deposit. */
  lemma SaturatedScheduleAccepted()
    ensures var steps := [VestingStep(1, I128_MAX), VestingStep(2, 1)];
            ScheduleVerdict(steps, 0, I128_MAX) == None && TotalUnlock(steps) == I128_MAX + 1
  {
    var steps := [VestingStep(1, I128_MAX), VestingStep(2, 1)];
    assert steps[1..] == [VestingStep(2, 1)] && steps[1..][1..] == [];
    assert UnlockedBy(steps[1..], U64_MAX) == 1;
    ScheduleAcceptedIff(steps, 0, I128_MAX);
  }

  /** What has been earned never decreases with time. */
  lemma EarnedMonotone(s: Stream, t: int, u: int)
    requires SoundSchedule(s) && t <= u
    ensures Earned(s, t) <= Earned(s, u)
  {
    match s.schedule
    case Linear => ProductMonotone(Max(0, t - s.lastUpdate), Max(0, u - s.lastUpdate), s.ratePerSecond);
    case StepTranches(steps) => UnlockedByMonotone(steps, t, u);
    case HybridCliffLinear(cliffTime, cliffAmount) =>
      if t >= cliffTime {
        ProductMonotone(t - cliffTime, u - cliffTime, s.ratePerSecond);
      } else if u >= cliffTime {
        ProductMonotone(0, u - cliffTime, s.ratePerSecond);
      }
  }

  lemma LinearClaimable(s: Stream, now: u64)
    requires s.schedule.Linear? && SoundSchedule(s) && 0 <= s.withdrawn <= s.deposited
    ensures Claimable(s, now) == Max(0, Min(s.deposited, Earned(s, EffectiveTime(s, now))) - s.withdrawn)
  {
    var elapsed := SaturatingSubU64(EffectiveTime(s, now), s.lastUpdate);
    ProductMonotone(0, elapsed, s.ratePerSecond);
    var streamed := elapsed * s.ratePerSecond;
    assert Earned(s, EffectiveTime(s, now)) == s.withdrawn + streamed;
    assert Remaining(s) == s.deposited - s.withdrawn;
  }

  lemma StepClaimable(s: Stream, now: u64)
    requires s.schedule.StepTranches? && SoundSchedule(s) && 0 <= s.withdrawn <= s.deposited
    ensures Claimable(s, now) == Max(0, Min(s.deposited, Earned(s, EffectiveTime(s, now))) - s.withdrawn)
  {
    var t := EffectiveTime(s, now);
    EarlyExitIsFullScan(s.schedule.steps, t, 0);
    UnlockedByMonotone(s.schedule.steps, t, t);
    assert Remaining(s) == s.deposited - s.withdrawn;
  }

  lemma HybridClaimable(s: Stream, now: u64)
    requires s.schedule.HybridCliffLinear? && SoundSchedule(s) && 0 <= s.withdrawn <= s.deposited
    ensures Claimable(s, now) == Max(0, Min(s.deposited, Earned(s, EffectiveTime(s, now))) - s.withdrawn)
  {
    var t := EffectiveTime(s, now);
    var cliff := s.schedule.cliffTime;
    assert Remaining(s) == s.deposited - s.withdrawn;
    if t >= cliff {
      ProductMonotone(0, t - cliff, s.ratePerSecond);
      var dripped := SaturatingSubU64(t, cliff) * s.ratePerSecond;
      assert dripped == s.ratePerSecond * (t - cliff) >= 0;
    }
  }

  /** The bounded arithmetic computes the unbounded definition: overflow in the
      multiplication and saturation in the sums are invisible in the result. */
  lemma ClaimableIsEarnedMinusPaid(s: Stream, now: u64)
    requires SoundSchedule(s) && 0 <= s.withdrawn <= s.deposited
    ensures Claimable(s, now) == Max(0, Min(s.deposited, Earned(s, EffectiveTime(s, now))) - s.withdrawn)
  {
    match s.schedule
    case Linear => LinearClaimable(s, now);
    case StepTranches(steps) => StepClaimable(s, now);
    case HybridCliffLinear(cliffTime, cliffAmount) => HybridClaimable(s, now);
  }
}
