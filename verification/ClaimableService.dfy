/** The backend's own computation of the claimable amount, and the cache in front
    of it, against the contract. */
module ClaimableServices {
  import opened Bounded
  import opened Results
  import opened StreamTypes
  import opened Vesting
  import opened Lifecycle
  import opened Lru
  import opened MemoryCaches
  import opened Texts

  /** A database row as the service reads it: amounts as integers of any size. */
  datatype StreamRow = StreamRow(
    streamId: nat,
    ratePerSecond: int,
    depositedAmount: int,
    withdrawnAmount: int,
    startTime: int,
    lastUpdateTime: int,
    isActive: bool,
    isPaused: bool,
    pausedAt: Option<int>,
    totalPausedDuration: int,
    updatedAt: Option<int>)

  datatype ClaimableValue = ClaimableValue(streamId: nat, amount: int, actionable: bool, calculatedAt: int)

  const BUCKET_SECONDS := 5

  function BucketOf(at: int): int {
    at / BUCKET_SECONDS * BUCKET_SECONDS
  }

  /** Buckets start at multiples of five seconds, before the epoch too. */
  lemma BucketIs(at: int, bucket: int)
    ensures bucket == BucketOf(at) <==> bucket % 5 == 0 && bucket <= at < bucket + 5
  {
  }

  function Flag(b: bool): string {
    if b then "1" else "0"
  }

  /** The fields of a cache key, in the order they are written. */
  function KeyParts(row: StreamRow, bucket: int): seq<string> {
    [DecimalOf(row.streamId), DecimalOf(row.ratePerSecond), DecimalOf(row.depositedAmount),
     DecimalOf(row.withdrawnAmount), DecimalOf(row.startTime), DecimalOf(row.lastUpdateTime), Flag(row.isActive),
     Flag(row.isPaused), if row.pausedAt.Some? then DecimalOf(row.pausedAt.value) else "null",
     DecimalOf(row.totalPausedDuration)]
    + (if row.updatedAt.Some? then [DecimalOf(row.updatedAt.value)] else [])
    + [DecimalOf(bucket)]
  }

  function KeyText(row: StreamRow, bucket: int): string {
    "claimable:" + Join(KeyParts(row, bucket))
  }

  lemma KeyPartsPlain(row: StreamRow, bucket: int)
    ensures forall k :: 0 <= k < |KeyParts(row, bucket)| ==> Plain(KeyParts(row, bucket)[k])
  {
    forall i: int ensures Plain(DecimalOf(i)) {
      DecimalIsPlain(i);
    }
  }

  lemma SameDecimals(i: int, j: int)
    ensures DecimalOf(i) == DecimalOf(j) ==> i == j
  {
    if DecimalOf(i) == DecimalOf(j) {
      DecimalOfInjective(i, j);
    }
  }

  lemma SameParts(row: StreamRow, bucket: int, other: StreamRow, bucket': int)
    requires KeyParts(row, bucket) == KeyParts(other, bucket')
    ensures row == other && bucket == bucket'
  {
    var p, q := KeyParts(row, bucket), KeyParts(other, bucket');
    forall i: int, j: int ensures DecimalOf(i) == DecimalOf(j) ==> i == j {
      SameDecimals(i, j);
    }
    assert p[0] == q[0] && p[1] == q[1] && p[2] == q[2] && p[3] == q[3] && p[4] == q[4] && p[5] == q[5];
    assert p[6] == q[6] && p[7] == q[7] && p[8] == q[8] && p[9] == q[9] && p[10] == q[10];
    assert p[|p| - 1] == q[|q| - 1];
    if row.pausedAt.Some? {
      DecimalIsPlain(row.pausedAt.value);
    }
    if other.pausedAt.Some? {
      DecimalIsPlain(other.pausedAt.value);
    }
    assert row.pausedAt == other.pausedAt;
    assert row.updatedAt == other.updatedAt;
  }

  /** Two rows and buckets never share a cache key. */
  lemma KeyTextInjective(row: StreamRow, bucket: int, other: StreamRow, bucket': int)
    requires KeyText(row, bucket) == KeyText(other, bucket')
    ensures row == other && bucket == bucket'
  {
    var p, q := KeyText(row, bucket), KeyText(other, bucket');
    assert Join(KeyParts(row, bucket)) == p[|"claimable:"|..];
    assert Join(KeyParts(other, bucket')) == q[|"claimable:"|..];
    KeyPartsPlain(row, bucket);
    KeyPartsPlain(other, bucket');
    JoinInjective(KeyParts(row, bucket), KeyParts(other, bucket'));
    SameParts(row, bucket, other, bucket');
  }

  /** Accrued seconds as the service counts them. */
  function MirrorElapsed(row: StreamRow, at: int): int {
    var anchor := Max(row.lastUpdateTime, 0);
    var now := Max(0, at);
    var elapsed := if now > anchor then now - anchor else 0;
    if row.isPaused && row.pausedAt.Some? then
      var pauseStart := Max(row.pausedAt.value, 0);
      if now > pauseStart then
        var pauseLength := now - pauseStart;
        if elapsed > pauseLength then elapsed - pauseLength else 0
      else elapsed
    else elapsed
  }

  function FreshAmount(row: StreamRow, at: int): int {
    var rate := ClampI128(row.ratePerSecond);
    var remaining := ClampI128(ClampI128(row.depositedAmount) - ClampI128(row.withdrawnAmount));
    var streamed := MirrorElapsed(row, at) * rate;
    var raw := if !FitsI128(streamed) || streamed > remaining then remaining else streamed;
    if row.isActive && raw > 0 then raw else 0
  }

  function FreshValue(row: StreamRow, at: int): ClaimableValue {
    ClaimableValue(row.streamId, FreshAmount(row, at), FreshAmount(row, at) > 0, at)
  }

  /** No answer is negative, nor more than the row has left, whatever is stored in it;
      an inactive row has nothing, and neither has one with no positive rate whose
      product can be computed. */
  lemma FreshValueIs(row: StreamRow, at: int)
    ensures var v := FreshValue(row, at);
            && v.streamId == row.streamId && v.calculatedAt == at && (v.actionable <==> v.amount > 0)
            && 0 <= v.amount <= Max(0, ClampI128(ClampI128(row.depositedAmount) - ClampI128(row.withdrawnAmount)))
            && (!row.isActive ==> v.amount == 0)
            && (row.ratePerSecond <= 0 && FitsI128(MirrorElapsed(row, at) * ClampI128(row.ratePerSecond)) ==>
                  v.amount == 0)
  {
    var rate: int := ClampI128(row.ratePerSecond);
    if rate <= 0 {
      ProductMonotone(0, MirrorElapsed(row, at), -rate);
    }
  }

  // ----- Agreement with the contract -----

  /** The row that repeats a contract record. */
  function RowOf(id: nat, s: Stream): StreamRow {
    StreamRow(id, s.ratePerSecond, s.deposited, s.withdrawn, s.startTime, s.lastUpdate, s.isActive, s.paused,
              match s.pausedAt case Some(t) => Some(t) case None => None, 0, None)
  }

  /** What the contract's read-only query answers for a stored record. */
  function ContractAnswer(s: Stream, now: u64): int {
    if s.isActive then Claimable(s, now) else 0
  }

  ghost function ContractElapsed(s: Stream, now: u64): int {
    SaturatingSubU64(EffectiveTime(s, now), s.lastUpdate)
  }

  /** Both count the same seconds unless the record claims to be paused without
      saying since when, or since a moment still to come. */
  lemma ElapsedAgreesIff(id: nat, s: Stream, now: u64)
    ensures MirrorElapsed(RowOf(id, s), now) == ContractElapsed(s, now)
       <==> (|| !s.paused
             || (match s.pausedAt
                 case None => now <= s.lastUpdate
                 case Some(since) => since <= now || since <= s.lastUpdate))
    ensures MirrorElapsed(RowOf(id, s), now) >= 0 && ContractElapsed(s, now) >= 0
  {
  }

  lemma AmountFromElapsed(id: nat, s: Stream, now: u64)
    requires s.schedule.Linear? && s.ratePerSecond >= 0 && s.isActive
    ensures FreshAmount(RowOf(id, s), now) == Min(MirrorElapsed(RowOf(id, s), now) * s.ratePerSecond, Remaining(s))
    ensures ContractAnswer(s, now) == Min(ContractElapsed(s, now) * s.ratePerSecond, Remaining(s))
  {
    ElapsedAgreesIff(id, s, now);
    ProductMonotone(0, MirrorElapsed(RowOf(id, s), now), s.ratePerSecond);
    ProductMonotone(0, ContractElapsed(s, now), s.ratePerSecond);
  }

  /** For every linear record with a non-negative rate, of any i128 amounts, asked
      about no earlier than the moment it was paused, the service computes exactly
      what the contract answers. */
  lemma MirrorAgrees(id: nat, s: Stream, now: u64)
    requires s.schedule.Linear? && s.ratePerSecond >= 0
    requires s.paused ==> s.pausedAt.Some? && s.pausedAt.value <= now
    ensures FreshAmount(RowOf(id, s), now) == ContractAnswer(s, now)
  {
    if s.isActive {
      ElapsedAgreesIff(id, s, now);
      AmountFromElapsed(id, s, now);
    }
  }

  /** A query the pause time of the record cannot mislead: the record is paused
      without saying since when, or since a moment still to come, only if what the
      service counts up to now, or the little that is left, hides the difference. */
  predicate PauseTimeHarmless(s: Stream, now: u64) {
    match s.pausedAt
    case None => now <= s.lastUpdate || Remaining(s) == 0
    case Some(since) =>
      since <= now || since <= s.lastUpdate || Max(0, now - s.lastUpdate) * s.ratePerSecond >= Remaining(s)
  }

  /** Exactly when the two agree, for every linear record and every time. */
  lemma MirrorAgreesIff(id: nat, s: Stream, now: u64)
    requires s.schedule.Linear? && s.ratePerSecond >= 0
    ensures FreshAmount(RowOf(id, s), now) == ContractAnswer(s, now)
       <==> !s.isActive || !s.paused || s.ratePerSecond == 0 || PauseTimeHarmless(s, now)
  {
    ElapsedAgreesIff(id, s, now);
    if s.isActive {
      AmountFromElapsed(id, s, now);
      var m, c := MirrorElapsed(RowOf(id, s), now), ContractElapsed(s, now);
      if m < c {
        StrictProduct(m, c, s.ratePerSecond);
        assert m == Max(0, now - s.lastUpdate);
      } else if c < m {
        StrictProduct(c, m, s.ratePerSecond);
        assert c == 0 && s.pausedAt == None;
      }
    }
  }

  lemma StrictProduct(a: int, b: int, r: int)
    requires a < b && 0 <= r
    ensures a * r <= b * r && (0 < r ==> a * r < b * r)
  {
  }

  /** The reachable records are all on the agreeing side. */
  lemma MirrorAgreesOnReachable(id: nat, s: Stream, now: u64)
    requires WellFormed(s, now) && s.schedule.Linear?
    ensures FreshAmount(RowOf(id, s), now) == ContractAnswer(s, now)
  {
    MirrorAgrees(id, s, now);
  }

  /** A record paused with no moment given, which no call leaves behind: the
      contract counts nothing, the service counts to the present. */
  lemma MirrorDiffersWithoutPauseTime()
    ensures var s := Stream(1, 2, 3, 10, 1000, 0, 0, 0, true, true, None, Paused, Linear);
            FreshAmount(RowOf(1, s), 7) == 70 && ContractAnswer(s, 7) == 0
  {
  }

  // ----- The cached answer -----

  lemma ElapsedDrift(row: StreamRow, at: int, later: int)
    requires at <= later
    ensures 0 <= MirrorElapsed(row, at) <= MirrorElapsed(row, later) <= MirrorElapsed(row, at) + (later - at)
  {
  }

  /** The balance the service sees, saturated as it does. */
  ghost function LeftOf(row: StreamRow): int {
    ClampI128(ClampI128(row.depositedAmount) - ClampI128(row.withdrawnAmount))
  }

  lemma AmountFromSeconds(row: StreamRow, at: int)
    requires 0 <= row.ratePerSecond && row.isActive
    ensures FreshAmount(row, at) == Max(0, Min(MirrorElapsed(row, at) * ClampI128(row.ratePerSecond), LeftOf(row)))
  {
    ElapsedDrift(row, at, at);
    ProductMonotone(0, MirrorElapsed(row, at), ClampI128(row.ratePerSecond));
  }

  /** With time the fresh answer only grows, and by at most the rate times the
      seconds gone by. */
  lemma AmountDrift(row: StreamRow, at: int, later: int, seconds: int)
    requires at <= later <= at + seconds && 0 <= row.ratePerSecond
    ensures FreshAmount(row, at) <= FreshAmount(row, later)
         <= FreshAmount(row, at) + seconds * ClampI128(row.ratePerSecond)
  {
    ElapsedDrift(row, at, later);
    SecondsDrift(MirrorElapsed(row, at), MirrorElapsed(row, later), seconds, ClampI128(row.ratePerSecond));
    if row.isActive {
      AmountFromSeconds(row, at);
      AmountFromSeconds(row, later);
      var rate := ClampI128(row.ratePerSecond);
      CapDrift(MirrorElapsed(row, at) * rate, MirrorElapsed(row, later) * rate, LeftOf(row), seconds * rate);
    }
  }

  lemma SecondsDrift(a: int, b: int, seconds: int, rate: int)
    requires a <= b <= a + seconds && 0 <= rate
    ensures a * rate <= b * rate <= a * rate + seconds * rate && 0 <= seconds * rate
  {
    ProductMonotone(a, b, rate);
    ProductMonotone(b, a + seconds, rate);
    ProductMonotone(0, seconds, rate);
    Distribute(rate, a, seconds);
  }

  lemma CapDrift(x: int, y: int, cap: int, d: int)
    requires x <= y <= x + d && 0 <= d
    ensures Max(0, Min(x, cap)) <= Max(0, Min(y, cap)) <= Max(0, Min(x, cap)) + d
  {
  }

  /** The value answers for whatever row and bucket the key text stands for. */
  ghost predicate Apt(key: string, value: ClaimableValue) {
    forall row: StreamRow, bucket: int :: KeyText(row, bucket) == key ==>
      value == FreshValue(row, value.calculatedAt) && BucketOf(value.calculatedAt) == bucket
  }

  lemma OwnValueIsApt(row: StreamRow, at: int)
    ensures Apt(KeyText(row, BucketOf(at)), FreshValue(row, at))
  {
    forall other: StreamRow, bucket: int | KeyText(other, bucket) == KeyText(row, BucketOf(at))
      ensures FreshValue(row, at) == FreshValue(other, at) && BucketOf(at) == bucket
    {
      KeyTextInjective(other, bucket, row, BucketOf(at));
    }
  }

  /** Every cached value was computed for its own key's row, in its key's bucket. */
  ghost predicate Sound(es: seq<Entry<string, ClaimableValue>>) {
    forall x :: x in es ==> Apt(x.key, x.item.value)
  }

  /** No cache operation other than a set can put an unsound entry in. */
  lemma SoundKept(es: seq<Entry<string, ClaimableValue>>, op: Op<string, ClaimableValue>, maxItems: int)
    requires Sound(es) && Distinct(es)
    requires op.Set? ==> Apt(op.key, op.value)
    ensures Sound(Apply(es, op, maxItems))
  {
    match op
    case Cleanup(at) => UnexpiredFilters(es, at);
    case Del(key) => WithoutFilters(es, key);
    case Set(key, _, _, _) => WithoutFilters(es, key);
    case Get(key, at) =>
      WithoutFilters(es, key);
      LookupFinds(es, key);
    case GetMetadata(key, at) =>
      WithoutFilters(es, key);
      LookupFinds(es, key);
  }

  /** Two moments of one bucket are at most four seconds apart. */
  lemma SameBucketDrift(row: StreamRow, at: int, later: int)
    requires BucketOf(at) == BucketOf(later) && 0 <= row.ratePerSecond
    ensures var d := FreshAmount(row, at) - FreshAmount(row, later);
            -4 * ClampI128(row.ratePerSecond) <= d <= 4 * ClampI128(row.ratePerSecond)
  {
    if at <= later {
      AmountDrift(row, at, later, 4);
    } else {
      AmountDrift(row, later, at, 4);
    }
  }

  function CreationTime<V>(found: Option<Item<V>>): Option<int> {
    match found
    case Some(item) => Some(item.createdAt)
    case None => None
  }

  class ClaimableAmountService {
    const cache: MemoryCache<string, ClaimableValue>
    const cacheTtlMs: int

    constructor (cache: MemoryCache<string, ClaimableValue>, ttlMs: int)
      ensures this.cache == cache && cacheTtlMs == Max(0, ttlMs)
    {
      this.cache := cache;
      this.cacheTtlMs := Max(0, ttlMs);
    }

    /** The accrual arithmetic of a miss. */
    method ComputeAmount(row: StreamRow, at: int) returns (actionable: int)
      ensures actionable == FreshAmount(row, at)
    {
      var anchorTime := Max(row.lastUpdateTime, 0);
      var nowTs := Max(0, at);
      var elapsed := if nowTs > anchorTime then nowTs - anchorTime else 0;
      if row.isPaused && row.pausedAt.Some? {
        var pauseStart := Max(row.pausedAt.value, 0);
        if nowTs > pauseStart {
          var pauseLength := nowTs - pauseStart;
          elapsed := if elapsed > pauseLength then elapsed - pauseLength else 0;
        }
      }
      var rate := ClampI128(row.ratePerSecond);
      var remaining := ClampI128(ClampI128(row.depositedAmount) - ClampI128(row.withdrawnAmount));
      var streamed := elapsed * rate;
      var raw := if !FitsI128(streamed) || streamed > remaining then remaining else streamed;
      actionable := if row.isActive && raw > 0 then raw else 0;
    }

    /** Answers for the moment `at`; `clock1`, `clock2` are the readings the cache
        takes on the way. A miss answers with the fresh value and stores it; a hit
        answers with a stored value at most four seconds' rate away from it. */
    method GetClaimableAmount(row: StreamRow, at: int, clock1: int, clock2: int)
      returns (value: ClaimableValue, cached: bool, cachedAt: Option<int>)
      requires cache.Valid() && Sound(cache.cache)
      modifies cache
      ensures cache.Valid() && Sound(cache.cache)
      ensures cached == Touch(old(cache.cache), KeyText(row, BucketOf(at)), clock1).1.Some?
      ensures !cached ==> value == FreshValue(row, at)
      ensures cached ==> BucketOf(value.calculatedAt) == BucketOf(at) && value == FreshValue(row, value.calculatedAt)
      ensures value.streamId == row.streamId
      ensures 0 <= row.ratePerSecond ==>
                var d := value.amount - FreshAmount(row, at);
                -4 * ClampI128(row.ratePerSecond) <= d <= 4 * ClampI128(row.ratePerSecond)
      ensures cached ==> cache.cache == Touch(Touch(old(cache.cache), KeyText(row, BucketOf(at)), clock1).0,
                                              KeyText(row, BucketOf(at)), clock2).0
      ensures cached ==> cachedAt == CreationTime(Touch(Touch(old(cache.cache), KeyText(row, BucketOf(at)), clock1).0,
                                                        KeyText(row, BucketOf(at)), clock2).1)
      ensures cached ==> value == Touch(old(cache.cache), KeyText(row, BucketOf(at)), clock1).1.value.value
      ensures !cached ==> cachedAt == None
      ensures !cached ==> cache.cache == Put(Touch(old(cache.cache), KeyText(row, BucketOf(at)), clock1).0,
                                      KeyText(row, BucketOf(at)), value, clock2, cacheTtlMs, cache.maxItems)
    {
      var key := KeyText(row, BucketOf(at));
      SoundKept(cache.cache, Op.Get(key, clock1), cache.maxItems);
      LookupFinds(cache.cache, key);
      var found := cache.Get(key, clock1);
      if found.Some? {
        value := found.value;
        if 0 <= row.ratePerSecond {
          SameBucketDrift(row, value.calculatedAt, at);
        }
        SoundKept(cache.cache, Op.GetMetadata(key, clock2), cache.maxItems);
        var metadata := cache.GetMetadata(key, clock2);
        return value, true, if metadata.Some? then Some(metadata.value.0) else None;
      }
      var actionable := ComputeAmount(row, at);
      value := ClaimableValue(row.streamId, actionable, actionable > 0, at);
      OwnValueIsApt(row, at);
      SoundKept(cache.cache, Op.Set(key, value, cacheTtlMs, clock2), cache.maxItems);
      cache.Set(key, value, cacheTtlMs, clock2);
      return value, false, None;
    }
  }
}
