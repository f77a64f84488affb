/** Circuit breakers over a pool of RPC endpoints, as values: how one endpoint's
    record changes, which endpoints a call tries and in what order. */
module Circuit {
  import opened Results
  import opened Bounded

  datatype CircuitState = CLOSED | OPEN | HALF_OPEN

  datatype Health = Health(failures: nat, latencyMs: Option<int>, state: CircuitState, openedAt: Option<int>)

  /** How trying an endpoint turns out. */
  datatype Attempt = Answered(latencyMs: int) | Refused(latencyMs: int, at: int)

  const FRESH := Health(0, None, CLOSED, None)

  function Succeeded(h: Health, latencyMs: int): Health {
    Health(0, Some(latencyMs), CLOSED, None)
  }

  function Failed(h: Health, threshold: int, latencyMs: int, at: int): Health {
    var counted := h.(failures := h.failures + 1, latencyMs := Some(latencyMs));
    if counted.failures >= threshold then counted.(state := OPEN, openedAt := Some(at)) else counted
  }

  function Recorded(h: Health, threshold: int, attempt: Attempt): Health {
    match attempt
    case Answered(latency) => Succeeded(h, latency)
    case Refused(latency, at) => Failed(h, threshold, latency, at)
  }

  /** An open circuit whose cooldown is over is offered for one trial. */
  function Offered(h: Health, now: int, cooldownMs: int): bool {
    h.state != OPEN || (h.openedAt.Some? && now - h.openedAt.value >= cooldownMs)
  }

  function Prepared(h: Health, now: int, cooldownMs: int): Health {
    if h.state == OPEN && Offered(h, now, cooldownMs) then h.(state := HALF_OPEN) else h
  }

  function PreparedAll(hs: seq<Health>, now: int, cooldownMs: int): (r: seq<Health>)
    ensures |r| == |hs|
  {
    seq(|hs|, i requires 0 <= i < |hs| => Prepared(hs[i], now, cooldownMs))
  }

  /** Indices of the endpoints on offer, in pool order. */
  function OfferedUpTo(hs: seq<Health>, now: int, cooldownMs: int, n: nat): (r: seq<nat>)
    requires n <= |hs|
    ensures forall i :: 0 <= i < |r| ==> r[i] < n
  {
    if n == 0 then []
    else
      var front := OfferedUpTo(hs, now, cooldownMs, n - 1);
      if Offered(hs[n - 1], now, cooldownMs) then front + [n - 1] else front
  }

  /** Fewer failures first, then lower latency; an unmeasured latency counts as
      infinite. */
  predicate Before(a: Health, b: Health) {
    a.failures < b.failures
    || (a.failures == b.failures && a.latencyMs.Some? && (b.latencyMs.None? || a.latencyMs.value < b.latencyMs.value))
  }

  function Insert(order: seq<nat>, hs: seq<Health>, x: nat): seq<nat>
    requires x < |hs| && forall i :: 0 <= i < |order| ==> order[i] < |hs|
  {
    if order == [] then [x]
    else if Before(hs[x], hs[order[|order| - 1]]) then Insert(order[..|order| - 1], hs, x) + [order[|order| - 1]]
    else order + [x]
  }

  /** The stable sort of the offered endpoints. */
  function Ranked(order: seq<nat>, hs: seq<Health>): (r: seq<nat>)
    requires forall i :: 0 <= i < |order| ==> order[i] < |hs|
    ensures forall i :: 0 <= i < |r| ==> r[i] < |hs|
  {
    if order == [] then []
    else
      var front := Ranked(order[..|order| - 1], hs);
      InsertStaysInside(front, hs, order[|order| - 1]);
      Insert(front, hs, order[|order| - 1])
  }

  lemma {:induction false} InsertStaysInside(order: seq<nat>, hs: seq<Health>, x: nat)
    requires x < |hs| && forall i :: 0 <= i < |order| ==> order[i] < |hs|
    ensures multiset(Insert(order, hs, x)) == multiset(order) + multiset{x}
    ensures forall i :: 0 <= i < |Insert(order, hs, x)| ==> Insert(order, hs, x)[i] < |hs|
  {
    if order != [] && Before(hs[x], hs[order[|order| - 1]]) {
      InsertStaysInside(order[..|order| - 1], hs, x);
      assert order == order[..|order| - 1] + [order[|order| - 1]];
    }
  }

  ghost predicate InOrder(order: seq<nat>, hs: seq<Health>) {
    && (forall i :: 0 <= i < |order| ==> order[i] < |hs|)
    && forall i, j :: 0 <= i < j < |order| ==> !Before(hs[order[j]], hs[order[i]])
  }

  lemma {:induction false} InsertKeepsOrder(order: seq<nat>, hs: seq<Health>, x: nat)
    requires InOrder(order, hs) && x < |hs|
    ensures InOrder(Insert(order, hs, x), hs)
  {
    InsertStaysInside(order, hs, x);
    if order != [] && Before(hs[x], hs[order[|order| - 1]]) {
      var front, last := order[..|order| - 1], order[|order| - 1];
      InsertKeepsOrder(front, hs, x);
      InsertStaysInside(front, hs, x);
      var r := Insert(front, hs, x);
      forall i | 0 <= i < |r| ensures !Before(hs[last], hs[r[i]]) {
        assert r[i] in multiset(r);
        assert r[i] == x || r[i] in multiset(front);
        if r[i] != x {
          var k :| 0 <= k < |front| && front[k] == r[i];
          assert order[k] == r[i];
        }
      }
    } else if order != [] {
      forall i | 0 <= i < |order| ensures !Before(hs[x], hs[order[i]]) {
      }
    }
  }

  /** The ranking keeps exactly the offered endpoints and puts them in order. */
  lemma {:induction false} RankedSorts(order: seq<nat>, hs: seq<Health>)
    requires forall i :: 0 <= i < |order| ==> order[i] < |hs|
    ensures InOrder(Ranked(order, hs), hs) && multiset(Ranked(order, hs)) == multiset(order)
  {
    if order != [] {
      var front, last := order[..|order| - 1], order[|order| - 1];
      RankedSorts(front, hs);
      InsertKeepsOrder(Ranked(front, hs), hs, last);
      InsertStaysInside(Ranked(front, hs), hs, last);
      assert order == front + [last];
    }
  }

  lemma {:induction false} OfferedExactly(hs: seq<Health>, now: int, cooldownMs: int, n: nat)
    requires n <= |hs|
    ensures var o := OfferedUpTo(hs, now, cooldownMs, n);
            && (forall i :: 0 <= i < |o| ==> o[i] < n && Offered(hs[o[i]], now, cooldownMs))
            && (forall k :: 0 <= k < n && Offered(hs[k], now, cooldownMs) ==> k in o)
            && (forall i, j :: 0 <= i < j < |o| ==> o[i] < o[j])
  {
    if n > 0 {
      var o, front := OfferedUpTo(hs, now, cooldownMs, n), OfferedUpTo(hs, now, cooldownMs, n - 1);
      OfferedExactly(hs, now, cooldownMs, n - 1);
      assert o == if Offered(hs[n - 1], now, cooldownMs) then front + [n - 1] else front;
      forall k | 0 <= k < n && Offered(hs[k], now, cooldownMs) ensures k in o {
        if k == n - 1 {
          assert o[|front|] == k;
        } else {
          assert k in front;
        }
      }
    }
  }

  // ----- One call over the pool -----

  datatype CallResult = Served(winner: nat) | AllFailed

  datatype Outcome = Outcome(hs: seq<Health>, called: seq<nat>, result: CallResult)

  /** Tries the endpoints in turn until one answers. */
  function TryInTurn(hs: seq<Health>, order: seq<nat>, attempts: seq<Attempt>, threshold: int): (r: Outcome)
    requires |attempts| == |hs| && forall i :: 0 <= i < |order| ==> order[i] < |hs|
    ensures |r.hs| == |hs|
    decreases |order|
  {
    if order == [] then Outcome(hs, [], AllFailed)
    else
      var x := order[0];
      var after := hs[x := Recorded(hs[x], threshold, attempts[x])];
      if attempts[x].Answered? then Outcome(after, [x], Served(x))
      else
        var rest := TryInTurn(after, order[1..], attempts, threshold);
        Outcome(rest.hs, [x] + rest.called, rest.result)
  }

  /** The ranking of a pool for one call. */
  function OrderFor(hs: seq<Health>, now: int, cooldownMs: int): (r: seq<nat>)
    ensures forall i :: 0 <= i < |r| ==> r[i] < |hs|
  {
    Ranked(OfferedUpTo(hs, now, cooldownMs, |hs|), PreparedAll(hs, now, cooldownMs))
  }

  /** A whole call: offer, rank, try. */
  function Execute(hs: seq<Health>, now: int, attempts: seq<Attempt>, threshold: int, cooldownMs: int): Outcome
    requires |attempts| == |hs|
  {
    TryInTurn(PreparedAll(hs, now, cooldownMs), OrderFor(hs, now, cooldownMs), attempts, threshold)
  }

  /** A probe asks every endpoint, cooling down or not. */
  function Probe(hs: seq<Health>, attempts: seq<Attempt>, threshold: int): seq<Health>
    requires |attempts| == |hs|
  {
    seq(|hs|, i requires 0 <= i < |hs| => Recorded(hs[i], threshold, attempts[i]))
  }

  ghost predicate NoRepeats(order: seq<nat>) {
    forall i, j :: 0 <= i < j < |order| ==> order[i] != order[j]
  }

  /** The record of endpoint k after the endpoints in `called` were tried. */
  ghost function AfterTrying(h: Health, k: nat, called: seq<nat>, attempts: seq<Attempt>, threshold: int): Health
    requires k < |attempts|
  {
    if k in called then Recorded(h, threshold, attempts[k]) else h
  }

  /** Which endpoints are tried, and with what result, is a matter of the answers. */
  lemma {:induction false} TriedUntilAnswer(hs: seq<Health>, order: seq<nat>, attempts: seq<Attempt>, threshold: int)
    requires |attempts| == |hs| && forall i :: 0 <= i < |order| ==> order[i] < |hs|
    ensures var o := TryInTurn(hs, order, attempts, threshold);
            && |o.called| <= |order| && o.called == order[..|o.called|]
            && (o.result == AllFailed <==> forall i :: 0 <= i < |order| ==> attempts[order[i]].Refused?)
            && (o.result == AllFailed ==> o.called == order)
            && (o.result.Served? ==> && o.called != [] && o.result.winner == o.called[|o.called| - 1]
                                     && attempts[o.result.winner].Answered?)
    decreases |order|
  {
    if order != [] && attempts[order[0]].Refused? {
      var x, tail := order[0], order[1..];
      var after := hs[x := Recorded(hs[x], threshold, attempts[x])];
      TriedUntilAnswer(after, tail, attempts, threshold);
      assert forall i :: 0 <= i < |order| ==> order[i] == if i == 0 then x else tail[i - 1];
      assert forall i :: 0 <= i < |tail| ==> tail[i] == order[i + 1];
    }
  }

  /** Each endpoint tried is recorded once; the others are left alone. */
  lemma {:induction false} TriedAreRecorded(hs: seq<Health>, order: seq<nat>, attempts: seq<Attempt>, threshold: int,
                                            k: nat)
    requires |attempts| == |hs| && NoRepeats(order) && forall i :: 0 <= i < |order| ==> order[i] < |hs|
    requires k < |hs|
    ensures var o := TryInTurn(hs, order, attempts, threshold);
            |o.hs| == |hs| && o.hs[k] == AfterTrying(hs[k], k, o.called, attempts, threshold)
    decreases |order|
  {
    if order != [] && attempts[order[0]].Refused? {
      var x, tail := order[0], order[1..];
      var after := hs[x := Recorded(hs[x], threshold, attempts[x])];
      TriedAreRecorded(after, tail, attempts, threshold, k);
      TriedUntilAnswer(after, tail, attempts, threshold);
      var rest := TryInTurn(after, tail, attempts, threshold);
      assert forall i :: 0 <= i < |rest.called| ==> rest.called[i] == order[1 + i];
      assert x !in rest.called;
    }
  }

  lemma UniqueFromCounts(order: seq<nat>, sorted: seq<nat>)
    requires multiset(order) == multiset(sorted) && NoRepeats(order)
    ensures NoRepeats(sorted)
  {
    forall i, j | 0 <= i < j < |sorted| ensures sorted[i] != sorted[j] {
      if sorted[i] == sorted[j] {
        assert sorted == sorted[..i] + [sorted[i]] + sorted[i + 1..j] + [sorted[j]] + sorted[j + 1..];
        assert multiset(sorted)[sorted[i]] >= 2;
        SingleCount(order, sorted[i]);
      }
    }
  }

  lemma {:induction false} SingleCount(order: seq<nat>, x: nat)
    requires NoRepeats(order)
    ensures multiset(order)[x] <= 1
  {
    if order != [] {
      assert order == [order[0]] + order[1..];
      SingleCount(order[1..], x);
      if order[0] == x {
        assert x !in order[1..];
      }
    }
  }

  /** It lists exactly the endpoints not cooling down, each once, best first. */
  lemma OrderForIsRight(hs: seq<Health>, now: int, cooldownMs: int)
    ensures var order := OrderFor(hs, now, cooldownMs);
            && NoRepeats(order) && InOrder(order, PreparedAll(hs, now, cooldownMs))
            && forall k: nat :: k < |hs| ==> (k in order <==> Offered(hs[k], now, cooldownMs))
  {
    var prepared, offered := PreparedAll(hs, now, cooldownMs), OfferedUpTo(hs, now, cooldownMs, |hs|);
    var order := Ranked(offered, prepared);
    OfferedExactly(hs, now, cooldownMs, |hs|);
    RankedSorts(offered, prepared);
    UniqueFromCounts(offered, order);
    forall k: nat | k < |hs| ensures k in order <==> Offered(hs[k], now, cooldownMs) {
      assert k in multiset(order) <==> k in multiset(offered);
    }
  }

  /** The order in its own figures: fewer failures first, then the shorter latency, one
      not yet measured last; between equals, the place in the pool. */
  ghost predicate Precedes(hs: seq<Health>, x: nat, y: nat)
    requires x < |hs| && y < |hs|
  {
    var a, b := hs[x], hs[y];
    || a.failures < b.failures
    || (a.failures == b.failures && a.latencyMs.Some?
        && (b.latencyMs.None? || a.latencyMs.value < b.latencyMs.value))
    || (a.failures == b.failures && a.latencyMs == b.latencyMs && x < y)
  }

  ghost predicate RankedFully(order: seq<nat>, hs: seq<Health>) {
    && (forall i :: 0 <= i < |order| ==> order[i] < |hs|)
    && forall i, j :: 0 <= i < j < |order| ==> Precedes(hs, order[i], order[j])
  }

  lemma {:induction false} InsertRanksFully(order: seq<nat>, hs: seq<Health>, x: nat)
    requires RankedFully(order, hs) && x < |hs| && forall i :: 0 <= i < |order| ==> order[i] < x
    ensures RankedFully(Insert(order, hs, x), hs)
  {
    InsertStaysInside(order, hs, x);
    if order != [] && Before(hs[x], hs[order[|order| - 1]]) {
      var front, last := order[..|order| - 1], order[|order| - 1];
      InsertRanksFully(front, hs, x);
      InsertStaysInside(front, hs, x);
      var r := Insert(front, hs, x);
      forall i | 0 <= i < |r| ensures Precedes(hs, r[i], last) {
        assert r[i] in multiset(r);
        if r[i] != x {
          assert r[i] in multiset(front);
          var k :| 0 <= k < |front| && front[k] == r[i];
          assert order[k] == r[i];
        }
      }
    } else if order != [] {
      LastComesBefore(order, hs, x);
    }
  }

  lemma LastComesBefore(order: seq<nat>, hs: seq<Health>, x: nat)
    requires RankedFully(order, hs) && x < |hs| && order != [] && forall i :: 0 <= i < |order| ==> order[i] < x
    requires !Before(hs[x], hs[order[|order| - 1]])
    ensures forall i :: 0 <= i < |order| ==> Precedes(hs, order[i], x)
  {
    var last := order[|order| - 1];
    forall i | 0 <= i < |order| ensures Precedes(hs, order[i], x) {
      if i < |order| - 1 {
        assert Precedes(hs, order[i], last);
      }
    }
  }

  lemma {:induction false} RanksFully(order: seq<nat>, hs: seq<Health>)
    requires forall i :: 0 <= i < |order| ==> order[i] < |hs|
    requires forall i, j :: 0 <= i < j < |order| ==> order[i] < order[j]
    ensures RankedFully(Ranked(order, hs), hs)
  {
    if order != [] {
      var front, last := order[..|order| - 1], order[|order| - 1];
      RanksFully(front, hs);
      RankedSorts(front, hs);
      forall i | 0 <= i < |Ranked(front, hs)| ensures Ranked(front, hs)[i] < last {
        assert Ranked(front, hs)[i] in multiset(front);
      }
      InsertRanksFully(Ranked(front, hs), hs, last);
    }
  }

  /** What a call has on offer, and in what order, in the records' own figures: every
      endpoint but those open for less than the cooldown. */
  lemma OfferInFigures(hs: seq<Health>, now: int, cooldownMs: int, k: nat)
    requires k < |hs|
    ensures k in OrderFor(hs, now, cooldownMs)
       <==> hs[k].state != OPEN || (hs[k].openedAt.Some? && now - hs[k].openedAt.value >= cooldownMs)
    ensures RankedFully(OrderFor(hs, now, cooldownMs), hs)
  {
    var offered, prepared := OfferedUpTo(hs, now, cooldownMs, |hs|), PreparedAll(hs, now, cooldownMs);
    OrderForIsRight(hs, now, cooldownMs);
    OfferedExactly(hs, now, cooldownMs, |hs|);
    RanksFully(offered, prepared);
    var order := OrderFor(hs, now, cooldownMs);
    forall i, j | 0 <= i < j < |order| ensures Precedes(hs, order[i], order[j]) {
      assert Precedes(prepared, order[i], order[j]);
    }
  }

  /** What OrderForIsRight says of an order. */
  ghost predicate ListsOffered(order: seq<nat>, hs: seq<Health>, now: int, cooldownMs: int) {
    && (forall i :: 0 <= i < |order| ==> order[i] < |hs|)
    && forall k: nat :: k < |hs| ==> (k in order <==> Offered(hs[k], now, cooldownMs))
  }

  lemma PrefixOfOrder(order: seq<nat>, m: nat, hs: seq<Health>, prepared: seq<Health>, now: int, cooldownMs: int)
    requires m <= |order| && NoRepeats(order) && InOrder(order, prepared) && ListsOffered(order, hs, now, cooldownMs)
    ensures NoRepeats(order[..m]) && InOrder(order[..m], prepared)
    ensures forall i :: 0 <= i < m ==> order[..m][i] < |hs| && Offered(hs[order[..m][i]], now, cooldownMs)
  {
    forall i | 0 <= i < m ensures order[..m][i] < |hs| && Offered(hs[order[..m][i]], now, cooldownMs) {
      assert order[..m][i] == order[i] && order[i] in order;
    }
  }

  lemma AllOfferedRefuse(order: seq<nat>, hs: seq<Health>, attempts: seq<Attempt>, now: int, cooldownMs: int)
    requires |attempts| == |hs| && ListsOffered(order, hs, now, cooldownMs)
    ensures (forall i :: 0 <= i < |order| ==> attempts[order[i]].Refused?)
       <==> (forall k :: 0 <= k < |hs| && Offered(hs[k], now, cooldownMs) ==> attempts[k].Refused?)
  {
    if forall i :: 0 <= i < |order| ==> attempts[order[i]].Refused? {
      forall k | 0 <= k < |hs| && Offered(hs[k], now, cooldownMs) ensures attempts[k].Refused? {
        assert k in order;
      }
    } else {
      var i :| 0 <= i < |order| && !attempts[order[i]].Refused?;
      assert order[i] in order;
    }
  }

  /** A call tries each endpoint at most once, only endpoints that are not cooling
      down, the best ranked first; it stops at the first that answers, and fails if
      and only if every endpoint on offer refused. Endpoints not tried keep their
      record but for the half-opening. */
  lemma ExecuteGuarantees(hs: seq<Health>, now: int, attempts: seq<Attempt>, threshold: int, cooldownMs: int)
    requires |attempts| == |hs|
    ensures var o := Execute(hs, now, attempts, threshold, cooldownMs);
            && NoRepeats(o.called)
            && (forall i :: 0 <= i < |o.called| ==> o.called[i] < |hs| && Offered(hs[o.called[i]], now, cooldownMs))
            && InOrder(o.called, PreparedAll(hs, now, cooldownMs))
            && (o.result == AllFailed <==>
                  forall k :: 0 <= k < |hs| && Offered(hs[k], now, cooldownMs) ==> attempts[k].Refused?)
            && (o.result.Served? ==> o.called != [] && o.result.winner == o.called[|o.called| - 1]
                                     && attempts[o.result.winner].Answered?)
  {
    var prepared, order := PreparedAll(hs, now, cooldownMs), OrderFor(hs, now, cooldownMs);
    OrderForIsRight(hs, now, cooldownMs);
    TriedUntilAnswer(prepared, order, attempts, threshold);
    PrefixOfOrder(order, |Execute(hs, now, attempts, threshold, cooldownMs).called|, hs, prepared, now, cooldownMs);
    AllOfferedRefuse(order, hs, attempts, now, cooldownMs);
  }

  /** Each endpoint tried has its attempt recorded; the others change only by being
      half-opened. */
  lemma ExecuteRecords(hs: seq<Health>, now: int, attempts: seq<Attempt>, threshold: int, cooldownMs: int, k: nat)
    requires |attempts| == |hs| && k < |hs|
    ensures var o := Execute(hs, now, attempts, threshold, cooldownMs);
            |o.hs| == |hs| && o.hs[k] == AfterTrying(Prepared(hs[k], now, cooldownMs), k, o.called, attempts, threshold)
  {
    OrderForIsRight(hs, now, cooldownMs);
    TriedAreRecorded(PreparedAll(hs, now, cooldownMs), OrderFor(hs, now, cooldownMs), attempts, threshold, k);
  }

  // ----- Over every run -----

  /** Closed exactly below the threshold, and dated exactly otherwise. */
  ghost predicate Consistent(h: Health, threshold: int) {
    && (h.state == CLOSED <==> h.failures < threshold)
    && (h.state == CLOSED <==> h.openedAt == None)
  }

  ghost predicate AllConsistent(hs: seq<Health>, threshold: int) {
    forall i :: 0 <= i < |hs| ==> Consistent(hs[i], threshold)
  }

  lemma RecordKeepsConsistent(h: Health, threshold: int, attempt: Attempt)
    requires Consistent(h, threshold) && 1 <= threshold
    ensures Consistent(Recorded(h, threshold, attempt), threshold)
    ensures h.state == HALF_OPEN && attempt.Refused? ==>
              && Recorded(h, threshold, attempt).state == OPEN
              && Recorded(h, threshold, attempt).openedAt == Some(attempt.at)
    ensures attempt.Answered? ==> Recorded(h, threshold, attempt).state == CLOSED
  {
  }

  datatype Event = Called(now: int, attempts: seq<Attempt>) | Probed(attempts: seq<Attempt>)

  function Step(hs: seq<Health>, e: Event, threshold: int, cooldownMs: int): seq<Health> {
    if |e.attempts| != |hs| then hs
    else match e
      case Called(now, attempts) => Execute(hs, now, attempts, threshold, cooldownMs).hs
      case Probed(attempts) => Probe(hs, attempts, threshold)
  }

  function RunAll(hs: seq<Health>, events: seq<Event>, threshold: int, cooldownMs: int): seq<Health> {
    if events == [] then hs
    else Step(RunAll(hs, events[..|events| - 1], threshold, cooldownMs), events[|events| - 1], threshold, cooldownMs)
  }

  lemma StepKeepsConsistent(hs: seq<Health>, e: Event, threshold: int, cooldownMs: int)
    requires AllConsistent(hs, threshold) && 1 <= threshold
    ensures AllConsistent(Step(hs, e, threshold, cooldownMs), threshold)
    ensures |Step(hs, e, threshold, cooldownMs)| == |hs|
  {
    if |e.attempts| == |hs| {
      var after := Step(hs, e, threshold, cooldownMs);
      forall k | 0 <= k < |hs| ensures |after| == |hs| && Consistent(after[k], threshold) {
        RecordKeepsConsistent(hs[k], threshold, e.attempts[k]);
        if e.Called? {
          ExecuteRecords(hs, e.now, e.attempts, threshold, cooldownMs, k);
          RecordKeepsConsistent(Prepared(hs[k], e.now, cooldownMs), threshold, e.attempts[k]);
        }
      }
    }
  }

  /** In every run of calls and probes from a fresh pool, a circuit is closed
      exactly when its failure count is below the threshold, and an open or
      half-open one always knows when it opened. */
  lemma {:induction false} ConsistentOverEveryRun(n: nat, events: seq<Event>, threshold: int, cooldownMs: int)
    requires 1 <= threshold
    ensures var hs := RunAll(seq(n, _ => FRESH), events, threshold, cooldownMs);
            |hs| == n && AllConsistent(hs, threshold)
    decreases |events|
  {
    if events != [] {
      ConsistentOverEveryRun(n, events[..|events| - 1], threshold, cooldownMs);
      StepKeepsConsistent(RunAll(seq(n, _ => FRESH), events[..|events| - 1], threshold, cooldownMs),
                          events[|events| - 1], threshold, cooldownMs);
    }
  }

  /** Calls made too soon after the circuit opened leave it alone. */
  lemma EarlyCallSkips(hs: seq<Health>, now: int, attempts: seq<Attempt>, threshold: int, cooldownMs: int, k: nat)
    requires |attempts| == |hs| && k < |hs| && !Offered(hs[k], now, cooldownMs)
    ensures var o := Execute(hs, now, attempts, threshold, cooldownMs);
            |o.hs| == |hs| && k !in o.called && o.hs[k] == hs[k]
  {
    ExecuteGuarantees(hs, now, attempts, threshold, cooldownMs);
    ExecuteRecords(hs, now, attempts, threshold, cooldownMs, k);
  }

  ghost predicate CallsBefore(events: seq<Event>, moment: int) {
    forall i :: 0 <= i < |events| ==> events[i].Called? && events[i].now < moment
  }

  lemma {:induction false} OpenThroughEarlyCalls(hs: seq<Health>, events: seq<Event>, threshold: int, cooldownMs: int,
                                                 k: nat)
    requires k < |hs| && hs[k].state == OPEN && hs[k].openedAt.Some?
    requires CallsBefore(events, hs[k].openedAt.value + cooldownMs)
    ensures |RunAll(hs, events, threshold, cooldownMs)| == |hs| && RunAll(hs, events, threshold, cooldownMs)[k] == hs[k]
    decreases |events|
  {
    if events != [] {
      var front, last := events[..|events| - 1], events[|events| - 1];
      assert CallsBefore(front, hs[k].openedAt.value + cooldownMs);
      OpenThroughEarlyCalls(hs, front, threshold, cooldownMs, k);
      var m := RunAll(hs, front, threshold, cooldownMs);
      if |last.attempts| == |m| {
        EarlyCallSkips(m, last.now, last.attempts, threshold, cooldownMs, k);
      }
    }
  }

  /** In every run from a fresh pool, a circuit found open stays open through all
      calls made before its opening time plus the cooldown; the first call from then
      on has it on offer, half-open, for one trial, which closes it or opens it anew;
      if an endpoint ranked before it answers instead, it stays half-open and so on
      offer. Left to calls alone, no circuit stays open for good. */
  lemma OpenUntilCooldown(n: nat, events: seq<Event>, early: seq<Event>, now: int, attempts: seq<Attempt>,
                          threshold: int, cooldownMs: int, k: nat, since: int)
    requires 1 <= threshold && k < n && |attempts| == n
    requires var hs := RunAll(seq(n, _ => FRESH), events, threshold, cooldownMs);
             k < |hs| && hs[k].state == OPEN && hs[k].openedAt == Some(since)
    requires CallsBefore(early, since + cooldownMs)
    ensures var hs := RunAll(seq(n, _ => FRESH), events, threshold, cooldownMs);
            var m := RunAll(hs, early, threshold, cooldownMs);
            && |m| == n && m[k] == hs[k]
            && var o := Execute(m, now, attempts, threshold, cooldownMs);
               && |o.hs| == n
               && (now < since + cooldownMs ==> k !in o.called && o.hs[k] == hs[k])
               && (since + cooldownMs <= now ==>
                     && k in OrderFor(m, now, cooldownMs)
                     && (k !in o.called ==> o.hs[k].state == HALF_OPEN)
                     && (k in o.called && attempts[k].Answered? ==> o.hs[k].state == CLOSED)
                     && (k in o.called && attempts[k].Refused? ==>
                           o.hs[k].state == OPEN && o.hs[k].openedAt == Some(attempts[k].at)))
  {
    ConsistentOverEveryRun(n, events, threshold, cooldownMs);
    var hs := RunAll(seq(n, _ => FRESH), events, threshold, cooldownMs);
    OpenThroughEarlyCalls(hs, early, threshold, cooldownMs, k);
    var m := RunAll(hs, early, threshold, cooldownMs);
    assert Consistent(hs[k], threshold);
    if since + cooldownMs <= now {
      OrderForIsRight(m, now, cooldownMs);
      ExecuteRecords(m, now, attempts, threshold, cooldownMs, k);
      RecordKeepsConsistent(Prepared(m[k], now, cooldownMs), threshold, attempts[k]);
    } else {
      EarlyCallSkips(m, now, attempts, threshold, cooldownMs, k);
    }
  }

  // ----- Probes included -----

  /** When endpoint k last refused, by call or by probe, in a run from `start`. */
  ghost function LastRefusal(start: seq<Health>, events: seq<Event>, threshold: int, cooldownMs: int, k: nat)
    : Option<int>
    decreases |events|
  {
    if events == [] then None
    else
      var front, last := events[..|events| - 1], events[|events| - 1];
      var m := RunAll(start, front, threshold, cooldownMs);
      if |last.attempts| == |m| && k < |m| && last.attempts[k].Refused?
         && (last.Called? ==> k in Execute(m, last.now, last.attempts, threshold, cooldownMs).called)
      then Some(last.attempts[k].at)
      else LastRefusal(start, front, threshold, cooldownMs, k)
  }

  lemma RefusalDatesCircuit(h: Health, threshold: int, attempt: Attempt)
    requires Consistent(h, threshold) && 1 <= threshold
    ensures attempt.Refused? && Recorded(h, threshold, attempt).state != CLOSED ==>
              Recorded(h, threshold, attempt).openedAt == Some(attempt.at)
  {
  }

  lemma {:induction false} OpenedAtLastRefusal(n: nat, events: seq<Event>, threshold: int, cooldownMs: int, k: nat)
    requires 1 <= threshold && k < n
    ensures var hs := RunAll(seq(n, _ => FRESH), events, threshold, cooldownMs);
            |hs| == n
            && (hs[k].state != CLOSED ==>
                  hs[k].openedAt == LastRefusal(seq(n, _ => FRESH), events, threshold, cooldownMs, k))
    decreases |events|
  {
    ConsistentOverEveryRun(n, events, threshold, cooldownMs);
    if events != [] {
      var front, last := events[..|events| - 1], events[|events| - 1];
      ConsistentOverEveryRun(n, front, threshold, cooldownMs);
      OpenedAtLastRefusal(n, front, threshold, cooldownMs, k);
      var m := RunAll(seq(n, _ => FRESH), front, threshold, cooldownMs);
      assert Consistent(m[k], threshold);
      if |last.attempts| == n {
        RefusalDatesCircuit(m[k], threshold, last.attempts[k]);
        if last.Called? {
          ExecuteRecords(m, last.now, last.attempts, threshold, cooldownMs, k);
          RefusalDatesCircuit(Prepared(m[k], last.now, cooldownMs), threshold, last.attempts[k]);
        }
      }
    }
  }

  /** In every run of calls and probes from a fresh pool, an open circuit dates from
      the latest refusal of its endpoint, by call or by probe, and the endpoint is on
      offer again exactly when the cooldown since then is over. */
  lemma OpenSinceLastRefusal(n: nat, events: seq<Event>, threshold: int, cooldownMs: int, k: nat, now: int)
    requires 1 <= threshold && k < n
    ensures var hs := RunAll(seq(n, _ => FRESH), events, threshold, cooldownMs);
            var refusal := LastRefusal(seq(n, _ => FRESH), events, threshold, cooldownMs, k);
            && |hs| == n
            && (hs[k].state == OPEN ==>
                  && refusal.Some? && hs[k].openedAt == refusal
                  && (k in OrderFor(hs, now, cooldownMs) <==> refusal.value + cooldownMs <= now))
  {
    OpenedAtLastRefusal(n, events, threshold, cooldownMs, k);
    ConsistentOverEveryRun(n, events, threshold, cooldownMs);
    var hs := RunAll(seq(n, _ => FRESH), events, threshold, cooldownMs);
    assert Consistent(hs[k], threshold);
    OrderForIsRight(hs, now, cooldownMs);
  }

  // ----- The record as the history of its endpoint -----

  /** Every attempt made at endpoint k in a run from `start`, oldest first. */
  ghost function AttemptsAt(start: seq<Health>, events: seq<Event>, threshold: int, cooldownMs: int, k: nat)
    : seq<Attempt>
    decreases |events|
  {
    if events == [] then []
    else
      var front, last := events[..|events| - 1], events[|events| - 1];
      var m := RunAll(start, front, threshold, cooldownMs);
      var before := AttemptsAt(start, front, threshold, cooldownMs, k);
      if |last.attempts| == |m| && k < |m|
         && (last.Called? ==> k in Execute(m, last.now, last.attempts, threshold, cooldownMs).called)
      then before + [last.attempts[k]]
      else before
  }

  /** Refusals since the last answer. */
  ghost function Streak(attempts: seq<Attempt>): nat {
    if attempts == [] || attempts[|attempts| - 1].Answered? then 0 else 1 + Streak(attempts[..|attempts| - 1])
  }

  /** How long the latest attempt took, whichever way it went. */
  ghost function LatestLatency(attempts: seq<Attempt>): Option<int> {
    if attempts == [] then None else Some(attempts[|attempts| - 1].latencyMs)
  }

  ghost predicate TellsHistory(h: Health, attempts: seq<Attempt>) {
    h.failures == Streak(attempts) && h.latencyMs == LatestLatency(attempts)
  }

  lemma RecordTellsHistory(h: Health, attempts: seq<Attempt>, threshold: int, latest: Attempt)
    requires TellsHistory(h, attempts)
    ensures TellsHistory(Recorded(h, threshold, latest), attempts + [latest])
  {
    assert (attempts + [latest])[..|attempts|] == attempts;
  }

  /** In every run of calls and probes from a fresh pool, the two figures the ranking
      goes by are what the attempts at the endpoint make them: the refusals since its
      last answer, and the time its latest attempt took. */
  lemma {:induction false} RecordIsHistory(n: nat, events: seq<Event>, threshold: int, cooldownMs: int, k: nat)
    requires 1 <= threshold && k < n
    ensures var hs := RunAll(seq(n, _ => FRESH), events, threshold, cooldownMs);
            && |hs| == n
            && TellsHistory(hs[k], AttemptsAt(seq(n, _ => FRESH), events, threshold, cooldownMs, k))
            && (hs[k].state == CLOSED <==>
                  Streak(AttemptsAt(seq(n, _ => FRESH), events, threshold, cooldownMs, k)) < threshold)
    decreases |events|
  {
    ConsistentOverEveryRun(n, events, threshold, cooldownMs);
    assert Consistent(RunAll(seq(n, _ => FRESH), events, threshold, cooldownMs)[k], threshold);
    if events != [] {
      var front, last := events[..|events| - 1], events[|events| - 1];
      RecordIsHistory(n, front, threshold, cooldownMs, k);
      var m := RunAll(seq(n, _ => FRESH), front, threshold, cooldownMs);
      var attempts := AttemptsAt(seq(n, _ => FRESH), front, threshold, cooldownMs, k);
      if |last.attempts| == n {
        RecordTellsHistory(m[k], attempts, threshold, last.attempts[k]);
        if last.Called? {
          ExecuteRecords(m, last.now, last.attempts, threshold, cooldownMs, k);
          RecordTellsHistory(Prepared(m[k], last.now, cooldownMs), attempts, threshold, last.attempts[k]);
        }
      }
    }
  }
}
