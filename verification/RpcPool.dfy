/** The RPC pool as it runs: one mutable record per endpoint, updated as calls
    succeed and fail. */
module RpcPools {
  import opened Results
  import opened Circuit

  class Endpoint {
    const url: string
    var failures: nat
    var latencyMs: Option<int>
    var state: CircuitState
    var openedAt: Option<int>

    function View(): Health
      reads this
    {
      Health(failures, latencyMs, state, openedAt)
    }

    constructor (url: string)
      ensures View() == FRESH && this.url == url
    {
      this.url := url;
      failures, latencyMs, state, openedAt := 0, None, CLOSED, None;
    }

    method RecordSuccess(latency: int)
      modifies this
      ensures View() == Succeeded(old(View()), latency)
    {
      failures := 0;
      latencyMs := Some(latency);
      state := CLOSED;
      openedAt := None;
    }

    method RecordFailure(threshold: int, latency: int, at: int)
      modifies this
      ensures View() == Failed(old(View()), threshold, latency, at)
    {
      failures := failures + 1;
      latencyMs := Some(latency);
      if failures >= threshold {
        state := OPEN;
        openedAt := Some(at);
      }
    }
  }

  ghost function Views(endpoints: seq<Endpoint>): seq<Health>
    reads endpoints
  {
    seq(|endpoints|, i requires 0 <= i < |endpoints| reads endpoints => endpoints[i].View())
  }

  ghost function Prepend(called: seq<nat>, o: Outcome): Outcome {
    Outcome(o.hs, called + o.called, o.result)
  }

  /** One more endpoint tried. */
  lemma TryFirst(hs: seq<Health>, order: seq<nat>, i: nat, attempts: seq<Attempt>, threshold: int)
    requires |attempts| == |hs| && i < |order| && forall k :: 0 <= k < |order| ==> order[k] < |hs|
    ensures var x := order[i];
            var after := hs[x := Recorded(hs[x], threshold, attempts[x])];
            Prepend(order[..i], TryInTurn(hs, order[i..], attempts, threshold))
              == if attempts[x].Answered? then Outcome(after, order[..i + 1], Served(x))
                 else Prepend(order[..i + 1], TryInTurn(after, order[i + 1..], attempts, threshold))
  {
    var x := order[i];
    assert order[i..][0] == x && order[i..][1..] == order[i + 1..] && order[..i + 1] == order[..i] + [x];
    if attempts[x].Refused? {
      var rest := TryInTurn(hs[x := Recorded(hs[x], threshold, attempts[x])], order[i + 1..], attempts, threshold);
      assert order[..i] + ([x] + rest.called) == order[..i + 1] + rest.called;
    }
  }

  class RpcPool {
    const endpoints: seq<Endpoint>
    const failureThreshold: int
    const cooldownMs: int

    /** No two places in the pool share a record. */
    ghost predicate Valid() {
      forall i, j :: 0 <= i < j < |endpoints| ==> endpoints[i] != endpoints[j]
    }

    /** From urls already trimmed and stripped of repeats; at least one is needed. */
    constructor (urls: seq<string>, threshold: int, cooldownMs: int)
      requires urls != []
      ensures Valid() && |endpoints| == |urls|
      ensures forall i :: 0 <= i < |endpoints| ==>
                fresh(endpoints[i]) && endpoints[i].View() == FRESH && endpoints[i].url == urls[i]
      ensures failureThreshold == threshold && this.cooldownMs == cooldownMs
    {
      var made: seq<Endpoint> := [];
      for k := 0 to |urls|
        invariant |made| == k
        invariant forall i :: 0 <= i < k ==> fresh(made[i]) && made[i].View() == FRESH && made[i].url == urls[i]
        invariant forall i, j :: 0 <= i < j < k ==> made[i] != made[j]
      {
        var e := new Endpoint(urls[k]);
        made := made + [e];
      }
      endpoints := made;
      failureThreshold, this.cooldownMs := threshold, cooldownMs;
    }

    /** Half-opens circuits whose cooldown is over and ranks all that are on offer. */
    method AvailableEndpoints(now: int) returns (order: seq<nat>)
      requires Valid()
      modifies endpoints
      ensures Views(endpoints) == PreparedAll(old(Views(endpoints)), now, cooldownMs)
      ensures order == OrderFor(old(Views(endpoints)), now, cooldownMs)
    {
      ghost var before := Views(endpoints);
      var offered: seq<nat> := [];
      for i := 0 to |endpoints|
        invariant before == old(Views(endpoints))
        invariant offered == OfferedUpTo(before, now, cooldownMs, i)
        invariant forall k :: 0 <= k < i ==> endpoints[k].View() == Prepared(before[k], now, cooldownMs)
        invariant forall k :: i <= k < |endpoints| ==> endpoints[k].View() == before[k]
      {
        var e := endpoints[i];
        if e.state != OPEN {
          offered := offered + [i];
        } else if e.openedAt.Some? && now - e.openedAt.value >= cooldownMs {
          e.state := HALF_OPEN;
          offered := offered + [i];
        }
      }
      assert Views(endpoints) == PreparedAll(before, now, cooldownMs);
      var healths: seq<Health> := [];
      for i := 0 to |endpoints|
        invariant |healths| == i && forall k :: 0 <= k < i ==> healths[k] == endpoints[k].View()
      {
        healths := healths + [endpoints[i].View()];
      }
      assert healths == Views(endpoints);
      order := Ranked(offered, healths);
    }

    /** Tries the available endpoints until one answers; `attempts` says how trying
        each of them turns out. */
    method Execute(now: int, attempts: seq<Attempt>) returns (result: CallResult, called: seq<nat>)
      requires Valid() && |attempts| == |endpoints|
      modifies endpoints
      ensures Outcome(Views(endpoints), called, result)
           == Circuit.Execute(old(Views(endpoints)), now, attempts, failureThreshold, cooldownMs)
    {
      var order := AvailableEndpoints(now);
      result, called := TryInOrder(order, attempts);
    }

    method TryInOrder(order: seq<nat>, attempts: seq<Attempt>) returns (result: CallResult, called: seq<nat>)
      requires Valid() && |attempts| == |endpoints| && forall k :: 0 <= k < |order| ==> order[k] < |endpoints|
      modifies endpoints
      ensures Outcome(Views(endpoints), called, result)
           == TryInTurn(old(Views(endpoints)), order, attempts, failureThreshold)
    {
      ghost var all := TryInTurn(Views(endpoints), order, attempts, failureThreshold);
      called := [];
      assert order[0..] == order && [] + all.called == all.called;
      var i := 0;
      while i < |order|
        invariant 0 <= i <= |order| && called == order[..i]
        invariant all == Prepend(called, TryInTurn(Views(endpoints), order[i..], attempts, failureThreshold))
      {
        var x := order[i];
        TryFirst(Views(endpoints), order, i, attempts, failureThreshold);
        called := called + [x];
        assert called == order[..i + 1];
        var ok := TryEndpoint(x, attempts[x]);
        if ok {
          return Served(x), called;
        }
        i := i + 1;
      }
      assert order[i..] == [] && called + [] == called;
      return AllFailed, called;
    }

    /** Records how trying one endpoint turned out. */
    method TryEndpoint(x: nat, attempt: Attempt) returns (ok: bool)
      requires Valid() && x < |endpoints|
      modifies endpoints[x]
      ensures ok == attempt.Answered?
      ensures Views(endpoints)
           == old(Views(endpoints))[x := Recorded(old(Views(endpoints))[x], failureThreshold, attempt)]
    {
      match attempt {
        case Answered(latency) => endpoints[x].RecordSuccess(latency);
        case Refused(latency, at) => endpoints[x].RecordFailure(failureThreshold, latency, at);
      }
      ok := attempt.Answered?;
    }

    method ProbeAll(attempts: seq<Attempt>)
      requires Valid() && |attempts| == |endpoints|
      modifies endpoints
      ensures Views(endpoints) == Probe(old(Views(endpoints)), attempts, failureThreshold)
    {
      ghost var before := Views(endpoints);
      for i := 0 to |endpoints|
        invariant before == old(Views(endpoints))
        invariant forall k :: 0 <= k < i ==> endpoints[k].View() == Recorded(before[k], failureThreshold, attempts[k])
        invariant forall k :: i <= k < |endpoints| ==> endpoints[k].View() == before[k]
      {
        match attempts[i] {
          case Answered(latency) => endpoints[i].RecordSuccess(latency);
          case Refused(latency, at) => endpoints[i].RecordFailure(failureThreshold, latency, at);
        }
      }
    }
  }
}
