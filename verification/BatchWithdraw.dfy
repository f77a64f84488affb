/** Withdrawing from many streams at once against withdrawing from each in turn. */
module BatchWithdrawals {
  import Calls
  import opened Bounded
  import opened Results
  import opened StreamTypes
  import opened Storage
  import opened Vesting
  import opened Entrypoints
  import opened Lifecycle
  import opened Solvency
  import opened Runs
  import opened ClosedForm
  import Folds

  /** One single withdrawal per id, in order, skipping those with nothing to pay. */
  function FoldWithdraw(s: State, recipient: Address, ids: seq<u64>): Result<(State, Payouts)> {
    Folds.Fold(Skipping(recipient), s, ids)
  }

  function Skipping(recipient: Address): (State, u64) -> Result<(State, Option<i128>)> {
    (s: State, id: u64) => WithdrawOrSkip(s, recipient, id)
  }

  ghost function Ready(recipient: Address): State -> bool {
    (s: State) => StreamsWellFormed(s) && recipient != s.self
  }

  lemma WithdrawOrSkipKeeps(s: State, recipient: Address, id: u64)
    requires StreamsWellFormed(s) && recipient != s.self && WithdrawOrSkip(s, recipient, id).Ok?
    ensures var t := WithdrawOrSkip(s, recipient, id).value.0;
            StreamsWellFormed(t) && t.self == s.self && t.now == s.now
  {
    if Withdraw(s, recipient, id).Ok? {
      WithdrawEffect(s, recipient, id);
      EvolvedWellFormed(s, WithdrawOrSkip(s, recipient, id).value.0);
    }
  }

  lemma {:induction false} LoopIsFold(s: State, recipient: Address, ids: seq<u64>, paid: Payouts)
    requires StreamsWellFormed(s) && recipient != s.self
    ensures BatchLoop(s, recipient, ids, paid)
         == match FoldWithdraw(s, recipient, ids)
            case Ok((t, rest)) => Ok((t, paid + rest))
            case Err(e) => Err(e)
    decreases |ids|
  {
    if ids == [] {
      assert paid + [] == paid;
    } else {
      BatchRoundIsWithdrawOrSkip(s, recipient, ids[0]);
      if WithdrawOrSkip(s, recipient, ids[0]).Ok? {
        var (s1, amount) := WithdrawOrSkip(s, recipient, ids[0]).value;
        WithdrawOrSkipKeeps(s, recipient, ids[0]);
        var paid' := if amount.Some? then paid + [(ids[0], amount.value)] else paid;
        LoopIsFold(s1, recipient, ids[1..], paid');
        if FoldWithdraw(s1, recipient, ids[1..]).Ok? {
          var rest := FoldWithdraw(s1, recipient, ids[1..]).value.1;
          assert amount.Some? ==> paid + ([(ids[0], amount.value)] + rest) == paid' + rest;
        }
      }
    }
  }

  /** The batch is the fold: same errors, same payouts, same balances, same records
      and same events, in every reachable state. */
  lemma BatchIsFold(s: State, recipient: Address, ids: seq<u64>)
    requires StreamsWellFormed(s) && recipient != s.self && |ids| <= MAX_BATCH_WITHDRAW
    ensures BatchWithdraw(s, recipient, ids) == FoldWithdraw(s, recipient, ids)
  {
    LoopIsFold(s, recipient, ids, []);
    if FoldWithdraw(s, recipient, ids).Ok? {
      var rest := FoldWithdraw(s, recipient, ids).value.1;
      assert [] + rest == rest;
    }
  }

  // ----- What stops a batch -----

  /** The id has no stream of this recipient, and the error that says which. */
  ghost predicate Foreign(s: State, recipient: Address, id: u64, e: Error) {
    match TryLoadStream(s, id)
    case None => e == StreamNotFound
    case Some(a) => a.recipient != recipient && e == Unauthorized
  }

  ghost predicate OwnStream(s: State, recipient: Address, id: u64) {
    TryLoadStream(s, id).Some? && TryLoadStream(s, id).value.recipient == recipient
  }

  lemma RoundKeepsOwners(s: State, recipient: Address, id: u64, other: u64, e: Error)
    requires StreamsWellFormed(s) && recipient != s.self && BatchRound(s, recipient, id).Ok?
    ensures OwnStream(s, recipient, id)
    ensures var t := BatchRound(s, recipient, id).value.0;
            && StreamsWellFormed(t) && t.self == s.self
            && (OwnStream(t, recipient, other) <==> OwnStream(s, recipient, other))
            && (Foreign(t, recipient, other, e) <==> Foreign(s, recipient, other, e))
  {
    BatchRoundIsWithdrawOrSkip(s, recipient, id);
    if Withdraw(s, recipient, id).Ok? {
      WithdrawEffect(s, recipient, id);
      EvolvedWellFormed(s, Withdraw(s, recipient, id).value.0);
      Calls.WithdrawDoes(s, recipient, id);
    }
  }

  lemma {:induction false} LoopNeedsOwn(s: State, recipient: Address, ids: seq<u64>, paid: Payouts)
    requires StreamsWellFormed(s) && recipient != s.self
    ensures var r := BatchLoop(s, recipient, ids, paid);
            && (r.Ok? ==> forall i :: 0 <= i < |ids| ==> OwnStream(s, recipient, ids[i]))
            && (r.Err? ==> r.error == HostTrap || exists i :: 0 <= i < |ids| && Foreign(s, recipient, ids[i], r.error))
    decreases |ids|
  {
    if ids != [] {
      var round := BatchRound(s, recipient, ids[0]);
      if round.Err? {
        BatchRoundIsWithdrawOrSkip(s, recipient, ids[0]);
        Calls.WithdrawDoes(s, recipient, ids[0]);
        assert round.error == HostTrap || Foreign(s, recipient, ids[0], round.error);
      } else {
        var (s1, amount) := round.value;
        var more := if amount.Some? then paid + [(ids[0], amount.value)] else paid;
        RoundKeepsOwners(s, recipient, ids[0], ids[0], HostTrap);
        LoopNeedsOwn(s1, recipient, ids[1..], more);
        var r := BatchLoop(s1, recipient, ids[1..], more);
        forall i | 1 <= i < |ids|
          ensures OwnStream(s1, recipient, ids[i]) <==> OwnStream(s, recipient, ids[i])
          ensures r.Err? ==> (Foreign(s1, recipient, ids[i], r.error) <==> Foreign(s, recipient, ids[i], r.error))
        {
          RoundKeepsOwners(s, recipient, ids[0], ids[i], if r.Err? then r.error else HostTrap);
        }
        assert forall i :: 1 <= i < |ids| ==> ids[i] == ids[1..][i - 1];
      }
    }
  }

  /** At most 30 ids; and one unknown or foreign id among them refuses the whole batch,
      with the error that says which it is. Nothing else but the host does. */
  lemma BatchRefusals(s: State, recipient: Address, ids: seq<u64>)
    requires StreamsWellFormed(s)
    ensures var r := BatchWithdraw(s, recipient, ids);
            if recipient == s.self then r == Err(AuthFailed)
            else if 30 < |ids| then r == Err(BatchTooLarge)
            else
              && (r.Ok? ==> forall i :: 0 <= i < |ids| ==> OwnStream(s, recipient, ids[i]))
              && (r.Err? ==> r.error == HostTrap
                             || exists i :: 0 <= i < |ids| && Foreign(s, recipient, ids[i], r.error))
  {
    if recipient != s.self {
      LoopNeedsOwn(s, recipient, ids, []);
    }
  }

  // ----- What a successful batch pays -----

  ghost predicate Payable(s: State, id: u64) {
    match TryLoadStream(s, id)
    case None => false
    case Some(a) => a.isActive && !a.paused && Claimable(a, s.now) > 0
  }

  ghost function DueNow(s: State, id: u64): Option<i128> {
    if Payable(s, id) then Some(Claimable(TryLoadStream(s, id).value, s.now)) else None
  }

  ghost function RecordOf(s: State, id: u64): Option<StoredStream> {
    if id in s.records then Some(s.records[id]) else None
  }

  /** The record a batch leaves under an id it lists. */
  ghost function SettledRecord(s: State, id: u64): Option<StoredStream> {
    if Payable(s, id) then Some(CurrentStream(Attempt(TryLoadStream(s, id).value, s.now))) else RecordOf(s, id)
  }

  lemma SettledHasNothingDue(a: Stream, now: u64)
    requires WellFormed(a, now) && a.isActive && !a.paused && Claimable(a, now) > 0
    ensures Attempt(a, now).isActive ==> Claimable(Attempt(a, now), now) <= 0
  {
    AttemptPaysEarned(a, now);
    EntitlementIsEarned(a, now);
    EntitlementIsEarned(Attempt(a, now), now);
    AttemptKeepsEarning(a, now, now);
  }

  /** What a paying round stores, and nothing else changes. */
  lemma PaidRoundStores(s: State, recipient: Address, id: u64)
    requires StreamsWellFormed(s) && Withdraw(s, recipient, id).Ok?
    ensures Payable(s, id)
    ensures var a := TryLoadStream(s, id).value;
            && Withdraw(s, recipient, id).value.1 == Claimable(a, s.now)
            && Withdraw(s, recipient, id).value.0.records == s.records[id := CurrentStream(Attempt(a, s.now))]
  {
  }

  lemma RoundSettles(s: State, recipient: Address, id: u64)
    requires StreamsWellFormed(s) && recipient != s.self && WithdrawOrSkip(s, recipient, id).Ok?
    ensures var (t, amount) := WithdrawOrSkip(s, recipient, id).value;
            && StreamsWellFormed(t) && t.self == s.self && t.now == s.now
            && amount == DueNow(s, id) && DueNow(t, id) == None
            && RecordOf(t, id) == SettledRecord(s, id)
            && TryLoadStream(s, id).Some?
            && (forall j: u64 :: j != id ==> RecordOf(t, j) == RecordOf(s, j))
  {
    WithdrawOrSkipKeeps(s, recipient, id);
    if Withdraw(s, recipient, id).Ok? {
      PaidRoundStores(s, recipient, id);
      SettledHasNothingDue(TryLoadStream(s, id).value, s.now);
    } else {
      RefusedRoundSkips(s, recipient, id);
    }
  }

  lemma RefusedRoundSkips(s: State, recipient: Address, id: u64)
    requires StreamsWellFormed(s) && recipient != s.self && WithdrawOrSkip(s, recipient, id).Ok?
    requires Withdraw(s, recipient, id).Err?
    ensures WithdrawOrSkip(s, recipient, id).value == (s, None) && TryLoadStream(s, id).Some? && !Payable(s, id)
  {
    ClaimableIsEarnedMinusPaid(TryLoadStream(s, id).value, s.now);
  }

  lemma OthersUndisturbed(s: State, t: State, j: u64)
    requires t.now == s.now && RecordOf(t, j) == RecordOf(s, j)
    ensures DueNow(t, j) == DueNow(s, j) && SettledRecord(t, j) == SettledRecord(s, j)
    ensures TryLoadStream(t, j) == TryLoadStream(s, j)
  {
    assert TryLoadStream(t, j) == TryLoadStream(s, j);
  }

  lemma RoundsSettle(recipient: Address)
    ensures Folds.YieldsOnce(Skipping(recipient), Ready(recipient), (s: State, id: u64) => DueNow(s, id))
    ensures Folds.Settles(Skipping(recipient), Ready(recipient),
              (s: State, id: u64) => RecordOf(s, id), (s: State, id: u64) => SettledRecord(s, id))
  {
    forall s: State, k: u64 | StreamsWellFormed(s) && recipient != s.self && WithdrawOrSkip(s, recipient, k).Ok?
      ensures var (t, amount) := WithdrawOrSkip(s, recipient, k).value;
              && StreamsWellFormed(t) && recipient != t.self
              && amount == DueNow(s, k) && DueNow(t, k) == None
              && RecordOf(t, k) == SettledRecord(s, k) == SettledRecord(t, k)
              && forall j: u64 :: j != k ==> && RecordOf(t, j) == RecordOf(s, j)
                                             && DueNow(t, j) == DueNow(s, j)
                                             && SettledRecord(t, j) == SettledRecord(s, j)
    {
      RoundSettles(s, recipient, k);
      var t := WithdrawOrSkip(s, recipient, k).value.0;
      forall j: u64 | j != k
        ensures DueNow(t, j) == DueNow(s, j) && SettledRecord(t, j) == SettledRecord(s, j)
      {
        OthersUndisturbed(s, t, j);
      }
    }
  }

  /** A successful batch settles each listed stream once, at what was claimable
      before the batch, and touches no other: an id listed again pays nothing. */
  lemma BatchSettlesEachOnce(s: State, recipient: Address, ids: seq<u64>)
    requires StreamsWellFormed(s) && recipient != s.self && BatchWithdraw(s, recipient, ids).Ok?
    ensures var (t, paid) := BatchWithdraw(s, recipient, ids).value;
            && (forall id: u64 :: RecordOf(t, id) == if id in ids then SettledRecord(s, id) else RecordOf(s, id))
            && (forall i :: 0 <= i < |paid| ==> paid[i].0 in ids && DueNow(s, paid[i].0) == Some(paid[i].1))
            && (forall id: u64 :: id in ids && DueNow(s, id).Some? ==> exists i :: 0 <= i < |paid| && paid[i].0 == id)
            && (forall i, j :: 0 <= i < j < |paid| ==> paid[i].0 != paid[j].0)
  {
    BatchIsFold(s, recipient, ids);
    RoundsSettle(recipient);
    var due, record, target := (u: State, id: u64) => DueNow(u, id), (u: State, id: u64) => RecordOf(u, id),
                               (u: State, id: u64) => SettledRecord(u, id);
    Folds.FoldCollectsOnce(Skipping(recipient), Ready(recipient), due, s, ids);
    var (t, paid) := BatchWithdraw(s, recipient, ids).value;
    forall id: u64 ensures RecordOf(t, id) == if id in ids then SettledRecord(s, id) else RecordOf(s, id) {
      Folds.FoldSettles(Skipping(recipient), Ready(recipient), record, target, s, ids, id);
    }
    assert Folds.CollectedOnce(due, s, ids, paid);
    forall id: u64 | id in ids && DueNow(s, id).Some? ensures exists i :: 0 <= i < |paid| && paid[i].0 == id {
      assert due(s, id).Some?;
    }
  }

  // ----- Order does not matter -----

  function Quiet(s: State): State {
    s.(log := [])
  }

  /** A round with the events left aside. */
  ghost function QuietRound(s: State, recipient: Address, id: u64): Option<(State, multiset<(u64, i128)>)> {
    Folds.Project((u: State) => Quiet(u), id, WithdrawOrSkip(s, recipient, id))
  }

  ghost function Rounds(recipient: Address): (State, u64) -> Option<(State, multiset<(u64, i128)>)> {
    (s: State, id: u64) => QuietRound(s, recipient, id)
  }

  lemma QuietApply(s: State, stream: Stream, id: u64, recipient: Address, amount: i128)
    ensures ApplyWithdrawal(Quiet(s), stream, id, recipient, amount)
         == match ApplyWithdrawal(s, stream, id, recipient, amount)
            case Ok((t, paid)) => Ok((Quiet(t), paid))
            case Err(e) => Err(e)
  {
    if Credited(stream, amount, s.now).Ok? {
      var paid := Credited(stream, amount, s.now).value;
      var p := SaveStream(s, id, paid);
      assert SaveStream(Quiet(s), id, paid) == Quiet(p);
      assert forall k: Address, w: Address :: Balance(Quiet(p), k, w) == Balance(p, k, w);
    }
  }

  lemma QuietWithdraw(s: State, recipient: Address, id: u64)
    ensures var p, q := Withdraw(s, recipient, id), Withdraw(Quiet(s), recipient, id);
            && (p.Err? ==> q == p)
            && (p.Ok? ==> q.Ok? && q.value.1 == p.value.1 && Quiet(q.value.0) == Quiet(p.value.0))
  {
    assert TryLoadStream(Quiet(s), id) == TryLoadStream(s, id);
    if TryLoadStream(s, id).Some? {
      var a := TryLoadStream(s, id).value;
      QuietApply(s, a, id, recipient, Claimable(a, s.now));
    }
  }

  lemma EventsPlayNoPart(s: State, recipient: Address, id: u64)
    ensures QuietRound(Quiet(s), recipient, id) == QuietRound(s, recipient, id)
  {
    QuietWithdraw(s, recipient, id);
  }

  lemma TransferEffect(s: State, token: Address, from: Address, to: Address, amount: nat)
    requires from != to
    ensures var r := Transfer(s, token, from, to, amount);
            && (r.Ok? <==> amount <= Balance(s, token, from) && Balance(s, token, to) + amount <= I128_MAX)
            && (r.Ok? ==> r.value == s.(balances := s.balances[(token, from) := Balance(s, token, from) - amount]
                                                              [(token, to) := Balance(s, token, to) + amount]))
  {
  }

  /** Two payments by one payer to one payee commute. */
  lemma TransfersCommute(s: State, p: Address, q: Address, from: Address, to: Address, a: nat, b: nat)
    requires from != to
    ensures BothTransfers(s, p, q, from, to, a, b) == BothTransfers(s, q, p, from, to, b, a)
  {
    BothTransfersEffect(s, p, q, from, to, a, b);
    BothTransfersEffect(s, q, p, from, to, b, a);
    if BothTransfers(s, p, q, from, to, a, b).Ok? {
      var x, y := BothTransfers(s, p, q, from, to, a, b).value, BothTransfers(s, q, p, from, to, b, a).value;
      forall k: (Address, Address) | k in x.balances ensures k in y.balances && x.balances[k] == y.balances[k] {
        assert Balance(x, k.0, k.1) == Balance(y, k.0, k.1);
      }
      assert x.balances == y.balances;
    }
  }

  /** What two payments by one payer to one payee come to, together. */
  lemma BothTransfersEffect(s: State, p: Address, q: Address, from: Address, to: Address, a: nat, b: nat)
    requires from != to
    ensures var both := BothTransfers(s, p, q, from, to, a, b);
            && (both.Ok? <==>
                  && a + (if p == q then b else 0) <= Balance(s, p, from)
                  && b + (if p == q then a else 0) <= Balance(s, q, from)
                  && Balance(s, p, to) + a + (if p == q then b else 0) <= I128_MAX
                  && Balance(s, q, to) + b + (if p == q then a else 0) <= I128_MAX)
            && (both.Ok? ==>
                  && both.value == s.(balances := both.value.balances)
                  && both.value.balances.Keys == s.balances.Keys + {(p, from), (p, to), (q, from), (q, to)}
                  && forall k: Address, w: Address :: Balance(both.value, k, w) == Balance(s, k, w)
                       + (if w == to then 1 else if w == from then -1 else 0)
                         * ((if k == p then a else 0) + (if k == q then b else 0)))
  {
    TransferEffect(s, p, from, to, a);
    var first := Transfer(s, p, from, to, a);
    if first.Ok? {
      TransferConserves(s, p, from, to, a);
      TransferEffect(first.value, q, from, to, b);
      if Transfer(first.value, q, from, to, b).Ok? {
        TransferConserves(first.value, q, from, to, b);
      }
    }
  }

  function BothTransfers(s: State, p: Address, q: Address, from: Address, to: Address, a: int, b: int): Result<State> {
    var s1 :- Transfer(s, p, from, to, a);
    Transfer(s1, q, from, to, b)
  }

  /** A paying round is a transfer and a record update, whichever comes first. */
  lemma RoundIsPayment(s: State, recipient: Address, id: u64)
    requires recipient != s.self && Payable(s, id) && TryLoadStream(s, id).value.recipient == recipient
    requires Credited(TryLoadStream(s, id).value, Claimable(TryLoadStream(s, id).value, s.now), s.now).Ok?
    ensures var a := TryLoadStream(s, id).value;
            var amount := Claimable(a, s.now);
            var paid := Transfer(s, a.token, s.self, recipient, amount);
            QuietRound(s, recipient, id)
              == if paid.Ok?
                 then Some((Quiet(SaveStream(paid.value, id, Attempt(a, s.now))), multiset{(id, amount)})) else None
  {
    var a := TryLoadStream(s, id).value;
    var amount := Claimable(a, s.now);
    SaveThenTransfer(s, id, Attempt(a, s.now), a.token, recipient, amount);
  }

  lemma SaveThenTransfer(s: State, id: u64, b: Stream, token: Address, to: Address, amount: int)
    ensures var before := Transfer(s, token, s.self, to, amount);
            var after := Transfer(SaveStream(s, id, b), token, s.self, to, amount);
            (after.Ok? <==> before.Ok?) && (after.Ok? ==> after.value == SaveStream(before.value, id, b))
  {
    assert forall k: Address, w: Address :: Balance(SaveStream(s, id, b), k, w) == Balance(s, k, w);
  }

  /** A listed stream a round neither finds payable nor refuses is left alone. */
  lemma RoundIsSkip(s: State, recipient: Address, id: u64)
    requires recipient != s.self && !Payable(s, id)
    ensures QuietRound(s, recipient, id)
         == if TryLoadStream(s, id).Some? && TryLoadStream(s, id).value.recipient == recipient
            then Some((Quiet(s), multiset{})) else None
  {
  }

  ghost predicate Listed(s: State, recipient: Address, id: u64) {
    TryLoadStream(s, id).Some? && TryLoadStream(s, id).value.recipient == recipient
  }

  lemma RoundNeedsListing(s: State, recipient: Address, id: u64)
    requires !Listed(s, recipient, id)
    ensures QuietRound(s, recipient, id).None?
  {
  }

  ghost function InTurn(s: State, recipient: Address, x: u64, y: u64): Option<(State, multiset<(u64, i128)>)> {
    Folds.Then(Rounds(recipient), QuietRound(s, recipient, x), y)
  }

  lemma AfterRound(s: State, recipient: Address, x: u64, y: u64)
    requires StreamsWellFormed(s) && recipient != s.self && x != y && QuietRound(s, recipient, x).Some?
    ensures var t := QuietRound(s, recipient, x).value.0;
            && StreamsWellFormed(t) && t.self == s.self && t.now == s.now
            && TryLoadStream(t, y) == TryLoadStream(s, y)
            && (Payable(t, y) <==> Payable(s, y))
  {
    RoundSettles(s, recipient, x);
    var u := WithdrawOrSkip(s, recipient, x).value.0;
    assert forall id: u64 :: TryLoadStream(Quiet(u), id) == TryLoadStream(u, id);
    OthersUndisturbed(s, Quiet(u), y);
  }

  /** Two paying rounds are both transfers and then both record updates. */
  lemma PayBoth(s: State, recipient: Address, x: u64, y: u64)
    requires StreamsWellFormed(s) && recipient != s.self && x != y && s.log == []
    requires Listed(s, recipient, x) && Listed(s, recipient, y) && Payable(s, x) && Payable(s, y)
    ensures var a, b := TryLoadStream(s, x).value, TryLoadStream(s, y).value;
            var amountX, amountY := Claimable(a, s.now), Claimable(b, s.now);
            var both := BothTransfers(s, a.token, b.token, s.self, recipient, amountX, amountY);
            InTurn(s, recipient, x, y)
              == if both.Err? then None
                 else Some((SaveStream(SaveStream(both.value, x, Attempt(a, s.now)), y, Attempt(b, s.now)),
                            multiset{(x, amountX)} + multiset{(y, amountY)}))
  {
    var a, b := TryLoadStream(s, x).value, TryLoadStream(s, y).value;
    var amountX, amountY := Claimable(a, s.now), Claimable(b, s.now);
    ClaimableIsEarnedMinusPaid(a, s.now);
    ClaimableIsEarnedMinusPaid(b, s.now);
    RoundIsPayment(s, recipient, x);
    var first := Transfer(s, a.token, s.self, recipient, amountX);
    if first.Ok? {
      TransferConserves(s, a.token, s.self, recipient, amountX);
      AfterRound(s, recipient, x, y);
      var sx := QuietRound(s, recipient, x).value.0;
      assert sx == SaveStream(first.value, x, Attempt(a, s.now));
      RoundIsPayment(sx, recipient, y);
      SaveThenTransfer(first.value, x, Attempt(a, s.now), b.token, recipient, amountY);
      var second := Transfer(first.value, b.token, s.self, recipient, amountY);
      if second.Ok? {
        TransferConserves(first.value, b.token, s.self, recipient, amountY);
      }
    }
  }

  lemma SwapPayments(s: State, recipient: Address, x: u64, y: u64)
    requires StreamsWellFormed(s) && recipient != s.self && x != y && s.log == []
    requires Listed(s, recipient, x) && Listed(s, recipient, y) && Payable(s, x) && Payable(s, y)
    ensures InTurn(s, recipient, x, y) == InTurn(s, recipient, y, x)
  {
    var a, b := TryLoadStream(s, x).value, TryLoadStream(s, y).value;
    var amountX, amountY := Claimable(a, s.now), Claimable(b, s.now);
    var settledX, settledY := CurrentStream(Attempt(a, s.now)), CurrentStream(Attempt(b, s.now));
    ClaimableIsEarnedMinusPaid(a, s.now);
    ClaimableIsEarnedMinusPaid(b, s.now);
    TransfersCommute(s, a.token, b.token, s.self, recipient, amountX, amountY);
    PayBoth(s, recipient, x, y);
    PayBoth(s, recipient, y, x);
    assert s.records[x := settledX][y := settledY] == s.records[y := settledY][x := settledX];
    assert multiset{(x, amountX)} + multiset{(y, amountY)} == multiset{(y, amountY)} + multiset{(x, amountX)};
  }

  lemma SkipFirst(s: State, recipient: Address, x: u64, y: u64)
    requires recipient != s.self && s.log == [] && Listed(s, recipient, x) && !Payable(s, x)
    ensures InTurn(s, recipient, x, y) == QuietRound(s, recipient, y)
  {
    assert Quiet(s) == s;
    RoundIsSkip(s, recipient, x);
    var r := QuietRound(s, recipient, y);
    if r.Some? {
      assert multiset{} + r.value.1 == r.value.1;
    }
  }

  lemma SkipSecond(s: State, recipient: Address, y: u64, x: u64)
    requires recipient != s.self && QuietRound(s, recipient, y).Some?
    requires var t := QuietRound(s, recipient, y).value.0;
             t.self == s.self && t.log == [] && Listed(t, recipient, x) && !Payable(t, x)
    ensures InTurn(s, recipient, y, x) == QuietRound(s, recipient, y)
  {
    var (t, paid) := QuietRound(s, recipient, y).value;
    assert Quiet(t) == t;
    RoundIsSkip(t, recipient, x);
    assert paid + multiset{} == paid;
  }

  /** A skip before another round is a skip after it. */
  lemma SwapWithSkip(s: State, recipient: Address, x: u64, y: u64)
    requires StreamsWellFormed(s) && recipient != s.self && x != y && s.log == []
    requires Listed(s, recipient, x) && !Payable(s, x)
    ensures InTurn(s, recipient, x, y) == QuietRound(s, recipient, y) == InTurn(s, recipient, y, x)
  {
    SkipFirst(s, recipient, x, y);
    if QuietRound(s, recipient, y).Some? {
      AfterRound(s, recipient, y, x);
      QuietRoundKeeps(s, recipient, y);
      SkipSecond(s, recipient, y, x);
    }
  }

  lemma SwapWithRefusal(s: State, recipient: Address, x: u64, y: u64)
    requires StreamsWellFormed(s) && recipient != s.self && x != y && !Listed(s, recipient, x)
    ensures InTurn(s, recipient, x, y) == None == InTurn(s, recipient, y, x)
  {
    RoundNeedsListing(s, recipient, x);
    if QuietRound(s, recipient, y).Some? {
      AfterRound(s, recipient, y, x);
      RoundNeedsListing(QuietRound(s, recipient, y).value.0, recipient, x);
    }
  }

  lemma SwapRounds(s: State, recipient: Address, x: u64, y: u64)
    requires StreamsWellFormed(s) && recipient != s.self && s.log == []
    ensures InTurn(s, recipient, x, y) == InTurn(s, recipient, y, x)
  {
    if x != y {
      if !Listed(s, recipient, x) {
        SwapWithRefusal(s, recipient, x, y);
      } else if !Listed(s, recipient, y) {
        SwapWithRefusal(s, recipient, y, x);
      } else if !Payable(s, x) {
        SwapWithSkip(s, recipient, x, y);
      } else if !Payable(s, y) {
        SwapWithSkip(s, recipient, y, x);
      } else {
        SwapPayments(s, recipient, x, y);
      }
    }
  }

  lemma QuietRoundKeeps(s: State, recipient: Address, id: u64)
    requires StreamsWellFormed(s) && recipient != s.self && QuietRound(s, recipient, id).Some?
    ensures var t := QuietRound(s, recipient, id).value.0;
            StreamsWellFormed(t) && t.self == s.self && t.log == []
  {
    WithdrawOrSkipKeeps(s, recipient, id);
    var u := WithdrawOrSkip(s, recipient, id).value.0;
    assert forall j: u64 :: TryLoadStream(Quiet(u), j) == TryLoadStream(u, j);
  }

  lemma RoundsCommute(recipient: Address)
    ensures Folds.Commuting(Rounds(recipient), (s: State) => StreamsWellFormed(s) && recipient != s.self && s.log == [])
  {
    var inv := (s: State) => StreamsWellFormed(s) && recipient != s.self && s.log == [];
    forall s: State, k: u64 | inv(s) && Rounds(recipient)(s, k).Some? ensures inv(Rounds(recipient)(s, k).value.0) {
      QuietRoundKeeps(s, recipient, k);
    }
    forall s: State, j: u64, k: u64 | inv(s)
      ensures Folds.Then(Rounds(recipient), Rounds(recipient)(s, j), k)
           == Folds.Then(Rounds(recipient), Rounds(recipient)(s, k), j)
    {
      SwapRounds(s, recipient, j, k);
    }
  }

  /** A batch with the events left aside is its rounds in sequence. */
  lemma FoldIsRounds(s: State, recipient: Address, ids: seq<u64>)
    ensures Folds.Sequence(Rounds(recipient), Quiet(s), ids)
         == Folds.ProjectFold((u: State) => Quiet(u), FoldWithdraw(s, recipient, ids))
  {
    var view := (u: State) => Quiet(u);
    forall u: State, k: u64 ensures Rounds(recipient)(view(u), k) == Folds.Project(view, k, Skipping(recipient)(u, k)) {
      EventsPlayNoPart(u, recipient, k);
    }
    Folds.FoldProjects(Skipping(recipient), Rounds(recipient), view, s, ids);
  }

  /** Listing the same ids in another order gives the same verdict, the same
      payouts, the same records and the same balances. */
  lemma BatchOrderIrrelevant(s: State, recipient: Address, ids: seq<u64>, other: seq<u64>)
    requires StreamsWellFormed(s) && recipient != s.self
    requires multiset(ids) == multiset(other) && |ids| <= MAX_BATCH_WITHDRAW
    ensures var a, b := BatchWithdraw(s, recipient, ids), BatchWithdraw(s, recipient, other);
            && (a.Ok? <==> b.Ok?)
            && (a.Ok? ==> && Quiet(a.value.0) == Quiet(b.value.0)
                          && multiset(a.value.1) == multiset(b.value.1))
  {
    assert |ids| == |multiset(ids)| == |multiset(other)| == |other|;
    BatchIsFold(s, recipient, ids);
    BatchIsFold(s, recipient, other);
    FoldIsRounds(s, recipient, ids);
    FoldIsRounds(s, recipient, other);
    RoundsCommute(recipient);
    assert forall id: u64 :: TryLoadStream(Quiet(s), id) == TryLoadStream(s, id);
    Folds.SequencePermutes(Rounds(recipient), (u: State) => StreamsWellFormed(u) && recipient != u.self && u.log == [],
                           Quiet(s), ids, other);
  }
}
