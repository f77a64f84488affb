/** Whole-run theorems: every record stays well formed, the contract stays
    solvent, finished streams never change again and ids are never reused. */
module Runs {
  import opened Bounded
  import opened Results
  import opened StreamTypes
  import opened Storage
  import opened Vesting
  import opened Entrypoints
  import opened Lifecycle
  import opened Solvency

  // ----- The batch loop, one round at a time -----

  predicate NothingToPay(e: Error) {
    e == StreamInactive || e == StreamIsPaused || e == InvalidAmount
  }

  /** A single withdrawal whose "nothing to pay" refusals count as a skip. */
  function WithdrawOrSkip(s: State, recipient: Address, id: u64): Result<(State, Option<i128>)> {
    match Withdraw(s, recipient, id)
    case Ok((t, amount)) => Ok((t, Some(amount)))
    case Err(e) => if NothingToPay(e) then Ok((s, None)) else Err(e)
  }

  /** Of any record at all, however odd: what is paid out can be added to what was paid
      before. */
  lemma PaymentFits(a: Stream, now: u64)
    requires 0 < Claimable(a, now)
    ensures FitsI128(a.withdrawn + Claimable(a, now))
  {
    assert Claimable(a, now) <= Remaining(a);
  }

  /** In every store the record update a batch round ignores cannot fail, so a round is
      exactly a single withdrawal or a skip. */
  lemma BatchRoundIsWithdrawOrSkip(s: State, recipient: Address, id: u64)
    requires recipient != s.self
    ensures BatchRound(s, recipient, id) == WithdrawOrSkip(s, recipient, id)
  {
    if TryLoadStream(s, id).Some? {
      var stream := TryLoadStream(s, id).value;
      if 0 < Claimable(stream, s.now) {
        PaymentFits(stream, s.now);
      }
    }
  }

  // ----- What holds between an earlier and a later state -----

  ghost predicate LaterAt(s: State, t: State, id: u64) {
    match TryLoadStream(s, id)
    case None => id in s.records && id in t.records ==> t.records[id] == s.records[id]
    case Some(a) =>
      id in t.records ==>
        && TryLoadStream(t, id).Some?
        && (!a.isActive ==> t.records[id] == s.records[id])
        && var b := TryLoadStream(t, id).value;
           && (b.sender, b.recipient, b.token, b.ratePerSecond, b.schedule, b.startTime)
           == (a.sender, a.recipient, a.token, a.ratePerSecond, a.schedule, a.startTime)
           && a.withdrawn <= b.withdrawn && a.deposited <= b.deposited
           && Entitlement(a, s.now) <= Entitlement(b, t.now)
  }

  /** Finished streams are frozen, streams keep their identity, no deposit,
      payment or entitlement ever shrinks, deleted and unreadable slots stay so, and an id once
      issued is never issued again. */
  ghost predicate Later(s: State, t: State) {
    && t.self == s.self
    && s.now <= t.now
    && s.counter <= t.counter
    && s.log <= t.log
    && (forall id: u64 :: id <= s.counter && id !in s.records ==> id !in t.records)
    && (forall id: u64 :: LaterAt(s, t, id))
  }

  lemma EvolvedIsLater(s: State, t: State)
    requires StreamsWellFormed(s) && Evolved(s, t)
    ensures Later(s, t)
  {
    forall id: u64 ensures LaterAt(s, t, id) && (id <= s.counter && id !in s.records ==> id !in t.records) {
      assert EvolvedAt(s, t, id);
      if id in s.records && id in t.records && t.records[id] != s.records[id] {
        MovedWellFormed(TryLoadStream(s, id).value, t.records[id].stream, s.now);
      }
    }
  }

  lemma LaterTransitive(s: State, t: State, u: State)
    requires Later(s, t) && Later(t, u)
    requires forall id :: id in s.records ==> 1 <= id <= s.counter
    ensures Later(s, u)
  {
    forall id: u64 ensures LaterAt(s, u, id) {
      assert LaterAt(s, t, id) && LaterAt(t, u, id);
      if id in s.records && id !in t.records {
        assert id !in u.records;
      }
    }
  }

  // ----- One call -----

  /** Tokens a step hands the contract without opening an obligation for them. */
  ghost predicate Inward(s: State, step: Step) {
    match step
    case Tick(_) => false
    case Mint(_, to, _) => to == s.self
    case Send(_, _, to, _) => to == s.self
    case Invoke(_, call) =>
      match call
      case CallInitialize(_, treasury, _) => treasury == s.self
      case CallUpdateFeeConfig(_, treasury, _) => treasury == s.self
      case CallCreateLinear(_, recipient, _, _, _) => recipient == s.self
      case CallCreateStep(_, recipient, _, _, _) => recipient == s.self
      case CallCreateHybrid(_, recipient, _, _, _, _, _) => recipient == s.self
      case _ => false
  }

  lemma {:induction false} BatchLoopKeeps(s: State, recipient: Address, ids: seq<u64>, paid: Payouts)
    requires StreamsWellFormed(s) && recipient != s.self
    requires BatchLoop(s, recipient, ids, paid).Ok?
    ensures var t := BatchLoop(s, recipient, ids, paid).value.0;
            && StreamsWellFormed(t) && Later(s, t)
            && (t.config, t.version, t.counter, t.now) == (s.config, s.version, s.counter, s.now)
            && forall k: Address :: Surplus(t, k) == Surplus(s, k)
    decreases |ids|
  {
    if ids != [] {
      BatchRoundIsWithdrawOrSkip(s, recipient, ids[0]);
      var (s1, amount) := BatchRound(s, recipient, ids[0]).value;
      if amount.Some? {
        WithdrawEffect(s, recipient, ids[0]);
        EvolvedWellFormed(s, s1);
        EvolvedIsLater(s, s1);
      }
      BatchLoopKeeps(s1, recipient, ids[1..],
        if amount.Some? then paid + [(ids[0], amount.value)] else paid);
      LaterTransitive(s, s1, BatchLoop(s, recipient, ids, paid).value.0);
    }
  }

  lemma AdminCallEvolves(s: State, call: Call)
    requires StreamsWellFormed(s)
    requires call.CallInitialize? || call.CallUpdateFeeConfig? || call.CallSetProtocolPause? || call.CallMigrate?
    ensures var t := Exec(s, call).0; Evolved(s, t) && SurplusKept(s, t) && t.counter == s.counter
    ensures TreasuryOutside(s) && !Inward(s, Invoke(s.tx, call)) ==> TreasuryOutside(Exec(s, call).0)
  {
    var t := Exec(s, call).0;
    assert t.records == s.records && t.counter == s.counter && t.balances == s.balances;
    forall id: u64 ensures EvolvedAt(s, t, id) {
    }
    forall k: Address ensures Surplus(t, k) == Surplus(s, k) {
      assert Balance(t, k, s.self) == Balance(s, k, s.self);
    }
  }

  lemma UnchangedEvolves(s: State)
    requires StreamsWellFormed(s)
    ensures Evolved(s, s) && SurplusKept(s, s)
  {
    forall id: u64 ensures EvolvedAt(s, s, id) {
    }
  }

  /** Every call other than a batch changes the store one record at a time and
      keeps the surplus. */
  lemma CallEvolves(s: State, call: Call)
    requires StreamsWellFormed(s) && !call.CallBatchWithdraw?
    ensures var t := Exec(s, call).0; Evolved(s, t) && SurplusKept(s, t)
    ensures TreasuryOutside(s) && !Inward(s, Invoke(s.tx, call)) ==> TreasuryOutside(Exec(s, call).0)
    ensures var t := Exec(s, call).0;
            t.counter == s.counter
            || (&& t.counter == s.counter + 1 && TryLoadStream(t, t.counter).Some?
                && (!Inward(s, Invoke(s.tx, call)) ==> TryLoadStream(t, t.counter).value.recipient != s.self))
  {
    if Exec(s, call).1.Failed? {
      UnchangedEvolves(s);
    } else {
      match call
      case CallInitialize(_, _, _) => AdminCallEvolves(s, call);
      case CallUpdateFeeConfig(_, _, _) => AdminCallEvolves(s, call);
      case CallSetProtocolPause(_, _) => AdminCallEvolves(s, call);
      case CallMigrate(_, _) => AdminCallEvolves(s, call);
      case CallCreateLinear(sender, recipient, token, amount, duration) =>
        CreateStreamEffect(s, sender, recipient, token, amount, duration);
      case CallCreateStep(sender, recipient, token, amount, steps) =>
        CreateStepEffect(s, sender, recipient, token, amount, steps);
      case CallCreateHybrid(sender, recipient, token, amount, cliffTime, cliffAmount, linearDuration) =>
        CreateHybridEffect(s, sender, recipient, token, amount, cliffTime, cliffAmount, linearDuration);
      case CallTopUp(sender, id, amount) => TopUpEffect(s, sender, id, amount);
      case CallWithdraw(recipient, id) => WithdrawEffect(s, recipient, id);
      case CallCancel(sender, id) => CancelEffect(s, sender, id);
      case CallClose(caller, id) => CloseEffect(s, caller, id);
      case CallPause(sender, id) => PauseEffect(s, sender, id);
      case CallResume(sender, id) => ResumeEffect(s, sender, id);
    }
  }

  lemma CallKeeps(s: State, call: Call)
    requires StreamsWellFormed(s)
    ensures var t := Exec(s, call).0; StreamsWellFormed(t) && Later(s, t) && SurplusKept(s, t)
  {
    var t := Exec(s, call).0;
    if call.CallBatchWithdraw? {
      if BatchWithdraw(s, call.recipient, call.ids).Ok? {
        BatchLoopKeeps(s, call.recipient, call.ids, []);
      } else {
        UnchangedEvolves(s);
        EvolvedIsLater(s, s);
      }
    } else {
      CallEvolves(s, call);
      EvolvedWellFormed(s, t);
      EvolvedIsLater(s, t);
    }
  }

  // ----- One step -----

  lemma BalancesMoved(s: State, t: State)
    requires StreamsWellFormed(s) && t == s.(balances := t.balances)
    requires forall k: Address :: Balance(s, k, s.self) <= Balance(t, k, s.self)
    ensures StreamsWellFormed(t) && Later(s, t)
    ensures forall k: Address :: Surplus(s, k) <= Surplus(t, k)
    ensures (forall k: Address :: Balance(s, k, s.self) == Balance(t, k, s.self)) ==> SurplusKept(s, t)
  {
    assert forall id: u64 :: TryLoadStream(t, id) == TryLoadStream(s, id);
  }

  lemma InvokeKeeps(s: State, tx: TxHash, call: Call)
    requires StreamsWellFormed(s)
    ensures var t := Advance(s, Invoke(tx, call));
            && StreamsWellFormed(t) && Later(s, t)
            && (forall k: Address :: Surplus(s, k) <= Surplus(t, k))
            && (Outward(s) ==> forall k: Address :: Surplus(t, k) == Surplus(s, k))
  {
    var s1 := s.(tx := tx);
    assert forall id: u64 :: TryLoadStream(s1, id) == TryLoadStream(s, id);
    assert forall k: Address :: Surplus(s1, k) == Surplus(s, k);
    assert Outward(s) ==> Outward(s1) by {
      assert forall id: u64 :: RecipientOutside(s, id) ==> RecipientOutside(s1, id);
    }
    CallKeeps(s1, call);
    var t := Exec(s1, call).0;
    assert Later(s, t) by {
      assert forall id: u64 :: LaterAt(s1, t, id) ==> LaterAt(s, t, id);
    }
  }

  lemma StepKeeps(s: State, step: Step)
    requires StreamsWellFormed(s)
    ensures var t := Advance(s, step);
            && StreamsWellFormed(t) && Later(s, t)
            && (forall k: Address :: Surplus(s, k) <= Surplus(t, k))
            && (Outward(s) && !Inward(s, step) ==> forall k: Address :: Surplus(t, k) == Surplus(s, k))
  {
    var t := Advance(s, step);
    match step
    case Invoke(tx, call) => InvokeKeeps(s, tx, call);
    case Tick(d) =>
      assert forall id: u64 :: TryLoadStream(t, id) == TryLoadStream(s, id);
      forall id: u64 | TryLoadStream(s, id).Some?
        ensures WellFormed(TryLoadStream(s, id).value, t.now)
        ensures Entitlement(TryLoadStream(s, id).value, s.now) <= Entitlement(TryLoadStream(s, id).value, t.now)
      {
        EntitlementGrows(TryLoadStream(s, id).value, s.now, t.now);
      }
      assert forall k: Address :: Surplus(t, k) == Surplus(s, k);
    case Mint(_, _, _) =>
      BalancesMoved(s, t);
    case Send(token, from, to, amount) =>
      if t != s {
        TransferConserves(s, token, from, to, amount);
      }
      BalancesMoved(s, t);
  }

  lemma OutwardCarriesOver(s: State, t: State)
    requires StreamsWellFormed(s) && StreamsWellFormed(t) && Later(s, t)
    requires Outward(s) && TreasuryOutside(t)
    requires t.counter == s.counter
          || (t.counter == s.counter + 1 && TryLoadStream(t, t.counter).Some?
              && TryLoadStream(t, t.counter).value.recipient != s.self)
    ensures Outward(t)
  {
    forall id: u64 ensures RecipientOutside(t, id) {
      assert RecipientOutside(s, id) && LaterAt(s, t, id);
      if id in t.records && id !in s.records {
        assert id == t.counter;
      }
    }
  }

  /** Staying clear of inward payments keeps the contract out of both roles. */
  lemma OutwardKept(s: State, call: Call)
    requires StreamsWellFormed(s) && Outward(s) && !Inward(s, Invoke(s.tx, call))
    ensures Outward(Exec(s, call).0)
  {
    var t := Exec(s, call).0;
    CallKeeps(s, call);
    assert && TreasuryOutside(t)
           && (t.counter == s.counter
               || (t.counter == s.counter + 1 && TryLoadStream(t, t.counter).Some?
                   && TryLoadStream(t, t.counter).value.recipient != s.self)) by {
      if !call.CallBatchWithdraw? {
        CallEvolves(s, call);
      } else if BatchWithdraw(s, call.recipient, call.ids).Ok? {
        BatchLoopKeeps(s, call.recipient, call.ids, []);
      }
    }
    OutwardCarriesOver(s, t);
  }

  // ----- Whole runs -----

  ghost predicate OutwardRun(s: State, steps: seq<Step>) {
    forall i :: 0 <= i < |steps| ==> !Inward(s, steps[i])
  }

  lemma OutwardStep(s: State, step: Step)
    requires StreamsWellFormed(s) && Outward(s) && !Inward(s, step)
    ensures Outward(Advance(s, step))
  {
    match step
    case Invoke(tx, call) =>
      var s1 := s.(tx := tx);
      assert forall id: u64 :: TryLoadStream(s1, id) == TryLoadStream(s, id);
      assert forall id: u64 :: RecipientOutside(s, id) ==> RecipientOutside(s1, id);
      OutwardKept(s1, call);
    case _ =>
      var t := Advance(s, step);
      assert t.records == s.records && t.config == s.config && t.self == s.self;
      assert forall id: u64 :: RecipientOutside(s, id) ==> RecipientOutside(t, id);
  }

  /** Over every run from a well-formed store: records stay well formed, nothing
      finished or deleted comes back, no id is reused, and the surplus of holdings
      over obligations never shrinks; it stays exactly the same when nobody pays
      the contract itself. */
  lemma {:induction false} RunInvariant(s: State, steps: seq<Step>)
    requires StreamsWellFormed(s)
    ensures var t := Run(s, steps);
            && StreamsWellFormed(t) && Later(s, t)
            && (forall k: Address :: Surplus(s, k) <= Surplus(t, k))
            && (Outward(s) && OutwardRun(s, steps) ==>
                  Outward(t) && forall k: Address :: Surplus(t, k) == Surplus(s, k))
    decreases |steps|
  {
    if steps == [] {
      UnchangedEvolves(s);
      EvolvedIsLater(s, s);
    } else {
      var front, step := steps[..|steps| - 1], steps[|steps| - 1];
      var m := Run(s, front);
      RunInvariant(s, front);
      StepKeeps(m, step);
      LaterTransitive(s, m, Advance(m, step));
      if Outward(s) && OutwardRun(s, steps) {
        assert !Inward(s, step) && !Inward(m, step);
        OutwardStep(m, step);
      }
    }
  }

  /** A deployment with no streams yet. */
  ghost predicate Genesis(s: State) {
    s.records == map[] && s.counter == 0 && s.config == None && s.version == 0 && s.log == []
  }

  lemma GenesisWellFormed(s: State)
    requires Genesis(s)
    ensures StreamsWellFormed(s)
    ensures Outward(s) && forall k: Address :: Owed(s, k) == 0
  {
    assert forall id: u64 :: RecipientOutside(s, id);
  }

  /** Solvency: whatever has happened, the contract can cover every active stream
      in every token; to the token exactly, beyond what it held at deployment, when
      it is never a recipient or treasury and receives no gifts. */
  lemma SolvencyOverEveryRun(s: State, steps: seq<Step>)
    requires Genesis(s)
    ensures Solvent(Run(s, steps))
    ensures OutwardRun(s, steps) ==> forall k: Address ::
              Balance(Run(s, steps), k, s.self) == Balance(s, k, s.self) + Owed(Run(s, steps), k)
  {
    GenesisWellFormed(s);
    RunInvariant(s, steps);
    var t := Run(s, steps);
    forall k: Address
      ensures Owed(t, k) <= Balance(t, k, t.self)
      ensures OutwardRun(s, steps) ==> Balance(t, k, s.self) == Balance(s, k, s.self) + Owed(t, k)
    {
      assert Surplus(s, k) == Balance(s, k, s.self);
      assert Surplus(s, k) <= Surplus(t, k);
    }
  }

  /** A cancelled or completed stream reads the same for ever, until its record is
      deleted; once deleted, or once its id was issued and is gone, it stays gone. */
  lemma FinishedStreamsAreFinal(s: State, steps: seq<Step>, id: u64)
    requires StreamsWellFormed(s) && TryLoadStream(s, id).Some?
    requires TryLoadStream(s, id).value.status == Cancelled || TryLoadStream(s, id).value.status == Completed
    ensures var t := Run(s, steps);
            && (TryLoadStream(t, id) == TryLoadStream(s, id) || id !in t.records)
            && (id !in t.records ==> forall more: seq<Step> :: id !in Run(t, more).records)
  {
    RunInvariant(s, steps);
    var t := Run(s, steps);
    assert LaterAt(s, t, id);
    if id !in t.records {
      forall more: seq<Step> ensures id !in Run(t, more).records {
        RunInvariant(t, more);
      }
    }
  }

  /** In any reachable store the balance checks of a close never refuse: an
      authorised caller can delete exactly the finished streams. */
  lemma CloseSucceedsIff(s: State, caller: Address, id: u64)
    requires StreamsWellFormed(s) && TryLoadStream(s, id).Some?
    ensures CloseStream(s, caller, id).Ok?
       <==> var stream := TryLoadStream(s, id).value;
            && caller != s.self
            && (caller == stream.sender || caller == stream.recipient
                || (TryLoadConfig(s).Some? && TryLoadConfig(s).value.admin == caller))
            && (stream.status == Completed || stream.status == Cancelled)
  {
    ClaimableIsEarnedMinusPaid(TryLoadStream(s, id).value, s.now);
  }

  /** Money already earned can always be taken out: given a solvent store, a
      withdrawal by the recipient of an active, unpaused stream succeeds if and
      only if something is claimable and the recipient's balance has room for it.
      The protocol pause plays no part. */
  lemma WithdrawSucceedsIff(s: State, id: u64)
    requires StreamsWellFormed(s) && Solvent(s) && TryLoadStream(s, id).Some?
    requires var stream := TryLoadStream(s, id).value; stream.recipient != s.self
    ensures var stream := TryLoadStream(s, id).value;
            var due := Claimable(stream, s.now);
            && Withdraw(s, stream.recipient, id).Ok?
               == (stream.status == Active && 0 < due && Balance(s, stream.token, stream.recipient) + due <= I128_MAX)
            && (Withdraw(s, stream.recipient, id).Ok? ==> Withdraw(s, stream.recipient, id).value.1 == due)
  {
    var stream := TryLoadStream(s, id).value;
    ClaimableIsEarnedMinusPaid(stream, s.now);
    if stream.isActive {
      DueIsPartOfOwed(s, stream.token, id, s.counter);
      assert Owed(s, stream.token) <= Balance(s, stream.token, s.self);
    }
  }

  /** In a solvent contract the sender can always cancel an active stream, unless
      a payee's balance could not hold what it is owed; and the deposit is settled
      in full, the accrued part to the recipient and the rest back to the sender. */
  lemma CancelSettlesInFull(s: State, id: u64)
    requires StreamsWellFormed(s) && Solvent(s) && TryLoadStream(s, id).Some?
    requires var a := TryLoadStream(s, id).value; a.isActive && a.recipient != s.self
    ensures var a := TryLoadStream(s, id).value;
            var accrued := Claimable(a, s.now);
            var refund := a.deposited - a.withdrawn - accrued;
            var done := CancelStream(s, a.sender, id);
            var toSender := refund + if a.sender == a.recipient then accrued else 0;
            && 0 <= accrued && 0 <= refund
            && (done.Ok? <==> && Balance(s, a.token, a.recipient) + accrued <= I128_MAX
                              && Balance(s, a.token, a.sender) + toSender <= I128_MAX)
            && (done.Ok? ==>
                  && Balance(done.value.0, a.token, a.sender) == Balance(s, a.token, a.sender) + toSender
                  && (a.recipient != a.sender ==>
                        Balance(done.value.0, a.token, a.recipient) == Balance(s, a.token, a.recipient) + accrued))
  {
    var a := TryLoadStream(s, id).value;
    var b := CancelledStream(a, s.now);
    var accrued, refund := Claimable(a, s.now), a.deposited - a.withdrawn - Claimable(a, s.now);
    CancelledWellFormed(a, s.now);
    ClaimableIsEarnedMinusPaid(a, s.now);
    DueIsPartOfOwed(s, a.token, id, s.counter);
    assert accrued + refund <= Owed(s, a.token) <= Balance(s, a.token, s.self);
    assert refund == SaturatingSub(b.deposited, b.withdrawn);
    var s1 := SaveStream(s, id, b);
    assert forall w: Address :: Balance(s1, a.token, w) == Balance(s, a.token, w);
    PaidOut(s1, a.token, a.recipient, accrued);
    if Transfer(s1, a.token, s.self, a.recipient, accrued).Ok? {
      PaidOut(Transfer(s1, a.token, s.self, a.recipient, accrued).value, a.token, a.sender, refund);
    }
    CancelUnfolds(s, id, a);
  }

  /** A payment by the contract goes through exactly when the contract holds the
      amount and the payee has room for it. */
  lemma PaidOut(s: State, token: Address, to: Address, amount: int)
    requires 0 <= amount <= Balance(s, token, s.self)
    ensures to != s.self ==>
              (Transfer(s, token, s.self, to, amount).Ok? <==> Balance(s, token, to) + amount <= I128_MAX)
    ensures to == s.self ==> Transfer(s, token, s.self, to, amount).Ok?
    ensures Transfer(s, token, s.self, to, amount).Ok? ==>
              var t := Transfer(s, token, s.self, to, amount).value;
              && t.self == s.self
              && Balance(t, token, s.self) == Balance(s, token, s.self) - (if to == s.self then 0 else amount)
              && (forall w: Address :: w != s.self ==>
                    Balance(t, token, w) == Balance(s, token, w) + if w == to then amount else 0)
  {
  }

  ghost predicate SameBalances(s: State, t: State) {
    s.self == t.self && forall k: Address, w: Address :: Balance(s, k, w) == Balance(t, k, w)
  }

  lemma TransferFollowsBalances(s: State, t: State, token: Address, from: Address, to: Address, amount: int)
    requires SameBalances(s, t)
    ensures Transfer(s, token, from, to, amount).Ok? <==> Transfer(t, token, from, to, amount).Ok?
    ensures Transfer(s, token, from, to, amount).Ok? ==>
              SameBalances(Transfer(s, token, from, to, amount).value, Transfer(t, token, from, to, amount).value)
  {
    assert Balance(s, token, from) == Balance(t, token, from);
    assert Balance(s, token, to) == Balance(t, token, to);
    if Transfer(s, token, from, to, amount).Ok? && Transfer(t, token, from, to, amount).Ok? {
      var s1, t1 := Transfer(s, token, from, to, amount).value, Transfer(t, token, from, to, amount).value;
      forall k: Address, w: Address ensures Balance(s1, k, w) == Balance(t1, k, w) {
        assert Balance(s, k, w) == Balance(t, k, w);
      }
    }
  }

  lemma ZeroTransfer(s: State, token: Address, from: Address, to: Address)
    ensures Transfer(s, token, from, to, 0).Ok? && SameBalances(s, Transfer(s, token, from, to, 0).value)
  {
  }

  lemma PayIfAnyIsTransfer(s: State, t: State, token: Address, to: Address, amount: nat)
    requires SameBalances(s, t)
    ensures PayIfAny(s, token, to, amount).Ok? <==> Transfer(t, token, t.self, to, amount).Ok?
    ensures PayIfAny(s, token, to, amount).Ok? ==>
              SameBalances(PayIfAny(s, token, to, amount).value, Transfer(t, token, t.self, to, amount).value)
  {
    TransferFollowsBalances(s, t, token, s.self, to, amount);
    if amount == 0 {
      ZeroTransfer(s, token, s.self, to);
    }
  }

  /** Skipping a transfer of nothing and making it come to the same balances. */
  lemma CancelUnfolds(s: State, id: u64, a: Stream)
    requires TryLoadStream(s, id) == Some(a) && a.isActive && a.sender != s.self
    requires WellFormed(a, s.now)
    ensures var s1 := SaveStream(s, id, CancelledStream(a, s.now));
            var accrued, refund := Claimable(a, s.now), a.deposited - a.withdrawn - Claimable(a, s.now);
            var r1 := Transfer(s1, a.token, s.self, a.recipient, accrued);
            var r2 := if r1.Ok? then Transfer(r1.value, a.token, s.self, a.sender, refund) else r1;
            && (r2.Ok? <==> CancelStream(s, a.sender, id).Ok?)
            && (r2.Ok? ==> SameBalances(CancelStream(s, a.sender, id).value.0, r2.value))
  {
    CancelledWellFormed(a, s.now);
    ClaimableIsEarnedMinusPaid(a, s.now);
    var b := CancelledStream(a, s.now);
    var s1 := SaveStream(s, id, b);
    var accrued, refund := Claimable(a, s.now), a.deposited - a.withdrawn - Claimable(a, s.now);
    assert refund == SaturatingSub(b.deposited, b.withdrawn);
    PayIfAnyIsTransfer(s1, s1, a.token, a.recipient, accrued);
    var p1 := PayIfAny(s1, a.token, a.recipient, accrued);
    if p1.Ok? {
      PayIfAnyIsTransfer(p1.value, Transfer(s1, a.token, s.self, a.recipient, accrued).value, a.token, a.sender,
                         refund);
      var p2 := PayIfAny(p1.value, a.token, a.sender, refund);
      assert p2.Ok? ==>
        SameBalances(Emit(p2.value, StreamCancelled(id, a.sender, b.recipient, b.withdrawn, refund)), p2.value);
    }
  }
}
