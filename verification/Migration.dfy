/** Lazy migration against eager migration: a store that still mixes old and new
    records answers every call exactly as the store with every record widened. */
module Migration {
  import opened Bounded
  import opened Results
  import opened StreamTypes
  import opened Storage
  import opened Vesting
  import opened Entrypoints
  import opened Runs

  /** A legacy record with the schedule it has always followed. */
  function Scheduled(l: LegacyStream): Stream {
    Stream(sender := l.sender, recipient := l.recipient, token := l.token, ratePerSecond := l.ratePerSecond,
           deposited := l.deposited, withdrawn := l.withdrawn, startTime := l.startTime, lastUpdate := l.lastUpdate,
           isActive := l.isActive, paused := l.paused, pausedAt := l.pausedAt, status := l.status,
           schedule := Linear)
  }

  /** Legacy settings with the breaker off and no guardian. */
  function Guarded(l: LegacyConfig): ProtocolConfig {
    ProtocolConfig(admin := l.admin, treasury := l.treasury, feeRateBps := l.feeRateBps,
                   isProtocolPaused := false, emergencyGuardian := None)
  }

  function WidenRecord(r: StoredStream): StoredStream {
    match r
    case OldStream(l) => CurrentStream(Scheduled(l))
    case _ => r
  }

  function WidenRecords(records: map<u64, StoredStream>): map<u64, StoredStream> {
    map id | id in records :: WidenRecord(records[id])
  }

  function WidenConfig(config: Option<StoredConfig>): Option<StoredConfig> {
    match config
    case None => None
    case Some(OldConfig(l)) => Some(CurrentConfig(Guarded(l)))
    case Some(r) => Some(r)
  }

  /** The eager sweep the host offers no way to perform. */
  function Widen(s: State): State {
    s.(records := WidenRecords(s.records), config := WidenConfig(s.config))
  }

  ghost function Widened<T>(r: Result<(State, T)>): Result<(State, T)> {
    match r
    case Ok((s, value)) => Ok((Widen(s), value))
    case Err(e) => Err(e)
  }

  ghost function WidenedState(r: Result<State>): Result<State> {
    match r
    case Ok(s) => Ok(Widen(s))
    case Err(e) => Err(e)
  }

  /** Slots are only ever overwritten with the current shape. */
  ghost predicate WritesCurrent(s: State, t: State) {
    forall id: u64 :: id in t.records ==>
      t.records[id].CurrentStream? || (id in s.records && t.records[id] == s.records[id])
  }

  // ----- Reads and writes -----

  lemma ReadsAgree(s: State, id: u64)
    ensures TryLoadStream(Widen(s), id) == TryLoadStream(s, id)
    ensures TryLoadConfig(Widen(s)) == TryLoadConfig(s)
  {
  }

  lemma SaveWidens(s: State, id: u64, stream: Stream)
    ensures Widen(SaveStream(s, id, stream)) == SaveStream(Widen(s), id, stream)
  {
    assert WidenRecords(s.records[id := CurrentStream(stream)]) == WidenRecords(s.records)[id := CurrentStream(stream)];
  }

  lemma RemoveWidens(s: State, id: u64)
    ensures Widen(RemoveStream(s, id)) == RemoveStream(Widen(s), id)
  {
    assert WidenRecords(s.records - {id}) == WidenRecords(s.records) - {id};
  }

  lemma TransferWidens(s: State, token: Address, from: Address, to: Address, amount: int)
    ensures Transfer(Widen(s), token, from, to, amount) == WidenedState(Transfer(s, token, from, to, amount))
    ensures Transfer(s, token, from, to, amount).Ok? ==>
              var t := Transfer(s, token, from, to, amount).value; t == s.(balances := t.balances)
  {
    assert forall k: Address, w: Address :: Balance(Widen(s), k, w) == Balance(s, k, w);
  }

  lemma FeeWidens(s: State, token: Address, amount: i128, id: u64)
    requires amount > 0
    ensures CollectFee(Widen(s), token, amount, id) == Widened(CollectFee(s, token, amount, id))
    ensures CollectFee(s, token, amount, id).Ok? ==>
              var t := CollectFee(s, token, amount, id).value.0; t == s.(balances := t.balances, log := t.log)
  {
    ReadsAgree(s, id);
    if TryLoadConfig(s).Some? {
      var config := TryLoadConfig(s).value;
      if FitsI128(amount * config.feeRateBps) {
        TransferWidens(s, token, s.self, config.treasury, FeeOf(amount, config.feeRateBps));
      }
    }
  }

  // ----- Entrypoints -----

  lemma DepositWidens(s: State, token: Address, sender: Address, amount: i128, id: u64)
    requires amount > 0
    ensures var r := Deposit(s, token, sender, amount, id);
            && Deposit(Widen(s), token, sender, amount, id) == Widened(r)
            && (r.Ok? ==> r.value.0.records == s.records)
  {
    TransferWidens(s, token, sender, s.self, amount);
    if Transfer(s, token, sender, s.self, amount).Ok? {
      FeeWidens(Transfer(s, token, sender, s.self, amount).value, token, amount, id);
    }
  }

  lemma RecordWidens(s: State, id: u64, stream: Stream, event: Event)
    ensures Emit(SaveStream(Widen(s), id, stream), event) == Widen(Emit(SaveStream(s, id, stream), event))
  {
    SaveWidens(s, id, stream);
  }

  lemma OpenLinearWidens(s: State, id: u64, sender: Address, recipient: Address, token: Address, net: i128,
                         duration: u64)
    requires duration != 0
    ensures OpenLinear(Widen(s), id, sender, recipient, token, net, duration)
         == Widened(OpenLinear(s, id, sender, recipient, token, net, duration))
  {
    TruncDivFits(net, duration);
    var rate := TruncDiv(net, duration);
    RecordWidens(s, id, OpenStream(sender, recipient, token, rate, net, s.now, Linear),
                 StreamCreated(id, sender, recipient, rate, token, net, s.now));
  }

  lemma OpenStepsWidens(s: State, id: u64, sender: Address, recipient: Address, token: Address, net: i128,
                        steps: seq<VestingStep>)
    requires |steps| != 0
    ensures OpenSteps(Widen(s), id, sender, recipient, token, net, steps)
         == Widened(OpenSteps(s, id, sender, recipient, token, net, steps))
  {
    RecordWidens(s, id, OpenStream(sender, recipient, token, 0, net, s.now, StepTranches(steps)),
                 StepVestingCreated(id, sender, recipient, token, net, |steps|, steps[|steps| - 1].unlockTime));
  }

  lemma OpenHybridWidens(s: State, id: u64, sender: Address, recipient: Address, token: Address, net: i128,
                         cliffTime: u64, cliffAmount: i128, linearDuration: u64)
    requires linearDuration != 0
    ensures OpenHybrid(Widen(s), id, sender, recipient, token, net, cliffTime, cliffAmount, linearDuration)
         == Widened(OpenHybrid(s, id, sender, recipient, token, net, cliffTime, cliffAmount, linearDuration))
  {
    if 0 < cliffAmount < net {
      TruncDivFits(net - cliffAmount, linearDuration);
      var rate := TruncDiv(net - cliffAmount, linearDuration);
      RecordWidens(s, id,
        OpenStream(sender, recipient, token, rate, net, s.now, HybridCliffLinear(cliffTime, cliffAmount)),
                   HybridCliffCreated(id, sender, recipient, token, net, cliffTime, cliffAmount, rate));
    }
  }

  lemma CreditTopUpWidens(s: State, sender: Address, id: u64, stream: Stream, net: i128)
    ensures CreditTopUp(Widen(s), sender, id, stream, net) == Widened(CreditTopUp(s, sender, id, stream, net))
  {
    if CreditTopUp(s, sender, id, stream, net).Ok? {
      SaveWidens(s, id, stream.(deposited := stream.deposited + net));
    }
  }

  /** Id and deposit, common to all three kinds of create. */
  lemma FundingWidens(s: State, token: Address, sender: Address, amount: i128)
    requires amount > 0 && NextStreamId(s).Ok?
    ensures var (s1, id) := NextStreamId(s).value;
            && NextStreamId(Widen(s)) == Ok((Widen(s1), id))
            && Deposit(Widen(s1), token, sender, amount, id) == Widened(Deposit(s1, token, sender, amount, id))
  {
    var (s1, id) := NextStreamId(s).value;
    DepositWidens(s1, token, sender, amount, id);
  }

  lemma CreateStreamWidens(s: State, sender: Address, recipient: Address, token: Address, amount: i128, duration: u64)
    ensures CreateStream(Widen(s), sender, recipient, token, amount, duration)
         == Widened(CreateStream(s, sender, recipient, token, amount, duration))
  {
    ReadsAgree(s, 0);
    if amount > 0 && duration != 0 && NextStreamId(s).Ok? {
      FundingWidens(s, token, sender, amount);
      var (s1, id) := NextStreamId(s).value;
      if Deposit(s1, token, sender, amount, id).Ok? {
        var (s3, net) := Deposit(s1, token, sender, amount, id).value;
        OpenLinearWidens(s3, id, sender, recipient, token, net, duration);
      }
    }
  }

  lemma CreateStepWidens(s: State, sender: Address, recipient: Address, token: Address, amount: i128,
                         steps: seq<VestingStep>)
    ensures CreateStepVestingStream(Widen(s), sender, recipient, token, amount, steps)
         == Widened(CreateStepVestingStream(s, sender, recipient, token, amount, steps))
  {
    ReadsAgree(s, 0);
    if amount > 0 && |steps| != 0 && NextStreamId(s).Ok? {
      FundingWidens(s, token, sender, amount);
      var (s1, id) := NextStreamId(s).value;
      if Deposit(s1, token, sender, amount, id).Ok? {
        var (s3, net) := Deposit(s1, token, sender, amount, id).value;
        OpenStepsWidens(s3, id, sender, recipient, token, net, steps);
      }
    }
  }

  lemma CreateHybridWidens(s: State, sender: Address, recipient: Address, token: Address, amount: i128,
                           cliffTime: u64, cliffAmount: i128, linearDuration: u64)
    ensures CreateHybridCliffStream(Widen(s), sender, recipient, token, amount, cliffTime, cliffAmount, linearDuration)
         == Widened(CreateHybridCliffStream(s, sender, recipient, token, amount, cliffTime, cliffAmount,
                                            linearDuration))
  {
    ReadsAgree(s, 0);
    if amount > 0 && linearDuration != 0 && NextStreamId(s).Ok? {
      FundingWidens(s, token, sender, amount);
      var (s1, id) := NextStreamId(s).value;
      if Deposit(s1, token, sender, amount, id).Ok? {
        var (s3, net) := Deposit(s1, token, sender, amount, id).value;
        OpenHybridWidens(s3, id, sender, recipient, token, net, cliffTime, cliffAmount, linearDuration);
      }
    }
  }

  lemma TopUpWidens(s: State, sender: Address, id: u64, amount: i128)
    ensures TopUpStream(Widen(s), sender, id, amount) == Widened(TopUpStream(s, sender, id, amount))
  {
    ReadsAgree(s, id);
    if amount > 0 && TryLoadStream(s, id).Some? {
      var stream := TryLoadStream(s, id).value;
      DepositWidens(s, stream.token, sender, amount, id);
      if Deposit(s, stream.token, sender, amount, id).Ok? {
        var (s2, net) := Deposit(s, stream.token, sender, amount, id).value;
        CreditTopUpWidens(s2, sender, id, stream, net);
      }
    }
  }

  lemma ApplyWidens(s: State, stream: Stream, id: u64, recipient: Address, amount: i128)
    ensures ApplyWithdrawal(Widen(s), stream, id, recipient, amount)
         == Widened(ApplyWithdrawal(s, stream, id, recipient, amount))
  {
    if Credited(stream, amount, s.now).Ok? {
      var paid := Credited(stream, amount, s.now).value;
      SaveWidens(s, id, paid);
      TransferWidens(SaveStream(s, id, paid), paid.token, s.self, recipient, amount);
    }
  }

  lemma EmitWithdrawalWidens(s: State, stream: Stream, id: u64, recipient: Address, amount: i128)
    ensures EmitWithdrawal(Widen(s), stream, id, recipient, amount)
         == Widen(EmitWithdrawal(s, stream, id, recipient, amount))
  {
  }

  lemma WithdrawWidens(s: State, recipient: Address, id: u64)
    ensures Withdraw(Widen(s), recipient, id) == Widened(Withdraw(s, recipient, id))
  {
    ReadsAgree(s, id);
    if TryLoadStream(s, id).Some? {
      var stream := TryLoadStream(s, id).value;
      var amount := Claimable(stream, s.now);
      ApplyWidens(s, stream, id, recipient, amount);
      if ApplyWithdrawal(s, stream, id, recipient, amount).Ok? {
        var (s1, paid) := ApplyWithdrawal(s, stream, id, recipient, amount).value;
        EmitWithdrawalWidens(s1, paid, id, recipient, amount);
      }
    }
  }

  lemma BatchRoundWidens(s: State, recipient: Address, id: u64)
    ensures BatchRound(Widen(s), recipient, id) == Widened(BatchRound(s, recipient, id))
  {
    ReadsAgree(s, id);
    if TryLoadStream(s, id).Some? {
      var stream := TryLoadStream(s, id).value;
      var amount := Claimable(stream, s.now);
      ApplyWidens(s, stream, id, recipient, amount);
      EmitWithdrawalWidens(s, stream, id, recipient, amount);
      if ApplyWithdrawal(s, stream, id, recipient, amount).Ok? {
        var (s1, paid) := ApplyWithdrawal(s, stream, id, recipient, amount).value;
        EmitWithdrawalWidens(s1, paid, id, recipient, amount);
      }
    }
  }

  lemma {:induction false} BatchLoopWidens(s: State, recipient: Address, ids: seq<u64>, paid: Payouts)
    ensures BatchLoop(Widen(s), recipient, ids, paid) == Widened(BatchLoop(s, recipient, ids, paid))
    decreases |ids|
  {
    if ids != [] {
      BatchRoundWidens(s, recipient, ids[0]);
      if BatchRound(s, recipient, ids[0]).Ok? {
        var (s1, amount) := BatchRound(s, recipient, ids[0]).value;
        BatchLoopWidens(s1, recipient, ids[1..], if amount.Some? then paid + [(ids[0], amount.value)] else paid);
      }
    }
  }

  lemma PayIfAnyWidens(s: State, token: Address, to: Address, amount: int)
    ensures PayIfAny(Widen(s), token, to, amount) == WidenedState(PayIfAny(s, token, to, amount))
  {
    TransferWidens(s, token, s.self, to, amount);
  }

  lemma CancelWidens(s: State, sender: Address, id: u64)
    ensures CancelStream(Widen(s), sender, id) == Widened(CancelStream(s, sender, id))
  {
    ReadsAgree(s, id);
    if TryLoadStream(s, id).Some? {
      var stream := TryLoadStream(s, id).value;
      var closed := CancelledStream(stream, s.now);
      var accrued, refund := Claimable(stream, s.now), SaturatingSub(closed.deposited, closed.withdrawn);
      SaveWidens(s, id, closed);
      var s1 := SaveStream(s, id, closed);
      PayIfAnyWidens(s1, closed.token, closed.recipient, accrued);
      if PayIfAny(s1, closed.token, closed.recipient, accrued).Ok? {
        PayIfAnyWidens(PayIfAny(s1, closed.token, closed.recipient, accrued).value, closed.token, sender, refund);
      }
    }
  }

  lemma CloseWidens(s: State, caller: Address, id: u64)
    ensures CloseStream(Widen(s), caller, id) == Widened(CloseStream(s, caller, id))
  {
    ReadsAgree(s, id);
    RemoveWidens(s, id);
  }

  lemma PauseWidens(s: State, sender: Address, id: u64)
    ensures PauseStream(Widen(s), sender, id) == Widened(PauseStream(s, sender, id))
  {
    ReadsAgree(s, id);
    if TryLoadStream(s, id).Some? {
      SaveWidens(s, id, PausedStream(TryLoadStream(s, id).value, s.now));
    }
  }

  lemma ResumeWidens(s: State, sender: Address, id: u64)
    ensures ResumeStream(Widen(s), sender, id) == Widened(ResumeStream(s, sender, id))
  {
    ReadsAgree(s, id);
    if TryLoadStream(s, id).Some? {
      SaveWidens(s, id, ResumedStream(TryLoadStream(s, id).value, s.now));
    }
  }

  lemma AdminCallWidens(s: State, call: Call)
    requires call.CallInitialize? || call.CallUpdateFeeConfig? || call.CallSetProtocolPause? || call.CallMigrate?
    ensures Exec(Widen(s), call) == (Widen(Exec(s, call).0), Exec(s, call).1)
  {
    ReadsAgree(s, 0);
  }

  lemma CallWidens(s: State, call: Call)
    ensures Exec(Widen(s), call) == (Widen(Exec(s, call).0), Exec(s, call).1)
  {
    match call
    case CallCreateLinear(sender, recipient, token, amount, duration) =>
      CreateStreamWidens(s, sender, recipient, token, amount, duration);
    case CallCreateStep(sender, recipient, token, amount, steps) =>
      CreateStepWidens(s, sender, recipient, token, amount, steps);
    case CallCreateHybrid(sender, recipient, token, amount, cliffTime, cliffAmount, linearDuration) =>
      CreateHybridWidens(s, sender, recipient, token, amount, cliffTime, cliffAmount, linearDuration);
    case CallTopUp(sender, id, amount) => TopUpWidens(s, sender, id, amount);
    case CallWithdraw(recipient, id) => WithdrawWidens(s, recipient, id);
    case CallBatchWithdraw(recipient, ids) => BatchLoopWidens(s, recipient, ids, []);
    case CallCancel(sender, id) => CancelWidens(s, sender, id);
    case CallClose(caller, id) => CloseWidens(s, caller, id);
    case CallPause(sender, id) => PauseWidens(s, sender, id);
    case CallResume(sender, id) => ResumeWidens(s, sender, id);
    case _ => AdminCallWidens(s, call);
  }

  // ----- Writes -----

  lemma DepositKeepsRecords(s: State, token: Address, sender: Address, amount: i128, id: u64)
    requires amount > 0 && Deposit(s, token, sender, amount, id).Ok?
    ensures var t := Deposit(s, token, sender, amount, id).value.0; t == s.(balances := t.balances, log := t.log)
  {
    TransferWidens(s, token, sender, s.self, amount);
    FeeWidens(Transfer(s, token, sender, s.self, amount).value, token, amount, id);
  }

  lemma CreateWrites(s: State, call: Call)
    requires call.CallCreateLinear? || call.CallCreateStep? || call.CallCreateHybrid?
    ensures WritesCurrent(s, Exec(s, call).0)
  {
    if call.amount > 0 && NextStreamId(s).Ok? {
      var (s1, id) := NextStreamId(s).value;
      if Deposit(s1, call.token, call.sender, call.amount, id).Ok? {
        DepositKeepsRecords(s1, call.token, call.sender, call.amount, id);
      }
    }
  }

  lemma TopUpWrites(s: State, sender: Address, id: u64, amount: i128)
    requires TopUpStream(s, sender, id, amount).Ok?
    ensures WritesCurrent(s, TopUpStream(s, sender, id, amount).value.0)
  {
    DepositKeepsRecords(s, TryLoadStream(s, id).value.token, sender, amount, id);
  }

  lemma ApplyWrites(s: State, stream: Stream, id: u64, recipient: Address, amount: i128)
    requires ApplyWithdrawal(s, stream, id, recipient, amount).Ok?
    ensures var t := ApplyWithdrawal(s, stream, id, recipient, amount).value.0;
            WritesCurrent(s, t) && t.version == s.version && t.config == s.config
  {
    var paid := Credited(stream, amount, s.now).value;
    TransferWidens(SaveStream(s, id, paid), paid.token, s.self, recipient, amount);
  }

  lemma {:induction false} BatchLoopWrites(s: State, recipient: Address, ids: seq<u64>, paid: Payouts)
    requires BatchLoop(s, recipient, ids, paid).Ok?
    ensures var t := BatchLoop(s, recipient, ids, paid).value.0;
            WritesCurrent(s, t) && t.version == s.version && t.config == s.config
    decreases |ids|
  {
    if ids != [] {
      var (s1, amount) := BatchRound(s, recipient, ids[0]).value;
      var stream := TryLoadStream(s, ids[0]).value;
      if ApplyWithdrawal(s, stream, ids[0], recipient, Claimable(stream, s.now)).Ok? {
        ApplyWrites(s, stream, ids[0], recipient, Claimable(stream, s.now));
      }
      assert WritesCurrent(s, s1) && s1.version == s.version && s1.config == s.config;
      BatchLoopWrites(s1, recipient, ids[1..], if amount.Some? then paid + [(ids[0], amount.value)] else paid);
    }
  }

  lemma CancelWrites(s: State, sender: Address, id: u64)
    requires CancelStream(s, sender, id).Ok?
    ensures WritesCurrent(s, CancelStream(s, sender, id).value.0)
  {
    var stream := TryLoadStream(s, id).value;
    var closed := CancelledStream(stream, s.now);
    var s1 := SaveStream(s, id, closed);
    TransferWidens(s1, closed.token, s.self, closed.recipient, Claimable(stream, s.now));
  }

  lemma CallWrites(s: State, call: Call)
    ensures WritesCurrent(s, Exec(s, call).0)
  {
    match call
    case CallCreateLinear(_, _, _, _, _) => CreateWrites(s, call);
    case CallCreateStep(_, _, _, _, _) => CreateWrites(s, call);
    case CallCreateHybrid(_, _, _, _, _, _, _) => CreateWrites(s, call);
    case CallTopUp(sender, id, amount) =>
      if TopUpStream(s, sender, id, amount).Ok? {
        TopUpWrites(s, sender, id, amount);
      }
    case CallWithdraw(recipient, id) =>
      if Withdraw(s, recipient, id).Ok? {
        ApplyWrites(s, TryLoadStream(s, id).value, id, recipient, Claimable(TryLoadStream(s, id).value, s.now));
      }
    case CallBatchWithdraw(recipient, ids) =>
      if BatchWithdraw(s, recipient, ids).Ok? {
        BatchLoopWrites(s, recipient, ids, []);
      }
    case CallCancel(sender, id) =>
      if CancelStream(s, sender, id).Ok? {
        CancelWrites(s, sender, id);
      }
    case _ =>
  }

  // ----- Runs -----

  function Respond(s: State, step: Step): Response {
    match step
    case Invoke(tx, call) => Exec(s.(tx := tx), call).1
    case _ => Done
  }

  function Responses(s: State, steps: seq<Step>): seq<Response> {
    if steps == [] then []
    else Responses(s, steps[..|steps| - 1]) + [Respond(Run(s, steps[..|steps| - 1]), steps[|steps| - 1])]
  }

  lemma StepWidens(s: State, step: Step)
    ensures Advance(Widen(s), step) == Widen(Advance(s, step))
    ensures Respond(Widen(s), step) == Respond(s, step)
    ensures WritesCurrent(s, Advance(s, step))
  {
    match step
    case Invoke(tx, call) =>
      assert Widen(s).(tx := tx) == Widen(s.(tx := tx));
      CallWidens(s.(tx := tx), call);
      CallWrites(s.(tx := tx), call);
    case Tick(_) =>
    case Mint(token, to, _) => assert Balance(Widen(s), token, to) == Balance(s, token, to);
    case Send(token, from, to, amount) => TransferWidens(s, token, from, to, amount);
  }

  /** Any sequence of calls on a store mixing old and new records gives the same
      responses, and leaves the same records once decoded, as on the store migrated
      up front; and no write along the way produces an old-shape record. */
  lemma {:induction false} LazyMigrationIsInvisible(s: State, steps: seq<Step>)
    ensures Responses(Widen(s), steps) == Responses(s, steps)
    ensures Run(Widen(s), steps) == Widen(Run(s, steps))
    ensures WritesCurrent(s, Run(s, steps))
    ensures forall id: u64 :: TryLoadStream(Run(Widen(s), steps), id) == TryLoadStream(Run(s, steps), id)
    decreases |steps|
  {
    if steps != [] {
      var front := steps[..|steps| - 1];
      LazyMigrationIsInvisible(s, front);
      StepWidens(Run(s, front), steps[|steps| - 1]);
    }
    forall id: u64 ensures TryLoadStream(Run(Widen(s), steps), id) == TryLoadStream(Run(s, steps), id) {
      ReadsAgree(Run(s, steps), id);
    }
  }

  // ----- Schema version -----

  /** The one call that can lower the schema version is initialising a store that
      has no config yet but carries a newer version than this contract writes. */
  lemma VersionDropsIff(s: State, call: Call)
    ensures Exec(s, call).0.version < s.version
       <==> && CURRENT_DATA_VERSION < s.version && call.CallInitialize? && s.config.None?
            && call.admin != s.self && call.bps <= MAX_FEE_RATE_BPS
    ensures Exec(s, call).0.version <= Max(s.version, CURRENT_DATA_VERSION)
  {
    match call
    case CallCreateLinear(_, _, _, amount, _) => CreateKeepsVersion(s, call);
    case CallCreateStep(_, _, _, amount, _) => CreateKeepsVersion(s, call);
    case CallCreateHybrid(_, _, _, _, _, _, _) => CreateKeepsVersion(s, call);
    case CallTopUp(sender, id, amount) =>
      if TopUpStream(s, sender, id, amount).Ok? {
        DepositKeepsRecords(s, TryLoadStream(s, id).value.token, sender, amount, id);
      }
    case CallWithdraw(recipient, id) =>
      if Withdraw(s, recipient, id).Ok? {
        ApplyWrites(s, TryLoadStream(s, id).value, id, recipient, Claimable(TryLoadStream(s, id).value, s.now));
      }
    case CallBatchWithdraw(recipient, ids) =>
      if BatchWithdraw(s, recipient, ids).Ok? {
        BatchLoopWrites(s, recipient, ids, []);
      }
    case CallCancel(_, _) =>
    case _ =>
  }

  /** The store this takes: no config, and a version from the future. */
  lemma VersionCanDrop(s: State, admin: Address, treasury: Address)
    requires s.config == None && s.version == CURRENT_DATA_VERSION + 1 && admin != s.self
    ensures Exec(s, CallInitialize(admin, treasury, 0)).0.version == CURRENT_DATA_VERSION < s.version
  {
  }

  /** No calls from a deployment lead to such a store, so none lowers the version. */
  lemma NoDropFromDeployment(s: State, steps: seq<Step>, call: Call)
    requires Genesis(s)
    ensures Run(s, steps).version <= CURRENT_DATA_VERSION
    ensures Run(s, steps).version <= Exec(Run(s, steps), call).0.version
  {
    VersionNeverDecreases(s, steps);
    VersionDropsIff(Run(s, steps), call);
  }

  lemma CreateKeepsVersion(s: State, call: Call)
    requires call.CallCreateLinear? || call.CallCreateStep? || call.CallCreateHybrid?
    ensures Exec(s, call).0.version == s.version
  {
    if call.amount > 0 && NextStreamId(s).Ok? {
      var (s1, id) := NextStreamId(s).value;
      if Deposit(s1, call.token, call.sender, call.amount, id).Ok? {
        DepositKeepsRecords(s1, call.token, call.sender, call.amount, id);
      }
    }
  }

  /** From any version this contract or an older one wrote, no run lowers it. */
  lemma {:induction false} VersionNeverDecreases(s: State, steps: seq<Step>)
    requires s.version <= CURRENT_DATA_VERSION
    ensures s.version <= Run(s, steps).version <= CURRENT_DATA_VERSION
    decreases |steps|
  {
    if steps != [] {
      var m, step := Run(s, steps[..|steps| - 1]), steps[|steps| - 1];
      VersionNeverDecreases(s, steps[..|steps| - 1]);
      if step.Invoke? {
        VersionDropsIff(m.(tx := step.tx), step.call);
      }
    }
  }

  /** Read-only queries see no difference either. */
  lemma QueriesAgree(s: State, id: u64)
    ensures GetClaimableAmount(Widen(s), id) == GetClaimableAmount(s, id)
    ensures IsProtocolPaused(Widen(s)) == IsProtocolPaused(s)
  {
    ReadsAgree(s, id);
  }
}
