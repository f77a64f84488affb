/** Who may change the protocol's settings, and what the circuit breaker stops. */
module Governance {
  import opened Bounded
  import opened Results
  import opened StreamTypes
  import opened Storage
  import opened Vesting
  import opened Entrypoints

  /** The guardian can trip the breaker; only the admin can reset it. */
  predicate MaySwitch(config: ProtocolConfig, caller: Address, paused: bool) {
    caller == config.admin || (paused && config.emergencyGuardian == Some(caller))
  }

  /** The config a call leaves when it is the right kind of call by the right caller. */
  function ConfigAfter(s: State, config: ProtocolConfig, call: Call): ProtocolConfig {
    match call
    case CallUpdateFeeConfig(admin, treasury, bps) =>
      if admin == config.admin && admin != s.self && bps <= MAX_FEE_RATE_BPS
      then config.(treasury := treasury, feeRateBps := bps) else config
    case CallSetProtocolPause(caller, paused) =>
      if MaySwitch(config, caller, paused) && caller != s.self then config.(isProtocolPaused := paused) else config
    case _ => config
  }

  lemma {:induction false} BatchKeepsConfig(s: State, recipient: Address, ids: seq<u64>, paid: Payouts)
    requires BatchLoop(s, recipient, ids, paid).Ok?
    ensures BatchLoop(s, recipient, ids, paid).value.0.config == s.config
    decreases |ids|
  {
    if ids != [] {
      var (s1, amount) := BatchRound(s, recipient, ids[0]).value;
      RoundKeepsConfig(s, recipient, ids[0]);
      BatchKeepsConfig(s1, recipient, ids[1..], if amount.Some? then paid + [(ids[0], amount.value)] else paid);
    }
  }

  lemma RoundKeepsConfig(s: State, recipient: Address, id: u64)
    requires BatchRound(s, recipient, id).Ok?
    ensures BatchRound(s, recipient, id).value.0.config == s.config
  {
  }

  lemma DepositKeepsConfig(s: State, token: Address, sender: Address, amount: i128, id: u64)
    requires amount > 0 && Deposit(s, token, sender, amount, id).Ok?
    ensures Deposit(s, token, sender, amount, id).value.0.config == s.config
  {
  }

  lemma MoneyInKeepsConfig(s: State, call: Call)
    requires call.CallCreateLinear? || call.CallCreateStep? || call.CallCreateHybrid? || call.CallTopUp?
    ensures Exec(s, call).0.config == s.config
  {
    if call.amount > 0 {
      if call.CallTopUp? {
        if TryLoadStream(s, call.id).Some? {
          var token := TryLoadStream(s, call.id).value.token;
          if Deposit(s, token, call.sender, call.amount, call.id).Ok? {
            DepositKeepsConfig(s, token, call.sender, call.amount, call.id);
          }
        }
      } else if NextStreamId(s).Ok? {
        var (s1, id) := NextStreamId(s).value;
        if Deposit(s1, call.token, call.sender, call.amount, id).Ok? {
          DepositKeepsConfig(s1, call.token, call.sender, call.amount, id);
        }
      }
    }
  }

  /** Every setting, after any call at all: changed exactly as an authorised update or
      switch says, and otherwise as it was. */
  lemma SettingsChangeOnlyByAuthority(s: State, config: ProtocolConfig, call: Call)
    requires TryLoadConfig(s) == Some(config)
    ensures TryLoadConfig(Exec(s, call).0) == Some(ConfigAfter(s, config, call))
  {
    match call
    case CallCreateLinear(_, _, _, _, _) => MoneyInKeepsConfig(s, call);
    case CallCreateStep(_, _, _, _, _) => MoneyInKeepsConfig(s, call);
    case CallCreateHybrid(_, _, _, _, _, _, _) => MoneyInKeepsConfig(s, call);
    case CallTopUp(_, _, _) => MoneyInKeepsConfig(s, call);
    case CallBatchWithdraw(recipient, ids) =>
      if BatchWithdraw(s, recipient, ids).Ok? {
        BatchKeepsConfig(s, recipient, ids, []);
      }
    case _ =>
  }

  /** The first settings: those given, running, without a guardian. */
  lemma InitializeDoes(s: State, admin: Address, treasury: Address, bps: nat)
    ensures var r := Initialize(s, admin, treasury, bps);
            if admin == s.self then r == Err(AuthFailed)
            else if s.config.Some? then r == Err(AlreadyInitialized)
            else if 1000 < bps then r == Err(InvalidFeeRate)
            else
              && r.Ok?
              && var t := r.value.0;
                 && t.config.Some? && t.config.value.CurrentConfig?
                 && var c := t.config.value.config;
                    && c.admin == admin && c.treasury == treasury && c.feeRateBps == bps
                    && !c.isProtocolPaused && c.emergencyGuardian == None
                    && t == s.(config := t.config, version := 2,
                               log := s.log + [LogEntry(s.tx, Initialized(admin, treasury, bps))])
  {
  }

  /** The admin sets treasury and fee rate, never above 10%, and nothing else. */
  lemma UpdateFeeConfigDoes(s: State, admin: Address, treasury: Address, bps: nat)
    ensures var r := UpdateFeeConfig(s, admin, treasury, bps);
            if admin == s.self then r == Err(AuthFailed)
            else if TryLoadConfig(s).None? then r == Err(NotInitialized)
            else
              var c := TryLoadConfig(s).value;
              if c.admin != admin then r == Err(NotAdmin)
              else if 1000 < bps then r == Err(InvalidFeeRate)
              else
                var event := FeeConfigUpdated(admin, c.treasury, treasury, c.feeRateBps, bps);
                r == Ok((s.(config := Some(CurrentConfig(c.(treasury := treasury, feeRateBps := bps))),
                            log := s.log + [LogEntry(s.tx, event)]), ()))
  {
  }

  /** Admin or guardian trip the breaker, the admin alone resets it; each refusal has
      its own error. */
  lemma SetProtocolPauseDoes(s: State, caller: Address, paused: bool)
    ensures var r := SetProtocolPause(s, caller, paused);
            if TryLoadConfig(s).None? then r == Err(NotInitialized)
            else if caller == s.self then r == Err(AuthFailed)
            else
              var c := TryLoadConfig(s).value;
              if caller == c.admin || (paused && c.emergencyGuardian == Some(caller))
              then r == Ok((s.(config := Some(CurrentConfig(c.(isProtocolPaused := paused))),
                               log := s.log + [LogEntry(s.tx, ProtocolPauseStatus(caller, paused, s.now))]), ()))
              else r == Err(if paused then NotGuardian else NotAdmin)
  {
  }

  /** The admin takes the state to any version from the present one to the code's, and
      on the way the settings are stored in the current shape; asking for the version
      in effect changes nothing at all. */
  lemma MigrateDoes(s: State, signer: Address, target: nat)
    ensures var r := Migrate(s, signer, target);
            if TryLoadConfig(s).None? then r == Err(NotInitialized)
            else
              var c := TryLoadConfig(s).value;
              if signer == s.self || signer != c.admin then r == Err(AuthFailed)
              else if 2 < s.version then r == Err(StateVersionTooNew)
              else if target < s.version || 2 < target then r == Err(UnsupportedMigration)
              else if target == s.version then r == Ok((s, ()))
              else r == Ok((s.(config := Some(CurrentConfig(c)), version := target,
                               log := s.log + [LogEntry(s.tx, StateMigrated(c.admin, s.version, target))]), ()))
  {
  }

  /** While the breaker is engaged no tokens come in. */
  lemma BreakerStopsMoneyIn(s: State, call: Call)
    requires IsProtocolPaused(s)
    requires call.CallCreateLinear? || call.CallCreateStep? || call.CallCreateHybrid? || call.CallTopUp?
    ensures Exec(s, call) == (s, Failed(if call.sender == s.self then AuthFailed else ProtocolIsPaused))
  {
  }

  // ----- What the breaker leaves alone -----

  /** The same store with the breaker in either position. */
  function Switched(s: State, config: ProtocolConfig, paused: bool): State {
    SaveConfig(s, config.(isProtocolPaused := paused))
  }

  ghost function SwitchedResult<T>(r: Result<(State, T)>, config: ProtocolConfig, paused: bool): Result<(State, T)> {
    match r
    case Ok((s, value)) => Ok((Switched(s, config, paused), value))
    case Err(e) => Err(e)
  }

  lemma TransferSwitched(s: State, c: ProtocolConfig, p: bool, token: Address, from: Address, to: Address, amount: int)
    ensures Transfer(Switched(s, c, p), token, from, to, amount)
         == match Transfer(s, token, from, to, amount)
            case Ok(t) => Ok(Switched(t, c, p))
            case Err(e) => Err(e)
  {
  }

  lemma ApplySwitched(s: State, c: ProtocolConfig, p: bool, stream: Stream, id: u64, recipient: Address, amount: i128)
    ensures ApplyWithdrawal(Switched(s, c, p), stream, id, recipient, amount)
         == SwitchedResult(ApplyWithdrawal(s, stream, id, recipient, amount), c, p)
  {
    if Credited(stream, amount, s.now).Ok? {
      var paid := Credited(stream, amount, s.now).value;
      assert SaveStream(Switched(s, c, p), id, paid) == Switched(SaveStream(s, id, paid), c, p);
      TransferSwitched(SaveStream(s, id, paid), c, p, paid.token, s.self, recipient, amount);
    }
  }

  lemma WithdrawSwitched(s: State, c: ProtocolConfig, p: bool, recipient: Address, id: u64)
    ensures Withdraw(Switched(s, c, p), recipient, id) == SwitchedResult(Withdraw(s, recipient, id), c, p)
  {
    if TryLoadStream(s, id).Some? {
      var a := TryLoadStream(s, id).value;
      ApplySwitched(s, c, p, a, id, recipient, Claimable(a, s.now));
    }
  }

  lemma RoundSwitched(s: State, c: ProtocolConfig, p: bool, recipient: Address, id: u64)
    ensures BatchRound(Switched(s, c, p), recipient, id) == SwitchedResult(BatchRound(s, recipient, id), c, p)
  {
    if TryLoadStream(s, id).Some? {
      var a := TryLoadStream(s, id).value;
      ApplySwitched(s, c, p, a, id, recipient, Claimable(a, s.now));
    }
  }

  lemma {:induction false} LoopSwitched(s: State, c: ProtocolConfig, p: bool, recipient: Address, ids: seq<u64>,
                                        paid: Payouts)
    ensures BatchLoop(Switched(s, c, p), recipient, ids, paid)
         == SwitchedResult(BatchLoop(s, recipient, ids, paid), c, p)
    decreases |ids|
  {
    if ids != [] {
      RoundSwitched(s, c, p, recipient, ids[0]);
      if BatchRound(s, recipient, ids[0]).Ok? {
        var (s1, amount) := BatchRound(s, recipient, ids[0]).value;
        LoopSwitched(s1, c, p, recipient, ids[1..], if amount.Some? then paid + [(ids[0], amount.value)] else paid);
      }
    }
  }

  lemma CancelSwitched(s: State, c: ProtocolConfig, p: bool, sender: Address, id: u64)
    ensures CancelStream(Switched(s, c, p), sender, id) == SwitchedResult(CancelStream(s, sender, id), c, p)
  {
    if TryLoadStream(s, id).Some? {
      var a := TryLoadStream(s, id).value;
      var done := CancelledStream(a, s.now);
      var s1 := SaveStream(s, id, done);
      assert SaveStream(Switched(s, c, p), id, done) == Switched(s1, c, p);
      TransferSwitched(s1, c, p, a.token, s.self, a.recipient, Claimable(a, s.now));
      var paid := PayIfAny(s1, a.token, a.recipient, Claimable(a, s.now));
      if paid.Ok? {
        TransferSwitched(paid.value, c, p, a.token, s.self, sender, SaturatingSub(done.deposited, done.withdrawn));
      }
    }
  }

  lemma RecordCallSwitched(s: State, config: ProtocolConfig, paused: bool, call: Call)
    requires TryLoadConfig(s) == Some(config)
    requires call.CallClose? || call.CallPause? || call.CallResume?
    ensures Exec(Switched(s, config, paused), call) == (Switched(Exec(s, call).0, config, paused), Exec(s, call).1)
  {
  }

  /** The breaker never stands between anyone and vested funds: withdrawing, batching,
      cancelling, closing, pausing and resuming answer and do the same in both of its
      positions. */
  lemma BreakerLeavesStreamsAlone(s: State, config: ProtocolConfig, paused: bool, call: Call)
    requires TryLoadConfig(s) == Some(config)
    requires call.CallWithdraw? || call.CallBatchWithdraw? || call.CallCancel? || call.CallClose? || call.CallPause?
          || call.CallResume?
    ensures Exec(Switched(s, config, paused), call) == (Switched(Exec(s, call).0, config, paused), Exec(s, call).1)
  {
    match call
    case CallWithdraw(recipient, id) => WithdrawSwitched(s, config, paused, recipient, id);
    case CallBatchWithdraw(recipient, ids) => LoopSwitched(s, config, paused, recipient, ids, []);
    case CallCancel(sender, id) => CancelSwitched(s, config, paused, sender, id);
    case _ => RecordCallSwitched(s, config, paused, call);
  }
}
