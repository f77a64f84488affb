/** What the event log of the contract looks like over every run: each stream's
    events come in the order of its life, and replaying them gives its record. */
module ContractLog {
  import opened Bounded
  import opened Results
  import opened StreamTypes
  import opened Storage
  import opened Vesting
  import opened Entrypoints
  import opened Lifecycle
  import opened Solvency
  import opened Runs
  import opened Indexer

  datatype Phase = Absent | Live | Finished

  /** Where a stream stands after a log. */
  function PhaseAfter(entries: seq<LogEntry>, id: u64): Phase
    decreases |entries|
  {
    if entries == [] then Absent
    else
      var before := PhaseAfter(entries[..|entries| - 1], id);
      match entries[|entries| - 1].event
      case StreamCreated(j, _, _, _, _, _, _) => if j == id then Live else before
      case StepVestingCreated(j, _, _, _, _, _, _) => if j == id then Live else before
      case HybridCliffCreated(j, _, _, _, _, _, _, _) => if j == id then Live else before
      case StreamCompleted(j, _, _) => if j == id then Finished else before
      case StreamCancelled(j, _, _, _, _) => if j == id then Finished else before
      case _ => before
  }

  /** An event a log may continue with: creation opens a stream once, and every
      other event of a stream falls while it is live. A top-up raises the deposit,
      a withdrawal is positive, a completion restates the payments so far. */
  ghost predicate Admissible(log: seq<LogEntry>, e: Event) {
    match e
    case StreamCreated(id, _, _, _, _, _, _) => PhaseAfter(log, id) == Absent && id != SYSTEM_ID
    case StepVestingCreated(id, _, _, _, _, _, _) => PhaseAfter(log, id) == Absent && id != SYSTEM_ID
    case HybridCliffCreated(id, _, _, _, _, _, _, _) => PhaseAfter(log, id) == Absent && id != SYSTEM_ID
    case StreamToppedUp(id, _, _, newDeposited, _) =>
      && PhaseAfter(log, id) == Live
      && (RowAfter(None, log, id).Some? ==> RowAfter(None, log, id).value.deposited < newDeposited)
    case TokensWithdrawn(id, _, amount, _) => PhaseAfter(log, id) == Live && 0 < amount
    case StreamCompleted(id, _, total) =>
      && PhaseAfter(log, id) == Live
      && (RowAfter(None, log, id).Some? ==> RowAfter(None, log, id).value.withdrawn == total)
    case StreamCancelled(id, _, _, _, _) => PhaseAfter(log, id) == Live
    case StreamPaused(id, _, _) => PhaseAfter(log, id) == Live
    case StreamResumed(id, _, _) => PhaseAfter(log, id) == Live
    case FeeCollected(id, _, _, _) => id != SYSTEM_ID
    case _ => true
  }

  ghost predicate Orderly(log: seq<LogEntry>) {
    forall i :: 0 <= i < |log| ==> Admissible(log[..i], log[i].event)
  }

  /** A row tells the truth about a record. The pause fields are kept up only while
      the stream is active: cancelling a paused stream leaves them behind. */
  ghost predicate Mirrors(row: Row, s: Stream) {
    && (row.sender, row.recipient, row.token, row.rate, row.startTime)
    == (s.sender, s.recipient, s.token, s.ratePerSecond, s.startTime)
    && row.deposited == s.deposited && row.withdrawn == s.withdrawn && row.isActive == s.isActive
    && (s.isActive ==> row.isPaused == s.paused && row.pausedAt == s.pausedAt)
  }

  /** Right after a creation or a withdrawal the record's anchor is the time the event says. */
  ghost predicate Dated(latest: Option<Event>, s: Stream) {
    match latest
    case Some(StreamCreated(_, _, _, _, _, _, startTime)) => s.lastUpdate == startTime
    case Some(TokensWithdrawn(_, _, _, at)) => s.lastUpdate == at
    case _ => true
  }

  /** A log accounts for one id: its record if stored, its absence otherwise. */
  ghost predicate Accounts(log: seq<LogEntry>, id: u64, stored: Option<Stream>, issued: bool) {
    match stored
    case Some(a) =>
      && PhaseAfter(log, id) == (if a.isActive then Live else Finished)
      && RowAfter(None, log, id).Some? == a.schedule.Linear?
      && (a.schedule.Linear? ==> Mirrors(RowAfter(None, log, id).value, a))
      && (a.schedule.Linear? && a.isActive ==> Dated(LastOwn(log, id), a))
    case None =>
      if issued then PhaseAfter(log, id) == Finished
      else PhaseAfter(log, id) == Absent && RowAfter(None, log, id) == None
  }

  ghost predicate LogAccounts(s: State) {
    && Orderly(s.log)
    && forall id: u64 {:trigger TryLoadStream(s, id)} ::
         id != SYSTEM_ID ==> Accounts(s.log, id, TryLoadStream(s, id), id <= s.counter)
  }

  // ----- One more event -----

  lemma PhaseSnoc(log: seq<LogEntry>, last: LogEntry, id: u64)
    ensures PhaseAfter(log + [last], id)
         == match last.event
            case StreamCreated(j, _, _, _, _, _, _) => (if j == id then Live else PhaseAfter(log, id))
            case StepVestingCreated(j, _, _, _, _, _, _) => (if j == id then Live else PhaseAfter(log, id))
            case HybridCliffCreated(j, _, _, _, _, _, _, _) => (if j == id then Live else PhaseAfter(log, id))
            case StreamCompleted(j, _, _) => (if j == id then Finished else PhaseAfter(log, id))
            case StreamCancelled(j, _, _, _, _) => (if j == id then Finished else PhaseAfter(log, id))
            case _ => PhaseAfter(log, id)
  {
    assert (log + [last])[..|log|] == log;
  }

  lemma OrderlySnoc(log: seq<LogEntry>, last: LogEntry)
    requires Orderly(log) && Admissible(log, last.event)
    ensures Orderly(log + [last])
  {
    var all := log + [last];
    forall i | 0 <= i < |all| ensures Admissible(all[..i], all[i].event) {
      if i < |log| {
        assert all[..i] == log[..i];
      } else {
        assert all[..i] == log;
      }
    }
  }

  /** The id an event says anything about at all. */
  function Subject(e: Event): Option<u64> {
    match e
    case StepVestingCreated(id, _, _, _, _, _, _) => Some(id)
    case HybridCliffCreated(id, _, _, _, _, _, _, _) => Some(id)
    case _ => StreamOf(e)
  }

  lemma OthersUnaffected(log: seq<LogEntry>, last: LogEntry, id: u64, stored: Option<Stream>, issued: bool)
    requires Subject(last.event) != Some(id)
    ensures Accounts(log + [last], id, stored, issued) == Accounts(log, id, stored, issued)
  {
    PhaseSnoc(log, last, id);
    RowAfterSnoc(None, log, last, id);
    LastOwnSnoc(log, last, id);
  }

  lemma SameAccounts(s: State, t: State)
    requires LogAccounts(s) && t.records == s.records && t.counter == s.counter && t.log == s.log
    ensures LogAccounts(t)
  {
    assert forall id: u64 :: TryLoadStream(t, id) == TryLoadStream(s, id);
  }

  /** An event about no stream, or about fees, leaves every account as it was. */
  lemma Neutral(s: State, t: State, last: LogEntry)
    requires LogAccounts(s) && t.records == s.records && t.counter == s.counter && t.log == s.log + [last]
    requires Subject(last.event) == None && Admissible(s.log, last.event)
    ensures LogAccounts(t)
  {
    OrderlySnoc(s.log, last);
    forall id: u64 | id != SYSTEM_ID ensures Accounts(t.log, id, TryLoadStream(t, id), id <= t.counter) {
      assert TryLoadStream(t, id) == TryLoadStream(s, id);
      assert Accounts(s.log, id, TryLoadStream(s, id), id <= s.counter);
      OthersUnaffected(s.log, last, id, TryLoadStream(s, id), id <= s.counter);
    }
  }

  /** An event about one stream, together with the change to its record. */
  lemma Touched(s: State, t: State, id: u64, last: LogEntry)
    requires LogAccounts(s) && t.log == s.log + [last]
    requires Subject(last.event) == Some(id) && Admissible(s.log, last.event)
    requires forall j: u64 :: j != id ==>
               TryLoadStream(t, j) == TryLoadStream(s, j) && (j <= t.counter <==> j <= s.counter)
    requires Accounts(s.log + [last], id, TryLoadStream(t, id), id <= t.counter)
    ensures LogAccounts(t)
  {
    OrderlySnoc(s.log, last);
    forall j: u64 | j != SYSTEM_ID ensures Accounts(t.log, j, TryLoadStream(t, j), j <= t.counter) {
      if j != id {
        assert Accounts(s.log, j, TryLoadStream(s, j), j <= s.counter);
        OthersUnaffected(s.log, last, j, TryLoadStream(s, j), j <= s.counter);
      }
    }
  }

  // ----- One call -----

  lemma DepositAccounts(s: State, s1: State, token: Address, sender: Address, amount: i128, id: u64)
    requires LogAccounts(s) && StreamsWellFormed(s) && amount > 0 && sender != s.self && id != SYSTEM_ID
    requires s1 == s.(counter := s1.counter)
    requires Deposit(s1, token, sender, amount, id).Ok?
    ensures var (t, net) := Deposit(s1, token, sender, amount, id).value;
            && 0 < net
            && t == s1.(balances := t.balances, log := t.log)
            && LogAccounts(s.(log := t.log))
  {
    DepositEffect(s1, token, sender, amount, id);
    var t := Deposit(s1, token, sender, amount, id).value.0;
    if t.log != s1.log {
      var treasury: Address, fee: i128 :| t.log == s1.log + [LogEntry(s1.tx, FeeCollected(id, treasury, fee, token))];
      Neutral(s, s.(log := t.log), LogEntry(s1.tx, FeeCollected(id, treasury, fee, token)));
    } else {
      SameAccounts(s, s.(log := t.log));
    }
  }

  lemma OpenAccounts(s: State, t: State, stream: Stream, event: Event)
    requires LogAccounts(s) && StreamsWellFormed(s) && s.counter < U64_MAX
    requires t.counter == s.counter + 1 && t.records == s.records[t.counter := CurrentStream(stream)]
    requires t.log == s.log + [LogEntry(s.tx, event)]
    requires stream.isActive && !stream.paused && stream.pausedAt == None && stream.withdrawn == 0
    requires stream.lastUpdate == stream.startTime
    requires match stream.schedule
             case Linear => event == StreamCreated(t.counter, stream.sender, stream.recipient, stream.ratePerSecond,
                                                   stream.token, stream.deposited, stream.startTime)
             case StepTranches(_) => event.StepVestingCreated? && event.id == t.counter
             case HybridCliffLinear(_, _) => event.HybridCliffCreated? && event.id == t.counter
    ensures LogAccounts(t)
  {
    var id := t.counter;
    var last := LogEntry(s.tx, event);
    assert id !in s.records;
    assert Accounts(s.log, id, TryLoadStream(s, id), id <= s.counter);
    PhaseSnoc(s.log, last, id);
    RowAfterSnoc(None, s.log, last, id);
    LastOwnSnoc(s.log, last, id);
    assert forall j: u64 :: j != id ==> TryLoadStream(t, j) == TryLoadStream(s, j);
    Touched(s, t, id, last);
  }

  lemma CreateAccounts(s: State, call: Call)
    requires LogAccounts(s) && StreamsWellFormed(s) && !Exec(s, call).1.Failed?
    requires call.CallCreateLinear? || call.CallCreateStep? || call.CallCreateHybrid?
    ensures LogAccounts(Exec(s, call).0)
  {
    var (s1, id) := NextStreamId(s).value;
    var t := Exec(s, call).0;
    DepositAccounts(s, s1, call.token, call.sender, call.amount, id);
    var (s3, net) := Deposit(s1, call.token, call.sender, call.amount, id).value;
    var m := s.(log := s3.log);
    assert StreamsWellFormed(m) by {
      assert forall j: u64 :: TryLoadStream(m, j) == TryLoadStream(s, j);
    }
    OpenAccounts(m, t, t.records[id].stream, t.log[|t.log| - 1].event);
  }

  /** A record rewritten under an event that says the same of its row. */
  lemma RewriteAccounts(s: State, t: State, id: u64, b: Stream, event: Event)
    requires LogAccounts(s) && StreamsWellFormed(s) && TryLoadStream(s, id).Some?
    requires t.records == s.records[id := CurrentStream(b)] && t.counter == s.counter
    requires t.log == s.log + [LogEntry(s.tx, event)]
    requires StreamOf(event) == Some(id) && Admissible(s.log, event)
    requires PhaseAfter(t.log, id) == if b.isActive then Live else Finished
    requires var a := TryLoadStream(s, id).value;
             && b.schedule == a.schedule
             && (a.schedule.Linear? ==> (
                   && RowAfter(None, s.log, id).Some?
                   && RowStep(RowAfter(None, s.log, id), event).Some?
                   && Mirrors(RowStep(RowAfter(None, s.log, id), event).value, b)))
             && !event.StreamCreated?
    requires b.schedule.Linear? && b.isActive ==> Dated(Some(event), b)
    ensures LogAccounts(t)
  {
    var last := LogEntry(s.tx, event);
    assert id in s.records && 1 <= id <= s.counter;
    assert Accounts(s.log, id, TryLoadStream(s, id), true);
    RowAfterSnoc(None, s.log, last, id);
    LastOwnSnoc(s.log, last, id);
    assert forall j: u64 :: j != id ==> TryLoadStream(t, j) == TryLoadStream(s, j);
    Touched(s, t, id, last);
  }

  lemma StoredAccounts(s: State, id: u64)
    requires LogAccounts(s) && StreamsWellFormed(s) && TryLoadStream(s, id).Some?
    ensures id != SYSTEM_ID && Accounts(s.log, id, TryLoadStream(s, id), true)
  {
    assert id in s.records && 1 <= id <= s.counter;
    assert Accounts(s.log, id, TryLoadStream(s, id), id <= s.counter);
  }

  lemma TopUpAccounts(s: State, sender: Address, id: u64, amount: i128)
    requires LogAccounts(s) && StreamsWellFormed(s) && TopUpStream(s, sender, id, amount).Ok?
    ensures LogAccounts(TopUpStream(s, sender, id, amount).value.0)
  {
    var t := TopUpStream(s, sender, id, amount).value.0;
    var a := TryLoadStream(s, id).value;
    DepositAccounts(s, s, a.token, sender, amount, id);
    var (s2, net) := Deposit(s, a.token, sender, amount, id).value;
    var m := s.(log := s2.log);
    assert forall j: u64 :: TryLoadStream(m, j) == TryLoadStream(s, j);
    var last := t.log[|t.log| - 1];
    StoredAccounts(m, id);
    PhaseSnoc(m.log, last, id);
    RewriteAccounts(m, t, id, a.(deposited := a.deposited + net), last.event);
  }

  /** The record between the two events of a withdrawal: paid, but not yet reported complete. */
  lemma PaidAccounts(s: State, id: u64, paid: Stream, amount: i128)
    requires LogAccounts(s) && StreamsWellFormed(s) && TryLoadStream(s, id).Some? && 0 < amount
    requires var a := TryLoadStream(s, id).value;
             a.isActive && paid == a.(withdrawn := paid.withdrawn, lastUpdate := paid.lastUpdate)
             && paid.withdrawn == a.withdrawn + amount
    ensures var last := LogEntry(s.tx, TokensWithdrawn(id, paid.recipient, amount, paid.lastUpdate));
            LogAccounts(s.(records := s.records[id := CurrentStream(paid)], log := s.log + [last]))
  {
    var last := LogEntry(s.tx, TokensWithdrawn(id, paid.recipient, amount, paid.lastUpdate));
    var m := s.(records := s.records[id := CurrentStream(paid)], log := s.log + [last]);
    StoredAccounts(s, id);
    PhaseSnoc(s.log, last, id);
    RewriteAccounts(s, m, id, paid, last.event);
  }

  lemma WithdrawAccounts(s: State, recipient: Address, id: u64)
    requires LogAccounts(s) && StreamsWellFormed(s) && Withdraw(s, recipient, id).Ok?
    ensures LogAccounts(Withdraw(s, recipient, id).value.0)
  {
    var t := Withdraw(s, recipient, id).value.0;
    var a := TryLoadStream(s, id).value;
    var amount := Claimable(a, s.now);
    var b := Credited(a, amount, s.now).value;
    TransferConserves(SaveStream(s, id, b), b.token, s.self, recipient, amount);
    var running := b.(isActive := true, status := Active);
    var m := s.(records := s.records[id := CurrentStream(running)],
                log := s.log + [LogEntry(s.tx, TokensWithdrawn(id, recipient, amount, b.lastUpdate))]);
    PaidAccounts(s, id, running, amount);
    StoredAccounts(s, id);
    if b.status == Completed {
      CompletionAccounts(m, t, id, b, LogEntry(s.tx, StreamCompleted(id, recipient, b.withdrawn)));
    } else {
      SameAccounts(m, t);
    }
  }

  lemma CompletionAccounts(m: State, t: State, id: u64, b: Stream, done: LogEntry)
    requires LogAccounts(m) && id != SYSTEM_ID && id <= m.counter == t.counter
    requires TryLoadStream(m, id) == Some(b.(isActive := true, status := Active))
    requires !b.isActive && done == LogEntry(m.tx, StreamCompleted(id, b.recipient, b.withdrawn))
    requires id in m.records && t.records == m.records[id := CurrentStream(b)] && t.log == m.log + [done]
    ensures LogAccounts(t)
  {
    assert Accounts(m.log, id, TryLoadStream(m, id), id <= m.counter);
    PhaseSnoc(m.log, done, id);
    RowAfterSnoc(None, m.log, done, id);
    LastOwnSnoc(m.log, done, id);
    assert forall j: u64 :: j != id ==> TryLoadStream(t, j) == TryLoadStream(m, j);
    Touched(m, t, id, done);
  }

  lemma CancelAccounts(s: State, sender: Address, id: u64)
    requires LogAccounts(s) && StreamsWellFormed(s) && CancelStream(s, sender, id).Ok?
    ensures LogAccounts(CancelStream(s, sender, id).value.0)
  {
    var t := CancelStream(s, sender, id).value.0;
    var a := TryLoadStream(s, id).value;
    var b := CancelledStream(a, s.now);
    var refund := SaturatingSub(b.deposited, b.withdrawn);
    var s1 := SaveStream(s, id, b);
    ClaimableIsEarnedMinusPaid(a, s.now);
    CancelledWellFormed(a, s.now);
    PayIfAnyEffect(s1, b.token, b.recipient, Claimable(a, s.now));
    PayIfAnyEffect(PayIfAny(s1, b.token, b.recipient, Claimable(a, s.now)).value, b.token, sender, refund);
    var last := LogEntry(s.tx, StreamCancelled(id, sender, b.recipient, b.withdrawn, refund));
    assert t.records == s.records[id := CurrentStream(b)] && t.log == s.log + [last];
    StoredAccounts(s, id);
    PhaseSnoc(s.log, last, id);
    RewriteAccounts(s, t, id, b, last.event);
  }

  lemma CloseAccounts(s: State, caller: Address, id: u64)
    requires LogAccounts(s) && StreamsWellFormed(s) && CloseStream(s, caller, id).Ok?
    ensures LogAccounts(CloseStream(s, caller, id).value.0)
  {
    var t := CloseStream(s, caller, id).value.0;
    var last := LogEntry(s.tx, StreamClosed(id, caller, s.now));
    StoredAccounts(s, id);
    OrderlySnoc(s.log, last);
    forall j: u64 | j != SYSTEM_ID ensures Accounts(t.log, j, TryLoadStream(t, j), j <= t.counter) {
      assert Accounts(s.log, j, TryLoadStream(s, j), j <= s.counter);
      OthersUnaffected(s.log, last, j, TryLoadStream(s, j), j <= s.counter);
      PhaseSnoc(s.log, last, j);
    }
  }

  lemma PauseAccounts(s: State, sender: Address, id: u64)
    requires LogAccounts(s) && StreamsWellFormed(s) && PauseStream(s, sender, id).Ok?
    ensures LogAccounts(PauseStream(s, sender, id).value.0)
  {
    var t := PauseStream(s, sender, id).value.0;
    var a := TryLoadStream(s, id).value;
    var last := t.log[|t.log| - 1];
    StoredAccounts(s, id);
    PhaseSnoc(s.log, last, id);
    RewriteAccounts(s, t, id, PausedStream(a, s.now), last.event);
  }

  lemma ResumeAccounts(s: State, sender: Address, id: u64)
    requires LogAccounts(s) && StreamsWellFormed(s) && ResumeStream(s, sender, id).Ok?
    ensures LogAccounts(ResumeStream(s, sender, id).value.0)
  {
    var t := ResumeStream(s, sender, id).value.0;
    var a := TryLoadStream(s, id).value;
    var last := t.log[|t.log| - 1];
    StoredAccounts(s, id);
    PhaseSnoc(s.log, last, id);
    RewriteAccounts(s, t, id, ResumedStream(a, s.now), last.event);
  }

  lemma {:induction false} BatchAccounts(s: State, recipient: Address, ids: seq<u64>, paid: Payouts)
    requires LogAccounts(s) && StreamsWellFormed(s) && recipient != s.self
    requires BatchLoop(s, recipient, ids, paid).Ok?
    ensures LogAccounts(BatchLoop(s, recipient, ids, paid).value.0)
    decreases |ids|
  {
    if ids != [] {
      BatchRoundIsWithdrawOrSkip(s, recipient, ids[0]);
      var (s1, amount) := BatchRound(s, recipient, ids[0]).value;
      if amount.Some? {
        WithdrawAccounts(s, recipient, ids[0]);
        WithdrawEffect(s, recipient, ids[0]);
        EvolvedWellFormed(s, s1);
      }
      BatchAccounts(s1, recipient, ids[1..], if amount.Some? then paid + [(ids[0], amount.value)] else paid);
    }
  }

  lemma ConfigCallAccounts(s: State, call: Call)
    requires LogAccounts(s) && !Exec(s, call).1.Failed?
    requires call.CallInitialize? || call.CallUpdateFeeConfig?
    ensures LogAccounts(Exec(s, call).0)
  {
    var t := Exec(s, call).0;
    assert t.records == s.records && t.counter == s.counter;
    if call.CallInitialize? {
      Neutral(s, t, LogEntry(s.tx, Initialized(call.admin, call.treasury, call.bps)));
    } else {
      var old' := TryLoadConfig(s).value;
      Neutral(s, t, LogEntry(s.tx,
        FeeConfigUpdated(call.admin, old'.treasury, call.treasury, old'.feeRateBps, call.bps)));
    }
  }

  lemma PauseSwitchAccounts(s: State, caller: Address, paused: bool)
    requires LogAccounts(s) && SetProtocolPause(s, caller, paused).Ok?
    ensures LogAccounts(SetProtocolPause(s, caller, paused).value.0)
  {
    Neutral(s, SetProtocolPause(s, caller, paused).value.0, LogEntry(s.tx, ProtocolPauseStatus(caller, paused, s.now)));
  }

  lemma MigrateAccounts(s: State, signer: Address, target: nat)
    requires LogAccounts(s) && Migrate(s, signer, target).Ok?
    ensures LogAccounts(Migrate(s, signer, target).value.0)
  {
    var t := Migrate(s, signer, target).value.0;
    if target == s.version {
      SameAccounts(s, t);
    } else {
      Neutral(s, t, LogEntry(s.tx, StateMigrated(TryLoadConfig(s).value.admin, s.version, target)));
    }
  }

  lemma CallAccounts(s: State, call: Call)
    requires LogAccounts(s) && StreamsWellFormed(s) && !Exec(s, call).1.Failed?
    ensures LogAccounts(Exec(s, call).0)
  {
    match call
    case CallInitialize(_, _, _) => ConfigCallAccounts(s, call);
    case CallUpdateFeeConfig(_, _, _) => ConfigCallAccounts(s, call);
    case CallSetProtocolPause(caller, paused) => PauseSwitchAccounts(s, caller, paused);
    case CallMigrate(signer, target) => MigrateAccounts(s, signer, target);
    case CallCreateLinear(_, _, _, _, _) => CreateAccounts(s, call);
    case CallCreateStep(_, _, _, _, _) => CreateAccounts(s, call);
    case CallCreateHybrid(_, _, _, _, _, _, _) => CreateAccounts(s, call);
    case CallTopUp(sender, id, amount) => TopUpAccounts(s, sender, id, amount);
    case CallWithdraw(recipient, id) => WithdrawAccounts(s, recipient, id);
    case CallBatchWithdraw(recipient, ids) => BatchAccounts(s, recipient, ids, []);
    case CallCancel(sender, id) => CancelAccounts(s, sender, id);
    case CallClose(caller, id) => CloseAccounts(s, caller, id);
    case CallPause(sender, id) => PauseAccounts(s, sender, id);
    case CallResume(sender, id) => ResumeAccounts(s, sender, id);
  }

  lemma StepAccounts(s: State, step: Step)
    requires LogAccounts(s) && StreamsWellFormed(s)
    ensures LogAccounts(Advance(s, step))
  {
    match step
    case Invoke(tx, call) =>
      var s1 := s.(tx := tx);
      SameAccounts(s, s1);
      assert StreamsWellFormed(s1) by {
        assert forall j: u64 :: TryLoadStream(s1, j) == TryLoadStream(s, j);
      }
      if Exec(s1, call).1.Failed? {
        SameAccounts(s, Exec(s1, call).0);
      } else {
        CallAccounts(s1, call);
      }
    case Tick(_) => SameAccounts(s, Advance(s, step));
    case Mint(_, _, _) => SameAccounts(s, Advance(s, step));
    case Send(token, from, to, amount) =>
      if Transfer(s, token, from, to, amount).Ok? {
        TransferConserves(s, token, from, to, amount);
      }
      SameAccounts(s, Advance(s, step));
  }

  /** The log of every run from deployment is orderly, and replaying a stream's
      events gives its record, whatever was called in whatever order. */
  lemma {:induction false} LogOfEveryRun(s: State, steps: seq<Step>)
    requires Genesis(s)
    ensures LogAccounts(Run(s, steps))
    decreases |steps|
  {
    if steps != [] {
      var front := steps[..|steps| - 1];
      LogOfEveryRun(s, front);
      assert StreamsWellFormed(Run(s, front)) by {
        GenesisWellFormed(s);
        RunInvariant(s, front);
      }
      StepAccounts(Run(s, front), steps[|steps| - 1]);
    }
  }
}
