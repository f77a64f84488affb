/** The end times the worker writes, against those the contract reports. */
module RowEnds {
  import opened Bounded
  import opened Results
  import opened StreamTypes
  import opened Storage
  import opened Vesting
  import opened Entrypoints
  import opened Lifecycle
  import opened Solvency
  import opened Runs
  import opened ClosedForm
  import opened EndTime
  import opened Indexer
  import opened RowTimes
  import opened ContractLog
  import opened Projection
  import Calls
  import Governance

  // ----- What creations and top-ups say over every run -----

  ghost predicate PositiveFigures(e: Event) {
    match e
    case StreamCreated(_, _, _, rate, _, deposited, _) => rate > 0 && deposited > 0
    case StreamToppedUp(_, _, _, deposited, _) => deposited > 0
    case _ => true
  }

  ghost predicate AllPositiveFigures(log: seq<LogEntry>) {
    forall i :: 0 <= i < |log| ==> PositiveFigures(log[i].event)
  }

  lemma LinearFigures(s: State, sender: Address, recipient: Address, token: Address, amount: i128, duration: u64)
    requires StreamsWellFormed(s) && AllPositiveFigures(s.log)
    ensures AllPositiveFigures(Exec(s, CallCreateLinear(sender, recipient, token, amount, duration)).0.log)
  {
    Calls.CreateLinearDoes(s, sender, recipient, token, amount, duration);
    if CreateStream(s, sender, recipient, token, amount, duration).Ok? {
      QuotientBound(Calls.NetOf(s, amount), duration);
    }
  }

  lemma OpeningFigures(s: State, call: Call)
    requires StreamsWellFormed(s) && AllPositiveFigures(s.log)
    requires call.CallCreateStep? || call.CallCreateHybrid?
    ensures AllPositiveFigures(Exec(s, call).0.log)
  {
    match call
    case CallCreateStep(sender, recipient, token, amount, steps) =>
      Calls.CreateStepDoes(s, sender, recipient, token, amount, steps);
    case CallCreateHybrid(sender, recipient, token, amount, cliffTime, cliffAmount, duration) =>
      Calls.CreateHybridDoes(s, sender, recipient, token, amount, cliffTime, cliffAmount, duration);
  }

  lemma TopUpFigures(s: State, sender: Address, id: u64, amount: i128)
    requires StreamsWellFormed(s) && AllPositiveFigures(s.log)
    ensures AllPositiveFigures(Exec(s, CallTopUp(sender, id, amount)).0.log)
  {
    Calls.TopUpDoes(s, sender, id, amount);
  }

  lemma PaymentFigures(s: State, call: Call)
    requires StreamsWellFormed(s) && AllPositiveFigures(s.log) && (call.CallWithdraw? || call.CallCancel?)
    ensures AllPositiveFigures(Exec(s, call).0.log)
  {
    match call
    case CallWithdraw(recipient, id) => Calls.WithdrawDoes(s, recipient, id);
    case CallCancel(sender, id) => Calls.CancelDoes(s, sender, id);
  }

  lemma StreamCallFigures(s: State, call: Call)
    requires StreamsWellFormed(s) && AllPositiveFigures(s.log)
    requires call.CallClose? || call.CallPause? || call.CallResume?
    ensures AllPositiveFigures(Exec(s, call).0.log)
  {
    match call
    case CallClose(caller, id) => Calls.CloseDoes(s, caller, id);
    case CallPause(sender, id) => Calls.PauseDoes(s, sender, id, s.now);
    case CallResume(sender, id) => Calls.ResumeDoes(s, sender, id);
  }

  lemma AdminCallFigures(s: State, call: Call)
    requires AllPositiveFigures(s.log)
    requires call.CallInitialize? || call.CallUpdateFeeConfig? || call.CallSetProtocolPause? || call.CallMigrate?
    ensures AllPositiveFigures(Exec(s, call).0.log)
  {
    match call
    case CallInitialize(admin, treasury, bps) => Governance.InitializeDoes(s, admin, treasury, bps);
    case CallUpdateFeeConfig(admin, treasury, bps) => Governance.UpdateFeeConfigDoes(s, admin, treasury, bps);
    case CallSetProtocolPause(caller, paused) => Governance.SetProtocolPauseDoes(s, caller, paused);
    case CallMigrate(signer, target) => Governance.MigrateDoes(s, signer, target);
  }

  lemma {:induction false} BatchFigures(s: State, recipient: Address, ids: seq<u64>, paid: Payouts)
    requires StreamsWellFormed(s) && recipient != s.self && AllPositiveFigures(s.log)
    requires BatchLoop(s, recipient, ids, paid).Ok?
    ensures AllPositiveFigures(BatchLoop(s, recipient, ids, paid).value.0.log)
    decreases |ids|
  {
    if ids != [] {
      BatchRoundIsWithdrawOrSkip(s, recipient, ids[0]);
      var (s1, amount) := BatchRound(s, recipient, ids[0]).value;
      if amount.Some? {
        Calls.WithdrawDoes(s, recipient, ids[0]);
        WithdrawEffect(s, recipient, ids[0]);
        EvolvedWellFormed(s, s1);
      }
      BatchFigures(s1, recipient, ids[1..], if amount.Some? then paid + [(ids[0], amount.value)] else paid);
    }
  }

  lemma CallFigures(s: State, call: Call)
    requires StreamsWellFormed(s) && AllPositiveFigures(s.log)
    ensures AllPositiveFigures(Exec(s, call).0.log)
  {
    if call.CallCreateLinear? {
      LinearFigures(s, call.sender, call.recipient, call.token, call.amount, call.duration);
    } else if call.CallCreateStep? || call.CallCreateHybrid? {
      OpeningFigures(s, call);
    } else if call.CallBatchWithdraw? {
      if BatchWithdraw(s, call.recipient, call.ids).Ok? {
        BatchFigures(s, call.recipient, call.ids, []);
      }
    } else if call.CallInitialize? || call.CallUpdateFeeConfig? || call.CallSetProtocolPause? || call.CallMigrate? {
      AdminCallFigures(s, call);
    } else if call.CallTopUp? {
      TopUpFigures(s, call.sender, call.id, call.amount);
    } else if call.CallWithdraw? || call.CallCancel? {
      PaymentFigures(s, call);
    } else {
      StreamCallFigures(s, call);
    }
  }

  lemma {:induction false} RunFigures(s: State, steps: seq<Step>)
    requires Genesis(s)
    ensures AllPositiveFigures(Run(s, steps).log)
    decreases |steps|
  {
    if steps != [] {
      var front, last := steps[..|steps| - 1], steps[|steps| - 1];
      RunFigures(s, front);
      GenesisWellFormed(s);
      RunInvariant(s, front);
      StepFigures(Run(s, front), last);
    }
  }

  lemma StepFigures(s: State, step: Step)
    requires StreamsWellFormed(s) && AllPositiveFigures(s.log)
    ensures AllPositiveFigures(Advance(s, step).log)
  {
    match step
    case Invoke(tx, call) =>
      var s1 := s.(tx := tx);
      assert StreamsWellFormed(s1) by {
        assert forall j: u64 :: TryLoadStream(s1, j) == TryLoadStream(s, j);
      }
      CallFigures(s1, call);
    case Send(token, from, to, amount) =>
      if Transfer(s, token, from, to, amount).Ok? {
        TransferConserves(s, token, from, to, amount);
      }
    case _ =>
  }

  // ----- The times of the worker's rows -----

  /** For the log of any run with distinct pairs, handled in its order at any readings
      of the clock: a stored linear stream's row has the end and the paused total that
      its creation, top-ups, pauses and resumes make. */
  lemma RowTimesOverRuns(s: State, steps: seq<Step>, clocks: nat -> int, id: u64)
    requires Genesis(s) && FreshPairs({}, Run(s, steps).log)
    requires TryLoadStream(Run(s, steps), id).Some? && TryLoadStream(Run(s, steps), id).value.schedule.Linear?
    ensures var log := Run(s, steps).log;
            var t := TimesIn(StampAll(map[], EMPTY_DB, log, clocks), id);
            && t.Some? && t.value.totalPaused == ClockedPauses(log, clocks, id)
            && t.value.end == EndAfter(log, clocks, id)
  {
    AccountOf(s, steps, id);
    RunFigures(s, steps);
    assert forall i :: 0 <= i < |Run(s, steps).log| ==> PositiveFigures(Run(s, steps).log[i].event);
    TimesAreTold(Run(s, steps).log, clocks, id);
  }

  // ----- Against the contract -----

  /** A stored linear stream that is accruing, its end within 64 bits. */
  ghost predicate RunningDrip(t: State, id: u64) {
    match TryLoadStream(t, id)
    case None => false
    case Some(a) => Drip(a, t.now) && !a.paused && a.lastUpdate + SecondsLeft(a) <= U64_MAX
  }

  /** Its start, the length of its deposit, and the seconds since its start that did not
      count. */
  ghost function LengthenedEnd(t: State, id: u64, counted: int): int
    requires RunningDrip(t, id)
  {
    var a := TryLoadStream(t, id).value;
    a.startTime + a.deposited / a.ratePerSecond + (t.now - a.startTime - counted)
  }

  lemma EndOfPaced(a: Stream, now: u64, counted: int)
    requires Drip(a, now) && !a.paused && a.lastUpdate + SecondsLeft(a) <= U64_MAX
    requires a.withdrawn == a.ratePerSecond * (counted - (now - a.lastUpdate))
    ensures ProjectedEndTime(a) == a.startTime + a.deposited / a.ratePerSecond + (now - a.startTime - counted)
  {
    var paid := counted - (now - a.lastUpdate);
    if paid < 0 {
      ProductMonotone(paid, -1, a.ratePerSecond);
    }
    QuotientShift(a.deposited, a.ratePerSecond, paid);
    ProjectedEndExact(a, now);
  }

  lemma PacedDrip(t: State, id: u64, counted: int)
    requires RunningDrip(t, id) && PaidByTheSecond(t, id, 0, counted)
    ensures ProjectedEndTime(TryLoadStream(t, id).value) == LengthenedEnd(t, id, counted)
  {
    EndOfPaced(TryLoadStream(t, id).value, t.now, counted);
  }

  lemma NothingBefore(s: State, id: u64)
    requires Genesis(s)
    ensures EarnedBefore(s, id) == 0
  {
  }

  /** The end the contract reports for a running drip, in every reachable state: its
      start, the length of its deposit, and the seconds it has spent paused. */
  lemma EndByPauses(s: State, steps: seq<Step>, id: u64)
    requires Genesis(s) && RunningDrip(Run(s, steps), id)
    ensures ProjectedEndTime(TryLoadStream(Run(s, steps), id).value)
         == LengthenedEnd(Run(s, steps), id, UnpausedSeconds(s, steps, id))
  {
    GenesisWellFormed(s);
    NothingBefore(s, id);
    RunKeepsPace(s, steps, id);
    PacedDrip(Run(s, steps), id, UnpausedSeconds(s, steps, id));
  }

  lemma {:induction false} EndFromLastTopUp(log: seq<LogEntry>, clocks: nat -> int, id: u64)
    requires RowAfter(None, log, id).Some? && RowAfter(None, log, id).value.rate > 0
    requires LastOwn(log, id).Some? && LastOwn(log, id).value.StreamToppedUp?
    ensures var row := RowAfter(None, log, id).value;
            EndAfter(log, clocks, id) == Some(row.startTime + row.deposited / row.rate + ClockedPauses(log, clocks, id))
    decreases |log|
  {
    var n := |log| - 1;
    if StreamOf(log[n].event) != Some(id) {
      EndFromLastTopUp(log[..n], clocks, id);
    }
  }

  lemma ToppedUpEnd(t: State, clocks: nat -> int, id: u64)
    requires RunningDrip(t, id) && Accounts(t.log, id, TryLoadStream(t, id), true)
    requires var latest := LastOwn(t.log, id); latest.Some? && latest.value.StreamToppedUp?
    ensures EndAfter(t.log, clocks, id) == Some(LengthenedEnd(t, id, 0) - (t.now - TryLoadStream(t, id).value.startTime)
                                                + ClockedPauses(t.log, clocks, id))
  {
    EndFromLastTopUp(t.log, clocks, id);
  }

  lemma EndsCompared(t: State, clocks: nat -> int, id: u64, times: Times, counted: int)
    requires RunningDrip(t, id) && Accounts(t.log, id, TryLoadStream(t, id), true)
    requires var latest := LastOwn(t.log, id); latest.Some? && latest.value.StreamToppedUp?
    requires times.totalPaused == ClockedPauses(t.log, clocks, id) && times.end == EndAfter(t.log, clocks, id)
    requires ProjectedEndTime(TryLoadStream(t, id).value) == LengthenedEnd(t, id, counted)
    ensures var a := TryLoadStream(t, id).value;
            times.end == Some(ProjectedEndTime(a)) <==> times.totalPaused == t.now - a.startTime - counted
  {
    ToppedUpEnd(t, clocks, id);
  }

  /** Seconds a stream has spent paused. */
  ghost function PausedSeconds(s: State, steps: seq<Step>, id: u64): int
    requires TryLoadStream(Run(s, steps), id).Some?
  {
    Run(s, steps).now - TryLoadStream(Run(s, steps), id).value.startTime - UnpausedSeconds(s, steps, id)
  }

  /** After a top-up of a running drip the end in its row is the one the contract
      reports if and only if the worker's clock has made its pauses as long as they
      were: a resume handled late puts it off. */
  lemma ToppedUpRowEndAgreesIff(s: State, steps: seq<Step>, clocks: nat -> int, id: u64)
    requires Genesis(s) && FreshPairs({}, Run(s, steps).log) && RunningDrip(Run(s, steps), id)
    requires var latest := LastOwn(Run(s, steps).log, id); latest.Some? && latest.value.StreamToppedUp?
    ensures var log := Run(s, steps).log;
            var t := TimesIn(StampAll(map[], EMPTY_DB, log, clocks), id);
            && t.Some?
            && (t.value.end == Some(ProjectedEndTime(TryLoadStream(Run(s, steps), id).value))
                <==> t.value.totalPaused == PausedSeconds(s, steps, id))
  {
    var u := Run(s, steps);
    RowTimesOverRuns(s, steps, clocks, id);
    EndByPauses(s, steps, id);
    AccountOf(s, steps, id);
    EndsCompared(u, clocks, id, TimesIn(StampAll(map[], EMPTY_DB, u.log, clocks), id).value,
                 UnpausedSeconds(s, steps, id));
  }
}
