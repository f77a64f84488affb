/** The indexer's rows against the contract's records. */
module Projection {
  import opened Bounded
  import opened Results
  import opened StreamTypes
  import opened Storage
  import opened Vesting
  import opened Entrypoints
  import opened Runs
  import opened Indexer
  import opened ContractLog
  import opened Examples

  /** Handling, in order, the log of any contract run in which no transaction emits
      two events of one type leaves, for every stored linear stream, a row that
      agrees with its record; and no row for the schedules the worker ignores. */
  lemma ProjectionRefinesContract(s: State, steps: seq<Step>, id: u64)
    requires Genesis(s) && FreshPairs({}, Run(s, steps).log)
    requires TryLoadStream(Run(s, steps), id).Some?
    ensures var t := Run(s, steps);
            var a := TryLoadStream(t, id).value;
            var row := RowIn(HandleAll(EMPTY_DB, t.log), id);
            row.Some? == a.schedule.Linear? && (row.Some? ==> Mirrors(row.value, a))
  {
    var t := Run(s, steps);
    AccountOf(s, steps, id);
    HandleAllFresh(EMPTY_DB, t.log, id);
  }

  lemma AccountOf(s: State, steps: seq<Step>, id: u64)
    requires Genesis(s) && TryLoadStream(Run(s, steps), id).Some?
    ensures id != SYSTEM_ID && Orderly(Run(s, steps).log)
    ensures Accounts(Run(s, steps).log, id, TryLoadStream(Run(s, steps), id), true)
  {
    var t := Run(s, steps);
    LogOfEveryRun(s, steps);
    assert id in t.records && 1 <= id <= t.counter by {
      GenesisWellFormed(s);
      RunInvariant(s, steps);
    }
    assert Accounts(t.log, id, TryLoadStream(t, id), id <= t.counter);
  }

  // ----- Transactions that emit several events of one type -----

  /** An earlier entry of the transaction and type has reached a stored row. */
  ghost predicate Taken(log: seq<LogEntry>, tx: TxHash, kind: Kind)
    decreases |log|
  {
    log != [] &&
    var front, last := log[..|log| - 1], log[|log| - 1];
    || Taken(front, tx, kind)
    || (last.tx == tx && KindOf(last.event) == Some(kind) && StreamOf(last.event).Some?
        && RowAfter(None, front, StreamOf(last.event).value).Some?)
  }

  /** Withdrawals of a stream that follow another recorded withdrawal of the same
      transaction, and so are taken for duplicates. */
  ghost function Missed(log: seq<LogEntry>, id: u64): int
    decreases |log|
  {
    if log == [] then 0
    else
      var front, last := log[..|log| - 1], log[|log| - 1];
      Missed(front, id) +
        if last.event.TokensWithdrawn? && last.event.id == id && Taken(front, last.tx, WITHDRAWN)
        then last.event.amount else 0
  }

  /** The latest top-up of the stream was taken for a duplicate. */
  ghost predicate StaleDeposit(log: seq<LogEntry>, id: u64)
    decreases |log|
  {
    log != [] &&
    var front, last := log[..|log| - 1], log[|log| - 1];
    if last.event.StreamToppedUp? && last.event.id == id then Taken(front, last.tx, TOPPED_UP)
    else StaleDeposit(front, id)
  }

  lemma OrderlyPrefix(log: seq<LogEntry>)
    requires Orderly(log) && log != []
    ensures Orderly(log[..|log| - 1]) && Admissible(log[..|log| - 1], log[|log| - 1].event)
  {
    var front := log[..|log| - 1];
    forall i | 0 <= i < |front| ensures Admissible(front[..i], front[i].event) {
      assert front[..i] == log[..i];
    }
  }

  ghost function Identity(row: Row): (Address, Address, Address, int, u64) {
    (row.sender, row.recipient, row.token, row.rate, row.startTime)
  }

  /** What the database knows after handling a log, duplicates and all. */
  ghost predicate Lagging(log: seq<LogEntry>, db: Db, id: u64) {
    var truth := RowAfter(None, log, id);
    var row := RowIn(db, id);
    && row.Some? == truth.Some?
    && (row.Some? ==>
          && Identity(row.value) == Identity(truth.value) && row.value.isActive == truth.value.isActive
          && row.value.withdrawn == truth.value.withdrawn - (if PhaseAfter(log, id) == Live then Missed(log, id) else 0)
          && row.value.deposited <= truth.value.deposited
          && (row.value.deposited == truth.value.deposited <==> !StaleDeposit(log, id)))
    && (PhaseAfter(log, id) == Absent ==> truth.None? && Missed(log, id) == 0 && !StaleDeposit(log, id))
  }

  ghost predicate SeenIsTaken(log: seq<LogEntry>, db: Db) {
    forall tx: TxHash, kind: Kind :: kind == WITHDRAWN || kind == TOPPED_UP ==>
      ((tx, kind) in db.seen <==> Taken(log, tx, kind))
  }

  /** An event of another stream, or of none, changes nothing about this one. */
  lemma OtherEventLagging(front: seq<LogEntry>, db: Db, last: LogEntry, id: u64)
    requires id != SYSTEM_ID && Lagging(front, db, id) && Admissible(front, last.event)
    requires StreamOf(last.event) != Some(id)
    ensures Lagging(front + [last], HandleOrQuarantine(db, last), id)
  {
    assert (front + [last])[..|front|] == front;
    RowAfterSnoc(None, front, last, id);
    PhaseSnoc(front, last, id);
    assert RowIn(HandleOrQuarantine(db, last), id) == RowIn(db, id);
  }

  lemma OwnEventLagging(front: seq<LogEntry>, db: Db, last: LogEntry, id: u64)
    requires id != SYSTEM_ID && Lagging(front, db, id) && Admissible(front, last.event)
    requires StreamOf(last.event) == Some(id)
    requires (last.tx, WITHDRAWN) in db.seen <==> Taken(front, last.tx, WITHDRAWN)
    requires (last.tx, TOPPED_UP) in db.seen <==> Taken(front, last.tx, TOPPED_UP)
    ensures Lagging(front + [last], HandleOrQuarantine(db, last), id)
  {
    assert (front + [last])[..|front|] == front;
    RowAfterSnoc(None, front, last, id);
    PhaseSnoc(front, last, id);
  }

  lemma HandleLagging(front: seq<LogEntry>, db: Db, last: LogEntry, id: u64)
    requires id != SYSTEM_ID && Admissible(front, last.event)
    requires Lagging(front, db, id) && SeenIsTaken(front, db)
    ensures Lagging(front + [last], HandleOrQuarantine(db, last), id)
  {
    if StreamOf(last.event) == Some(id) {
      OwnEventLagging(front, db, last, id);
    } else {
      OtherEventLagging(front, db, last, id);
    }
  }

  lemma HandleSeen(front: seq<LogEntry>, db: Db, last: LogEntry)
    requires SeenIsTaken(front, db) && Admissible(front, last.event)
    requires forall id: u64 :: id != SYSTEM_ID ==> RowIn(db, id).Some? == RowAfter(None, front, id).Some?
    requires StreamOf(last.event) != Some(SYSTEM_ID)
    ensures SeenIsTaken(front + [last], HandleOrQuarantine(db, last))
  {
    var log := front + [last];
    assert log[..|log| - 1] == front;
    forall tx: TxHash, kind: Kind | kind == WITHDRAWN || kind == TOPPED_UP
      ensures (tx, kind) in HandleOrQuarantine(db, last).seen <==> Taken(log, tx, kind)
    {
      assert (tx, kind) in db.seen <==> Taken(front, tx, kind);
      if StreamOf(last.event).Some? {
        assert RowIn(db, StreamOf(last.event).value).Some? == RowAfter(None, front, StreamOf(last.event).value).Some?;
      }
    }
  }

  lemma {:induction false} NoSystemEvents(log: seq<LogEntry>)
    requires Orderly(log)
    ensures PhaseAfter(log, SYSTEM_ID) == Absent
    decreases |log|
  {
    if log != [] {
      OrderlyPrefix(log);
      NoSystemEvents(log[..|log| - 1]);
    }
  }

  /** The exact state of the database after handling any orderly log once. */
  lemma {:induction false} HandleAllLagging(log: seq<LogEntry>)
    requires Orderly(log)
    ensures SeenIsTaken(log, HandleAll(EMPTY_DB, log))
    ensures forall id: u64 :: id != SYSTEM_ID ==> Lagging(log, HandleAll(EMPTY_DB, log), id)
    decreases |log|
  {
    if log != [] {
      var front, last := log[..|log| - 1], log[|log| - 1];
      assert log == front + [last];
      OrderlyPrefix(log);
      HandleAllLagging(front);
      NoSystemEvents(front);
      var db := HandleAll(EMPTY_DB, front);
      forall id: u64 | id != SYSTEM_ID ensures RowIn(db, id).Some? == RowAfter(None, front, id).Some? {
        assert Lagging(front, db, id);
      }
      HandleSeen(front, db, last);
      forall id: u64 | id != SYSTEM_ID ensures Lagging(log, HandleAll(EMPTY_DB, log), id) {
        assert Lagging(front, db, id);
        HandleLagging(front, db, last, id);
      }
    }
  }

  /** For any run, with its calls grouped into transactions in any way: the row's
      activity is always right; its payments are right if and only if the stream is
      finished or none of its withdrawals was taken for a duplicate; its deposit is
      right if and only if its latest top-up was not. */
  lemma ProjectionExactlyWhen(s: State, steps: seq<Step>, id: u64)
    requires Genesis(s) && TryLoadStream(Run(s, steps), id).Some?
    requires TryLoadStream(Run(s, steps), id).value.schedule.Linear?
    ensures var t := Run(s, steps);
            var a := TryLoadStream(t, id).value;
            var row := RowIn(HandleAll(EMPTY_DB, t.log), id);
            && row.Some?
            && row.value.isActive == a.isActive
            && (row.value.withdrawn == a.withdrawn <==> !a.isActive || Missed(t.log, id) == 0)
            && (row.value.deposited == a.deposited <==> !StaleDeposit(t.log, id))
  {
    var t := Run(s, steps);
    AccountOf(s, steps, id);
    HandleAllLagging(t.log);
    assert Lagging(t.log, HandleAll(EMPTY_DB, t.log), id);
  }

  /** What is missed is a sum of positive amounts, so it is zero exactly when no
      withdrawal of the stream was taken for a duplicate. */
  lemma {:induction false} MissedIffShadowed(log: seq<LogEntry>, id: u64)
    requires Orderly(log)
    ensures 0 <= Missed(log, id)
    ensures Missed(log, id) == 0
       <==> forall i :: 0 <= i < |log| && log[i].event.TokensWithdrawn? && log[i].event.id == id
              ==> !Taken(log[..i], log[i].tx, WITHDRAWN)
    decreases |log|
  {
    if log != [] {
      var front := log[..|log| - 1];
      OrderlyPrefix(log);
      MissedIffShadowed(front, id);
      assert forall i :: 0 <= i < |front| ==> front[i] == log[i] && front[..i] == log[..i];
      if Missed(log, id) == 0 {
        forall i | 0 <= i < |log| && log[i].event.TokensWithdrawn? && log[i].event.id == id
          ensures !Taken(log[..i], log[i].tx, WITHDRAWN)
        {
          if i < |front| {
            assert !Taken(front[..i], front[i].tx, WITHDRAWN);
          }
        }
      }
      if forall i :: 0 <= i < |log| && log[i].event.TokensWithdrawn? && log[i].event.id == id
           ==> !Taken(log[..i], log[i].tx, WITHDRAWN) {
        forall i | 0 <= i < |front| && front[i].event.TokensWithdrawn? && front[i].event.id == id
          ensures !Taken(front[..i], front[i].tx, WITHDRAWN)
        {
          assert log[i].event.TokensWithdrawn?;
        }
        assert log[|log| - 1].event.TokensWithdrawn? && log[|log| - 1].event.id == id
          ==> !Taken(log[..|log| - 1], log[|log| - 1].tx, WITHDRAWN);
      }
    }
  }

  // ----- A batch that the projection gets wrong -----

  function Payment(id: u64): LogEntry {
    LogEntry(3, TokensWithdrawn(id, 7, 100, 10))
  }

  lemma RoundExample(s: State, id: u64)
    requires s.self == 0 && s.now == 10 && s.tx == 3
    requires TryLoadStream(s, id) == Some(SAMPLE)
    requires Balance(s, 9, 0) >= 100 && Balance(s, 9, 7) <= 1000
    ensures BatchRound(s, 7, id).Ok?
    ensures var (t, amount) := BatchRound(s, 7, id).value;
            && amount == Some(100)
            && t.log == s.log + [Payment(id)]
            && t.records == s.records[id := CurrentStream(SAMPLE.(withdrawn := 100, lastUpdate := 10))]
            && (t.self, t.now, t.tx) == (s.self, s.now, s.tx)
            && Balance(t, 9, 0) == Balance(s, 9, 0) - 100 && Balance(t, 9, 7) == Balance(s, 9, 7) + 100
  {
    var b := SAMPLE.(withdrawn := 100, lastUpdate := 10);
    assert Claimable(SAMPLE, 10) == 100;
    assert Credited(SAMPLE, 100, 10) == Ok(b);
    TransferConserves(SaveStream(s, id, b), 9, 0, 7, 100);
    assert Balance(SaveStream(s, id, b), 9, 0) == Balance(s, 9, 0);
    assert Balance(SaveStream(s, id, b), 9, 7) == Balance(s, 9, 7);
  }

  lemma OneRound(s: State, ids: seq<u64>, paid: Payouts)
    requires ids != [] && BatchRound(s, 7, ids[0]).Ok? && BatchRound(s, 7, ids[0]).value.1.Some?
    ensures var (t, amount) := BatchRound(s, 7, ids[0]).value;
            BatchLoop(s, 7, ids, paid) == BatchLoop(t, 7, ids[1..], paid + [(ids[0], amount.value)])
  {
  }

  lemma TwoRounds(s: State)
    requires s.self == 0 && s.now == 10 && s.tx == 3
    requires s.records == map[1 := CurrentStream(SAMPLE), 2 := CurrentStream(SAMPLE)]
    requires Balance(s, 9, 0) == 2000 && Balance(s, 9, 7) == 0
    ensures BatchLoop(s, 7, [1, 2], []).Ok?
    ensures var t := BatchLoop(s, 7, [1, 2], []).value.0;
            && t.log == s.log + [Payment(1)] + [Payment(2)]
            && TryLoadStream(t, 2) == Some(SAMPLE.(withdrawn := 100, lastUpdate := 10))
  {
    RoundExample(s, 1);
    var s1 := BatchRound(s, 7, 1).value.0;
    RoundExample(s1, 2);
    OneRound(s, [1, 2], []);
    assert [1, 2][1..] == [2] && [2][1..] == [];
    OneRound(s1, [2], [] + [(1, 100)]);
  }

  lemma BatchCall(s: State)
    requires s.self == 0 && s.now == 10
    requires s.records == map[1 := CurrentStream(SAMPLE), 2 := CurrentStream(SAMPLE)]
    requires Balance(s, 9, 0) == 2000 && Balance(s, 9, 7) == 0
    ensures var t := Advance(s, Invoke(3, CallBatchWithdraw(7, [1, 2])));
            && t.log == s.log + [Payment(1)] + [Payment(2)]
            && TryLoadStream(t, 2) == Some(SAMPLE.(withdrawn := 100, lastUpdate := 10))
  {
    var s3 := s.(tx := 3);
    assert Balance(s3, 9, 0) == 2000 && Balance(s3, 9, 7) == 0;
    TwoRounds(s3);
  }

  lemma BatchExample()
    ensures var t := Advance(TwoStreams(), Invoke(3, CallBatchWithdraw(7, [1, 2])));
            && t.log == [Opening(1), Opening(2)] + [Payment(1)] + [Payment(2)]
            && TryLoadStream(t, 2) == Some(SAMPLE.(withdrawn := 100, lastUpdate := 10))
  {
    TwoStreamsReached();
    BatchCall(TwoStreams());
  }

  lemma HandleSnoc(db: Db, entries: seq<LogEntry>, last: LogEntry)
    ensures HandleAll(db, entries + [last]) == HandleOrQuarantine(HandleAll(db, entries), last)
  {
    assert (entries + [last])[..|entries|] == entries;
  }

  /** Two streams paid in one batch: the second payment is dropped as a duplicate,
      so the row says 0 where the contract has paid 100. */
  lemma BatchPaymentLost()
    ensures var t := Advance(TwoStreams(), Invoke(3, CallBatchWithdraw(7, [1, 2])));
            && TryLoadStream(t, 2).Some? && TryLoadStream(t, 2).value.withdrawn == 100
            && var row := RowIn(HandleAll(EMPTY_DB, t.log), 2);
               row.Some? && row.value.withdrawn == 0
  {
    BatchExample();
    HandleSnoc(EMPTY_DB, [], Opening(1));
    HandleSnoc(EMPTY_DB, [Opening(1)], Opening(2));
    assert [] + [Opening(1)] == [Opening(1)] && [Opening(1)] + [Opening(2)] == [Opening(1), Opening(2)];
    var db := HandleAll(EMPTY_DB, [Opening(1), Opening(2)]);
    assert db == Db(db.rows, {(1, CREATED), (2, CREATED)});
    assert RowIn(db, 1).Some? && RowIn(db, 2) == Some(Row(5, 7, 9, 10, 1000, 0, 0, true, false, None));
    HandleSnoc(EMPTY_DB, [Opening(1), Opening(2)], Payment(1));
    HandleSnoc(EMPTY_DB, [Opening(1), Opening(2)] + [Payment(1)], Payment(2));
  }
}
