/** Handling events that were handled before: what a replay leaves alone and what
    it resets. */
module Replay {
  import opened Bounded
  import opened Results
  import opened StreamTypes
  import opened Storage
  import opened Entrypoints
  import opened Runs
  import opened Indexer
  import opened ContractLog
  import opened Projection
  import opened Examples

  // ----- Facts about an orderly log -----

  lemma OrderlyUpTo(log: seq<LogEntry>, k: nat)
    requires Orderly(log) && k <= |log|
    ensures Orderly(log[..k])
  {
    forall i | 0 <= i < k ensures Admissible(log[..k][..i], log[..k][i].event) {
      assert log[..k][..i] == log[..i];
    }
  }

  /** A stream once opened stays opened; without a row by then it never gets one;
      and once finished its row is final. */
  lemma {:induction false} OpenedOnce(log: seq<LogEntry>, k: nat, id: u64)
    requires Orderly(log) && k <= |log| && PhaseAfter(log[..k], id) != Absent
    ensures PhaseAfter(log, id) != Absent
    ensures RowAfter(None, log[..k], id).Some? == RowAfter(None, log, id).Some?
    ensures PhaseAfter(log[..k], id) == Finished ==>
              PhaseAfter(log, id) == Finished && RowAfter(None, log, id) == RowAfter(None, log[..k], id)
    decreases |log|
  {
    if k == |log| {
      assert log[..k] == log;
    } else {
      var front, last := log[..|log| - 1], log[|log| - 1];
      OrderlyPrefix(log);
      assert front[..k] == log[..k];
      OpenedOnce(front, k, id);
      assert log == front + [last];
      PhaseSnoc(front, last, id);
      RowAfterSnoc(None, front, last, id);
    }
  }

  lemma SnocAt(log: seq<LogEntry>, k: nat)
    requires k < |log|
    ensures log[..k + 1] == log[..k] + [log[k]]
  {
  }

  /** A cancellation or completion states the final payments of its row. */
  lemma TerminalIsFinal(log: seq<LogEntry>, k: nat, id: u64)
    requires Orderly(log) && k < |log| && StreamOf(log[k].event) == Some(id)
    requires log[k].event.StreamCancelled? || log[k].event.StreamCompleted?
    requires RowAfter(None, log, id).Some?
    ensures PhaseAfter(log, id) == Finished && !RowAfter(None, log, id).value.isActive
    ensures log[k].event.StreamCancelled? ==> RowAfter(None, log, id).value.withdrawn == log[k].event.amountWithdrawn
    ensures log[k].event.StreamCompleted? ==> RowAfter(None, log, id).value.withdrawn == log[k].event.totalWithdrawn
  {
    SnocAt(log, k);
    PhaseSnoc(log[..k], log[k], id);
    RowAfterSnoc(None, log[..k], log[k], id);
    OpenedOnce(log, k + 1, id);
  }

  lemma {:induction false} NothingBeforeCreation(log: seq<LogEntry>, id: u64)
    requires Orderly(log) && PhaseAfter(log, id) == Absent
    ensures forall i :: 0 <= i < |log| ==> StreamOf(log[i].event) != Some(id)
    ensures RowAfter(None, log, id) == None
    decreases |log|
  {
    if log != [] {
      var front, last := log[..|log| - 1], log[|log| - 1];
      assert log == front + [last];
      OrderlyPrefix(log);
      PhaseSnoc(front, last, id);
      RowAfterSnoc(None, front, last, id);
      NothingBeforeCreation(front, id);
      assert forall i :: 0 <= i < |log| ==> i < |front| || log[i] == last;
    }
  }

  // ----- What the database holds after the log -----

  lemma RowsAsInLog(log: seq<LogEntry>, id: u64)
    requires Orderly(log) && id != SYSTEM_ID
    ensures Lagging(log, HandleAll(EMPTY_DB, log), id)
  {
    HandleAllLagging(log);
  }

  lemma {:induction false} TakenForGood(log: seq<LogEntry>, k: nat, tx: TxHash, kind: Kind)
    requires k <= |log| && Taken(log[..k], tx, kind)
    ensures Taken(log, tx, kind)
    decreases |log|
  {
    if k == |log| {
      assert log[..k] == log;
    } else {
      assert log[..|log| - 1][..k] == log[..k];
      TakenForGood(log[..|log| - 1], k, tx, kind);
    }
  }

  /** A payment or top-up of a stream with a row never gets past the duplicate check
      a second time. */
  lemma HandledIsSeen(log: seq<LogEntry>, k: nat, id: u64, kind: Kind)
    requires Orderly(log) && k < |log| && StreamOf(log[k].event) == Some(id) && RowAfter(None, log, id).Some?
    requires KindOf(log[k].event) == Some(kind) && (kind == WITHDRAWN || kind == TOPPED_UP)
    ensures (log[k].tx, kind) in HandleAll(EMPTY_DB, log).seen
  {
    assert Admissible(log[..k], log[k].event);
    OpenedOnce(log, k, id);
    assert Taken(log[..k + 1], log[k].tx, kind) by {
      assert log[..k + 1][..k] == log[..k];
    }
    TakenForGood(log, k + 1, log[k].tx, kind);
    HandleAllLagging(log);
  }

  ghost predicate AllTopUpsTaken(log: seq<LogEntry>, id: u64) {
    forall i :: 0 <= i < |log| && log[i].event.StreamToppedUp? && log[i].event.id == id
      ==> Taken(log[..i], log[i].tx, TOPPED_UP)
  }

  lemma TopUpsSnoc(front: seq<LogEntry>, last: LogEntry, id: u64)
    ensures AllTopUpsTaken(front + [last], id)
       <==> && AllTopUpsTaken(front, id)
            && (last.event.StreamToppedUp? && last.event.id == id ==> Taken(front, last.tx, TOPPED_UP))
  {
    var log := front + [last];
    assert forall i :: 0 <= i < |front| ==> front[i] == log[i] && front[..i] == log[..i];
    assert log[..|front|] == front;
    if AllTopUpsTaken(log, id) {
      forall i | 0 <= i < |front| && front[i].event.StreamToppedUp? && front[i].event.id == id
        ensures Taken(front[..i], front[i].tx, TOPPED_UP)
      {
        assert log[i].event.StreamToppedUp?;
      }
      assert log[|front|].event.StreamToppedUp? && log[|front|].event.id == id
        ==> Taken(log[..|front|], log[|front|].tx, TOPPED_UP);
    }
  }

  /** The row exists, and its deposit is the first one exactly when every top-up of
      the stream was taken for a duplicate. */
  ghost predicate DepositedSince(log: seq<LogEntry>, id: u64, first: int) {
    && id in HandleAll(EMPTY_DB, log).rows
    && first <= HandleAll(EMPTY_DB, log).rows[id].deposited
    && (HandleAll(EMPTY_DB, log).rows[id].deposited == first <==> AllTopUpsTaken(log, id))
  }

  lemma DepositedSinceStep(front: seq<LogEntry>, last: LogEntry, id: u64, first: int)
    requires Orderly(front) && Admissible(front, last.event) && id != SYSTEM_ID && DepositedSince(front, id, first)
    requires !(last.event.StreamCreated? && last.event.id == id)
    ensures DepositedSince(front + [last], id, first)
  {
    var db, e := HandleAll(EMPTY_DB, front), last.event;
    HandleSnoc(EMPTY_DB, front, last);
    TopUpsSnoc(front, last, id);
    if e.StreamToppedUp? && e.id == id {
      HandleAllLagging(front);
      assert Lagging(front, db, id);
      assert (last.tx, TOPPED_UP) in db.seen <==> Taken(front, last.tx, TOPPED_UP);
    } else {
      assert HandleOrQuarantine(db, last).rows[id].deposited == db.rows[id].deposited;
    }
  }

  lemma {:induction false} DepositSinceCreation(log: seq<LogEntry>, k: nat, id: u64)
    requires Orderly(log) && k < |log| && log[k].event.StreamCreated? && log[k].event.id == id
    ensures DepositedSince(log, id, log[k].event.deposited)
    decreases |log|
  {
    var front, last := log[..|log| - 1], log[|log| - 1];
    assert log == front + [last];
    OrderlyPrefix(log);
    assert Admissible(log[..k], log[k].event);
    if k == |log| - 1 {
      NothingBeforeCreation(front, id);
      assert forall i :: 0 <= i < |front| ==> StreamOf(log[i].event) != Some(id);
      HandleSnoc(EMPTY_DB, front, last);
      RowsAsInLog(front, id);
    } else {
      assert front[k] == log[k];
      DepositSinceCreation(front, k, id);
      CreatedOnlyOnce(log, k, id);
      DepositedSinceStep(front, last, id, log[k].event.deposited);
    }
  }

  lemma CreatedOnlyOnce(log: seq<LogEntry>, k: nat, id: u64)
    requires Orderly(log) && k < |log| - 1 && log[k].event.StreamCreated? && log[k].event.id == id
    ensures !(log[|log| - 1].event.StreamCreated? && log[|log| - 1].event.id == id)
  {
    var front := log[..|log| - 1];
    OrderlyPrefix(log);
    SnocAt(log, k);
    PhaseSnoc(log[..k], log[k], id);
    assert front[..k + 1] == log[..k + 1];
    OpenedOnce(front, k + 1, id);
  }

  // ----- Replaying -----

  ghost predicate DrawnFrom(entries: seq<LogEntry>, log: seq<LogEntry>) {
    forall i :: 0 <= i < |entries| ==> entries[i] in log
  }

  /** Everything the log handled is remembered, and rows and payments are those it
      left. */
  ghost predicate SamePayments(db: Db, log: seq<LogEntry>) {
    var base := HandleAll(EMPTY_DB, log);
    && base.seen <= db.seen
    && forall id: u64 :: id != SYSTEM_ID ==>
         && RowIn(db, id).Some? == RowIn(base, id).Some?
         && (RowIn(db, id).Some? ==> RowIn(db, id).value.withdrawn == RowIn(base, id).value.withdrawn)
  }

  ghost function DepositAfter(before: int, e: Event, id: u64): int {
    if e.StreamCreated? && e.id == id then e.deposited else before
  }

  /** One entry handled again, and the row of its own stream. */
  lemma ReplayOwn(log: seq<LogEntry>, db: Db, k: nat, id: u64)
    requires Orderly(log) && SamePayments(db, log) && k < |log| && StreamOf(log[k].event) == Some(id) && id != SYSTEM_ID
    ensures var after := HandleOrQuarantine(db, log[k]);
            && RowIn(after, id).Some? == RowIn(db, id).Some?
            && (RowIn(db, id).Some? ==>
                  && RowIn(after, id).value.withdrawn == RowIn(db, id).value.withdrawn
                  && RowIn(after, id).value.deposited == DepositAfter(RowIn(db, id).value.deposited, log[k].event, id))
  {
    RowsAsInLog(log, id);
    var e := log[k].event;
    assert RowIn(db, id).Some? == RowIn(HandleAll(EMPTY_DB, log), id).Some?;
    if e.StreamCreated? {
      DepositSinceCreation(log, k, id);
    } else if RowIn(db, id).Some? {
      if e.StreamCancelled? || e.StreamCompleted? {
        TerminalIsFinal(log, k, id);
      } else if e.TokensWithdrawn? || e.StreamToppedUp? {
        HandledIsSeen(log, k, id, KindOf(e).value);
      }
    }
  }

  lemma ReplayOne(log: seq<LogEntry>, db: Db, k: nat)
    requires Orderly(log) && SamePayments(db, log) && k < |log|
    ensures SamePayments(HandleOrQuarantine(db, log[k]), log)
    ensures forall id: u64 :: id != SYSTEM_ID && RowIn(db, id).Some? ==>
              RowIn(HandleOrQuarantine(db, log[k]), id).value.deposited
              == DepositAfter(RowIn(db, id).value.deposited, log[k].event, id)
  {
    var after := HandleOrQuarantine(db, log[k]);
    var subject := StreamOf(log[k].event);
    if subject.Some? {
      SubjectIsStream(log, k);
      ReplayOwn(log, db, k, subject.value);
    }
    forall j: u64 | j != SYSTEM_ID
      ensures && RowIn(after, j).Some? == RowIn(db, j).Some?
              && (RowIn(db, j).Some? ==>
                    && RowIn(after, j).value.withdrawn == RowIn(db, j).value.withdrawn
                    && RowIn(after, j).value.deposited == DepositAfter(RowIn(db, j).value.deposited, log[k].event, j))
    {
      if subject != Some(j) {
        assert RowIn(after, j) == RowIn(db, j);
      }
    }
  }

  lemma SubjectIsStream(log: seq<LogEntry>, k: nat)
    requires Orderly(log) && k < |log| && StreamOf(log[k].event).Some?
    ensures StreamOf(log[k].event) != Some(SYSTEM_ID)
  {
    OrderlyUpTo(log, k);
    NoSystemEvents(log[..k]);
  }

  ghost predicate RecreatedIn(entries: seq<LogEntry>, id: u64) {
    exists i :: 0 <= i < |entries| && entries[i].event.StreamCreated? && entries[i].event.id == id
  }

  /** The deposit named by the latest creation among the events. */
  ghost function LastCreation(entries: seq<LogEntry>, id: u64): Option<int>
    decreases |entries|
  {
    if entries == [] then None
    else
      var e := entries[|entries| - 1].event;
      if e.StreamCreated? && e.id == id then Some(e.deposited) else LastCreation(entries[..|entries| - 1], id)
  }

  lemma {:induction false} LastCreationFound(entries: seq<LogEntry>, log: seq<LogEntry>, id: u64)
    requires DrawnFrom(entries, log)
    ensures LastCreation(entries, id).Some? <==> RecreatedIn(entries, id)
    ensures LastCreation(entries, id).Some? ==>
              exists k :: 0 <= k < |log| && log[k].event.StreamCreated? && log[k].event.id == id
                && log[k].event.deposited == LastCreation(entries, id).value
    decreases |entries|
  {
    if entries != [] {
      var front, last := entries[..|entries| - 1], entries[|entries| - 1];
      LastCreationFound(front, log, id);
      assert forall i :: 0 <= i < |entries| ==> entries[i] == if i < |front| then front[i] else last;
      if RecreatedIn(front, id) {
        var i :| 0 <= i < |front| && front[i].event.StreamCreated? && front[i].event.id == id;
        assert entries[i].event.StreamCreated?;
      }
    }
  }

  /** Handling already handled events again, in any order and any number of times,
      changes no stream's payments; a deposit goes back to its first value exactly
      when the stream's creation is among the events. */
  lemma {:induction false} ReplayMany(log: seq<LogEntry>, entries: seq<LogEntry>, id: u64)
    requires Orderly(log) && DrawnFrom(entries, log) && id != SYSTEM_ID
    ensures var before, after := HandleAll(EMPTY_DB, log), HandleAll(HandleAll(EMPTY_DB, log), entries);
            && SamePayments(after, log)
            && RowIn(after, id).Some? == RowIn(before, id).Some?
            && (RowIn(before, id).Some? ==>
                  && RowIn(after, id).value.withdrawn == RowIn(before, id).value.withdrawn
                  && RowIn(after, id).value.deposited
                     == LastCreation(entries, id).UnwrapOr(RowIn(before, id).value.deposited))
    decreases |entries|
  {
    if entries != [] {
      ReplayMany(log, entries[..|entries| - 1], id);
      assert entries[|entries| - 1] in log;
      var k :| 0 <= k < |log| && log[k] == entries[|entries| - 1];
      var m := HandleAll(HandleAll(EMPTY_DB, log), entries[..|entries| - 1]);
      ReplayOne(log, m, k);
      assert RowIn(m, id).Some? == RowIn(HandleAll(EMPTY_DB, log), id).Some?;
    }
  }

  /** The withdrawn amount of every row survives any replay of any contract log,
      however its calls were grouped into transactions. */
  lemma ReplayKeepsWithdrawals(s: State, steps: seq<Step>, entries: seq<LogEntry>, id: u64)
    requires Genesis(s) && DrawnFrom(entries, Run(s, steps).log)
    requires id != SYSTEM_ID && id in HandleAll(EMPTY_DB, Run(s, steps).log).rows
    ensures var before := HandleAll(EMPTY_DB, Run(s, steps).log);
            var after := HandleAll(before, entries);
            && id in after.rows
            && after.rows[id].withdrawn == before.rows[id].withdrawn
  {
    LogOfEveryRun(s, steps);
    ReplayMany(Run(s, steps).log, entries, id);
    var before := HandleAll(EMPTY_DB, Run(s, steps).log);
    assert RowIn(before, id).Some? && RowIn(HandleAll(before, entries), id).Some?;
  }

  /** The deposit survives a replay if and only if the creation is not replayed or no
      top-up of the stream was ever recorded. */
  lemma ReplayKeepsDepositIff(log: seq<LogEntry>, entries: seq<LogEntry>, id: u64)
    requires Orderly(log) && DrawnFrom(entries, log)
    requires id != SYSTEM_ID && id in HandleAll(EMPTY_DB, log).rows
    ensures var before, after := HandleAll(EMPTY_DB, log), HandleAll(HandleAll(EMPTY_DB, log), entries);
            && id in after.rows
            && (after.rows[id].deposited == before.rows[id].deposited
                <==> !RecreatedIn(entries, id) || AllTopUpsTaken(log, id))
  {
    ReplayMany(log, entries, id);
    var before := HandleAll(EMPTY_DB, log);
    var after := HandleAll(before, entries);
    assert RowIn(before, id).Some? && RowIn(after, id).Some?;
    LastCreationFound(entries, log, id);
    if RecreatedIn(entries, id) {
      var k :| 0 <= k < |log| && log[k].event.StreamCreated? && log[k].event.id == id
        && log[k].event.deposited == LastCreation(entries, id).value;
      DepositSinceCreation(log, k, id);
    }
  }

  /** The least such replay: a run opens a stream with 1000 and tops it up to 1500,
      and the row is back at 1000 once the creation is handled a second time. */
  lemma ReplayResetsDeposit()
    ensures Genesis(BARE) && TryLoadStream(ToppedUp(), 1).Some? && TryLoadStream(ToppedUp(), 1).value.deposited == 1500
    ensures var log := ToppedUp().log;
            && FreshPairs({}, log) && 0 < |log|
            && RowIn(HandleAll(EMPTY_DB, log), 1).Some?
            && RowIn(HandleAll(EMPTY_DB, log), 1).value.deposited == 1500
            && RowIn(HandleAll(HandleAll(EMPTY_DB, log), [log[0]]), 1).Some?
            && RowIn(HandleAll(HandleAll(EMPTY_DB, log), [log[0]]), 1).value.deposited == 1000
  {
    ToppedUpReached();
    var creation, toppedUp := ToppedUp().log[0], ToppedUp().log[1];
    assert [] + [creation] == [creation];
    HandleSnoc(EMPTY_DB, [], creation);
    HandleSnoc(EMPTY_DB, [creation], toppedUp);
    HandleSnoc(HandleAll(EMPTY_DB, [creation] + [toppedUp]), [], creation);
  }

  // ----- Activity under replay of a suffix -----

  /** The latest word on whether a stream is active. */
  ghost function LastActivity(entries: seq<LogEntry>, id: u64): Option<bool>
    decreases |entries|
  {
    if entries == [] then None
    else
      var e := entries[|entries| - 1].event;
      if StreamOf(e) == Some(id) && e.StreamCreated? then Some(true)
      else if StreamOf(e) == Some(id) && (e.StreamCancelled? || e.StreamCompleted?) then Some(false)
      else LastActivity(entries[..|entries| - 1], id)
  }

  lemma {:induction false} LastActivityConcat(first: seq<LogEntry>, second: seq<LogEntry>, id: u64)
    ensures LastActivity(first + second, id)
         == if LastActivity(second, id).Some? then LastActivity(second, id) else LastActivity(first, id)
    decreases |second|
  {
    if second == [] {
      assert first + second == first;
    } else {
      assert (first + second)[..|first + second| - 1] == first + second[..|second| - 1];
      LastActivityConcat(first, second[..|second| - 1], id);
    }
  }

  lemma {:induction false} ActivityFollowsLast(db: Db, entries: seq<LogEntry>, id: u64)
    requires id in db.rows && id != SYSTEM_ID
    ensures id in HandleAll(db, entries).rows
    ensures HandleAll(db, entries).rows[id].isActive
         == if LastActivity(entries, id).Some? then LastActivity(entries, id).value else db.rows[id].isActive
    decreases |entries|
  {
    if entries != [] {
      ActivityFollowsLast(db, entries[..|entries| - 1], id);
    }
  }

  lemma {:induction false} ActivityOfRow(log: seq<LogEntry>, id: u64)
    requires id != SYSTEM_ID && id in HandleAll(EMPTY_DB, log).rows
    ensures LastActivity(log, id) == Some(HandleAll(EMPTY_DB, log).rows[id].isActive)
    decreases |log|
  {
    var front := log[..|log| - 1];
    if id in HandleAll(EMPTY_DB, front).rows {
      ActivityOfRow(front, id);
    }
  }

  function HandleTimes(db: Db, entries: seq<LogEntry>, n: nat): Db {
    if n == 0 then db else HandleAll(HandleTimes(db, entries, n - 1), entries)
  }

  /** Replaying a suffix of any log, duplicates and all, any number of times leaves
      every stream as active or inactive as it was. */
  lemma {:induction false} SuffixReplayKeepsActivity(log: seq<LogEntry>, k: nat, n: nat, id: u64)
    requires k <= |log| && id != SYSTEM_ID && id in HandleAll(EMPTY_DB, log).rows
    ensures id in HandleTimes(HandleAll(EMPTY_DB, log), log[k..], n).rows
    ensures HandleTimes(HandleAll(EMPTY_DB, log), log[k..], n).rows[id].isActive
         == HandleAll(EMPTY_DB, log).rows[id].isActive
  {
    if n > 0 {
      SuffixReplayKeepsActivity(log, k, n - 1, id);
      ActivityFollowsLast(HandleTimes(HandleAll(EMPTY_DB, log), log[k..], n - 1), log[k..], id);
      assert log == log[..k] + log[k..];
      LastActivityConcat(log[..k], log[k..], id);
      ActivityOfRow(log, id);
    }
  }

  /** Activity survives a replay of any entries, in any order and number, if and only
      if the last of them that speaks of it says what the log said last. */
  lemma ReplayKeepsActivityIff(log: seq<LogEntry>, entries: seq<LogEntry>, id: u64)
    requires id != SYSTEM_ID && id in HandleAll(EMPTY_DB, log).rows
    ensures var before, after := HandleAll(EMPTY_DB, log), HandleAll(HandleAll(EMPTY_DB, log), entries);
            && id in after.rows
            && (after.rows[id].isActive == before.rows[id].isActive
                <==> LastActivity(entries, id) == None || LastActivity(entries, id) == LastActivity(log, id))
  {
    ActivityFollowsLast(HandleAll(EMPTY_DB, log), entries, id);
    ActivityOfRow(log, id);
  }

  /** Handling the creation of a finished stream again brings its row back to life. */
  lemma ReplayedCreationRevives(log: seq<LogEntry>, k: nat, id: u64)
    requires k < |log| && log[k].event.StreamCreated? && log[k].event.id == id && id != SYSTEM_ID
    requires id in HandleAll(EMPTY_DB, log).rows
    ensures id in HandleAll(HandleAll(EMPTY_DB, log), [log[k]]).rows
    ensures HandleAll(HandleAll(EMPTY_DB, log), [log[k]]).rows[id].isActive
  {
    ActivityFollowsLast(HandleAll(EMPTY_DB, log), [log[k]], id);
    assert LastActivity([log[k]], id) == Some(true);
  }

  /** A run that opens and cancels a stream, and the row after its creation is handled
      once more: active, where the contract's record is cancelled. */
  lemma ReplayRevives()
    ensures Genesis(BARE) && TryLoadStream(OpenedThenCancelled(), 1).Some?
    ensures !TryLoadStream(OpenedThenCancelled(), 1).value.isActive
    ensures var log := OpenedThenCancelled().log;
            && FreshPairs({}, log) && 0 < |log|
            && RowIn(HandleAll(EMPTY_DB, log), 1).Some? && !RowIn(HandleAll(EMPTY_DB, log), 1).value.isActive
            && RowIn(HandleAll(HandleAll(EMPTY_DB, log), [log[0]]), 1).Some?
            && RowIn(HandleAll(HandleAll(EMPTY_DB, log), [log[0]]), 1).value.isActive
  {
    OpenedThenCancelledReached();
    var log := OpenedThenCancelled().log;
    assert [] + [log[0]] == [log[0]];
    HandleSnoc(EMPTY_DB, [], log[0]);
    HandleSnoc(EMPTY_DB, [log[0]], log[1]);
    ReplayedCreationRevives(log, 0, 1);
  }

  // ----- The whole row after a replay -----

  /** The latest word on whether a stream is paused, and since when. */
  ghost function LastPause(entries: seq<LogEntry>, id: u64): Option<Option<u64>>
    decreases |entries|
  {
    if entries == [] then None
    else
      var e := entries[|entries| - 1].event;
      if StreamOf(e) == Some(id) && e.StreamPaused? then Some(Some(e.pausedTime))
      else if StreamOf(e) == Some(id) && e.StreamResumed? then Some(None)
      else LastPause(entries[..|entries| - 1], id)
  }

  lemma {:induction false} PauseFollowsLast(db: Db, entries: seq<LogEntry>, id: u64)
    requires id in db.rows && id != SYSTEM_ID
    ensures id in HandleAll(db, entries).rows
    ensures var row := HandleAll(db, entries).rows[id];
            (row.isPaused, row.pausedAt)
              == match LastPause(entries, id)
                 case Some(since) => (since.Some?, since)
                 case None => (db.rows[id].isPaused, db.rows[id].pausedAt)
    decreases |entries|
  {
    if entries != [] {
      PauseFollowsLast(db, entries[..|entries| - 1], id);
    }
  }

  /** What a creation says of a row besides its deposit and activity. */
  ghost predicate NamedBy(row: Row, e: Event) {
    e.StreamCreated? && (row.token, row.rate, row.startTime) == (e.token, e.rate, e.startTime)
  }

  lemma {:induction false} RowNamedByCreation(log: seq<LogEntry>, k: nat, id: u64)
    requires Orderly(log) && k < |log| && log[k].event.StreamCreated? && log[k].event.id == id
    ensures RowAfter(None, log, id).Some? && NamedBy(RowAfter(None, log, id).value, log[k].event)
    decreases |log|
  {
    var front, last := log[..|log| - 1], log[|log| - 1];
    assert log == front + [last];
    OrderlyPrefix(log);
    RowAfterSnoc(None, front, last, id);
    if k == |log| - 1 {
      NothingBeforeCreation(front, id);
    } else {
      assert front[k] == log[k];
      RowNamedByCreation(front, k, id);
      CreatedOnlyOnce(log, k, id);
    }
  }

  /** Parties, token, rate and start never change under a replay. */
  lemma {:induction false} ReplayKeepsIdentity(log: seq<LogEntry>, entries: seq<LogEntry>, id: u64)
    requires Orderly(log) && DrawnFrom(entries, log) && id != SYSTEM_ID && id in HandleAll(EMPTY_DB, log).rows
    ensures id in HandleAll(HandleAll(EMPTY_DB, log), entries).rows
    ensures Identity(HandleAll(HandleAll(EMPTY_DB, log), entries).rows[id])
         == Identity(HandleAll(EMPTY_DB, log).rows[id])
    decreases |entries|
  {
    if entries != [] {
      var front, last := entries[..|entries| - 1], entries[|entries| - 1];
      ReplayKeepsIdentity(log, front, id);
      assert last in log;
      var k :| 0 <= k < |log| && log[k] == last;
      RowsAsInLog(log, id);
      if last.event.StreamCreated? && last.event.id == id {
        RowNamedByCreation(log, k, id);
      }
    }
  }

  /** Every field of a row after a replay: payments and identity as before, deposit as
      the last replayed creation names it, activity and pause as the last replayed
      events that speak of them say. */
  lemma ReplayFullEffect(log: seq<LogEntry>, entries: seq<LogEntry>, id: u64)
    requires Orderly(log) && DrawnFrom(entries, log) && id != SYSTEM_ID && id in HandleAll(EMPTY_DB, log).rows
    ensures id in HandleAll(HandleAll(EMPTY_DB, log), entries).rows
    ensures var before := HandleAll(EMPTY_DB, log).rows[id];
            var pause := LastPause(entries, id);
            HandleAll(HandleAll(EMPTY_DB, log), entries).rows[id]
              == before.(deposited := LastCreation(entries, id).UnwrapOr(before.deposited),
                         isActive := LastActivity(entries, id).UnwrapOr(before.isActive),
                         isPaused := if pause.Some? then pause.value.Some? else before.isPaused,
                         pausedAt := if pause.Some? then pause.value else before.pausedAt)
  {
    var db := HandleAll(EMPTY_DB, log);
    ReplayMany(log, entries, id);
    assert RowIn(db, id).Some? && RowIn(HandleAll(db, entries), id).Some?;
    ActivityFollowsLast(db, entries, id);
    PauseFollowsLast(db, entries, id);
    ReplayKeepsIdentity(log, entries, id);
  }
}
