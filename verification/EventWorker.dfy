/** The indexer worker as it runs: handlers that update the database in place, one
    transaction each, and the poll cycle that drives them. */
module EventWorkers {
  import opened Bounded
  import opened Results
  import opened StreamTypes
  import opened Indexer
  import opened RowTimes
  import opened PollOrder
  import opened Quarantine

  /** An event as fetched: its paging token, its ledger, whether the emitting call
      succeeded, and the decoded entry. */
  datatype FetchedEvent = FetchedEvent(cursor: nat, ledger: nat, successful: bool, entry: LogEntry)

  /** Entries of successful calls, in order. */
  function Entries(events: seq<FetchedEvent>): seq<LogEntry>
    decreases |events|
  {
    if events == [] then []
    else
      var front, last := Entries(events[..|events| - 1]), events[|events| - 1];
      if last.successful then front + [last.entry] else front
  }

  /** The worker's sort of a fetched batch. */
  function SortEvents(events: seq<FetchedEvent>): seq<FetchedEvent> {
    Select(events, (x: FetchedEvent) => x.entry.event.StreamCreated?)
      + Select(events, (x: FetchedEvent) => !x.entry.event.StreamCreated?)
  }

  lemma {:induction false} EntriesConcat(first: seq<FetchedEvent>, second: seq<FetchedEvent>)
    ensures Entries(first + second) == Entries(first) + Entries(second)
    decreases |second|
  {
    if second == [] {
      assert first + second == first;
    } else {
      assert (first + second)[..|first + second| - 1] == first + second[..|second| - 1];
      EntriesConcat(first, second[..|second| - 1]);
    }
  }

  lemma {:induction false} EntriesSelect(events: seq<FetchedEvent>, created: bool)
    ensures Entries(Select(events, (x: FetchedEvent) => x.entry.event.StreamCreated? == created))
         == Select(Entries(events), (x: LogEntry) => x.event.StreamCreated? == created)
    decreases |events|
  {
    if events != [] {
      var front, last := events[..|events| - 1], events[|events| - 1];
      EntriesSelect(front, created);
      var keep := (x: FetchedEvent) => x.entry.event.StreamCreated? == created;
      assert Select(front, keep) + [last] == Select(front, keep) + [last];
      EntriesConcat(Select(front, keep), [last]);
      assert Entries([last]) == if last.successful then [last.entry] else [] by { assert [last][..0] == []; }
    }
  }

  lemma {:induction false} SelectSame<T>(entries: seq<T>, p: T -> bool, q: T -> bool)
    requires forall x: T :: x in entries ==> p(x) == q(x)
    ensures Select(entries, p) == Select(entries, q)
    decreases |entries|
  {
    if entries != [] {
      SelectSame(entries[..|entries| - 1], p, q);
    }
  }

  /** Sorting the fetched events sorts their entries. */
  lemma SortedEntries(events: seq<FetchedEvent>)
    ensures Entries(SortEvents(events)) == CreatesFirst(Entries(events))
  {
    EntriesConcat(Select(events, (x: FetchedEvent) => x.entry.event.StreamCreated?),
                  Select(events, (x: FetchedEvent) => !x.entry.event.StreamCreated?));
    EntriesSelect(events, true);
    EntriesSelect(events, false);
    SelectSame(events, (x: FetchedEvent) => x.entry.event.StreamCreated?,
               (x: FetchedEvent) => x.entry.event.StreamCreated? == true);
    SelectSame(events, (x: FetchedEvent) => !x.entry.event.StreamCreated?,
               (x: FetchedEvent) => x.entry.event.StreamCreated? == false);
    SelectSame(Entries(events), (x: LogEntry) => x.event.StreamCreated?,
               (x: LogEntry) => x.event.StreamCreated? == true);
    SelectSame(Entries(events), (x: LogEntry) => !x.event.StreamCreated?,
               (x: LogEntry) => x.event.StreamCreated? == false);
  }

  /** The last event of a sorted batch whose handler went through. */
  function LastHandled(db: Db, events: seq<FetchedEvent>): Option<FetchedEvent>
    decreases |events|
  {
    if events == [] then None
    else
      var front, last := events[..|events| - 1], events[|events| - 1];
      if last.successful && Handle(HandleAll(db, Entries(front)), last.entry).Some? then Some(last)
      else LastHandled(db, front)
  }

  /** Where a poll stands after the events in `done`. */
  ghost predicate Polled(before: Db, done: seq<FetchedEvent>, db: Db, last: Option<FetchedEvent>,
                         processed: nat, failed: seq<LogEntry>)
  {
    && db == HandleAll(before, Entries(done))
    && last == LastHandled(before, done)
    && failed == Failures(before, Entries(done))
    && processed + |failed| == |Entries(done)|
  }

  lemma PolledOneMore(before: Db, done: seq<FetchedEvent>, db: Db, last: Option<FetchedEvent>, processed: nat,
                      failed: seq<LogEntry>, event: FetchedEvent)
    requires Polled(before, done, db, last, processed, failed)
    ensures !event.successful ==> Polled(before, done + [event], db, last, processed, failed)
    ensures event.successful && Handle(db, event.entry).None? ==>
              Polled(before, done + [event], db, last, processed, failed + [event.entry])
    ensures event.successful && Handle(db, event.entry).Some? ==>
              Polled(before, done + [event], Handle(db, event.entry).value, Some(event), processed + 1, failed)
  {
    assert (done + [event])[..|done|] == done;
    assert (Entries(done) + [event.entry])[..|Entries(done)|] == Entries(done);
  }

  /** The times after the events in `done`, each handled at its own reading of the clock. */
  ghost predicate Timed(times: map<u64, Times>, before: Db, done: seq<FetchedEvent>, clocks: nat -> int,
                        handled: nat, after: map<u64, Times>)
    requires times.Keys == before.rows.Keys
  {
    handled == |Entries(done)| && after == StampAll(times, before, Entries(done), clocks)
  }

  lemma TimedOneMore(times: map<u64, Times>, before: Db, done: seq<FetchedEvent>, clocks: nat -> int,
                     handled: nat, after: map<u64, Times>, event: FetchedEvent)
    requires times.Keys == before.rows.Keys && Timed(times, before, done, clocks, handled, after)
    ensures !event.successful ==> Timed(times, before, done + [event], clocks, handled, after)
    ensures event.successful ==>
              && after.Keys == HandleAll(before, Entries(done)).rows.Keys
              && Timed(times, before, done + [event], clocks, handled + 1,
                       Stamp(after, HandleAll(before, Entries(done)), event.entry, clocks(handled)))
  {
    assert (done + [event])[..|done|] == done;
    StampSnoc(times, before, Entries(done), event.entry, clocks);
  }

  class EventWorker {
    var rows: map<u64, Row>
    var times: map<u64, Times>
    var seen: set<(TxHash, Kind)>
    var lastCursor: Option<nat>
    var lastLedger: nat
    var eventsProcessed: nat
    var quarantined: seq<LogEntry>

    predicate Valid()
      reads this
    {
      times.Keys == rows.Keys
    }

    function Database(): Db
      reads this
    {
      Db(rows, seen)
    }

    constructor (startLedger: nat)
      ensures Valid() && Database() == EMPTY_DB && lastCursor == None && lastLedger == startLedger
      ensures eventsProcessed == 0 && quarantined == []
    {
      rows, times, seen := map[], map[], {};
      lastCursor, lastLedger, eventsProcessed, quarantined := None, startLedger, 0, [];
    }

    method HandleStreamCreated(entry: LogEntry, clock: int)
      requires Valid() && entry.event.StreamCreated?
      modifies this`rows, this`times, this`seen
      ensures Handle(old(Database()), entry) == Some(Database())
      ensures Valid() && times == Stamp(old(times), old(Database()), entry, clock)
    {
      var e := entry.event;
      var endTime := if e.rate == 0 then None else Some(e.startTime + TruncDiv(e.deposited, e.rate));
      if e.id in rows {
        times := times[e.id := times[e.id].(lastUpdate := e.startTime, end := endTime)];
        rows := rows[e.id := rows[e.id].(token := e.token, rate := e.rate, deposited := e.deposited,
                                         startTime := e.startTime, isActive := true)];
      } else {
        times := times[e.id := Times(e.startTime, endTime, 0)];
        rows := rows[e.id := Row(e.sender, e.recipient, e.token, e.rate, e.deposited, 0, e.startTime,
                                 true, false, None)];
      }
      if (entry.tx, CREATED) !in seen {
        seen := seen + {(entry.tx, CREATED)};
      }
      assert seen == old(seen) + {(entry.tx, CREATED)};
    }

    /** The duplicate check comes first; a missing row then aborts the transaction. */
    method HandleStreamToppedUp(entry: LogEntry, clock: int) returns (ok: bool)
      requires Valid() && entry.event.StreamToppedUp?
      modifies this`rows, this`times, this`seen
      ensures Handle(old(Database()), entry) == if ok then Some(Database()) else None
      ensures !ok ==> Database() == old(Database())
      ensures Valid() && times == Stamp(old(times), old(Database()), entry, clock)
    {
      var e := entry.event;
      if (entry.tx, TOPPED_UP) in seen {
        return true;
      }
      if e.id !in rows {
        return false;
      }
      var row, t := rows[e.id], times[e.id];
      var newEndTime := if row.rate == 0 then None
                        else Some(row.startTime + TruncDiv(e.newDeposited, row.rate) + t.totalPaused);
      times := times[e.id := t.(lastUpdate := clock, end := newEndTime)];
      rows := rows[e.id := row.(deposited := e.newDeposited)];
      seen := seen + {(entry.tx, TOPPED_UP)};
      return true;
    }

    method HandleTokensWithdrawn(entry: LogEntry, clock: int) returns (ok: bool)
      requires Valid() && entry.event.TokensWithdrawn?
      modifies this`rows, this`times, this`seen
      ensures Handle(old(Database()), entry) == if ok then Some(Database()) else None
      ensures !ok ==> Database() == old(Database())
      ensures Valid() && times == Stamp(old(times), old(Database()), entry, clock)
    {
      var e := entry.event;
      if (entry.tx, WITHDRAWN) in seen {
        return true;
      }
      if e.id !in rows {
        return false;
      }
      var newWithdrawn := rows[e.id].withdrawn + e.amount;
      times := times[e.id := times[e.id].(lastUpdate := e.timestamp)];
      rows := rows[e.id := rows[e.id].(withdrawn := newWithdrawn)];
      seen := seen + {(entry.tx, WITHDRAWN)};
      return true;
    }

    method HandleStreamCancelled(entry: LogEntry, clock: int) returns (ok: bool)
      requires Valid() && entry.event.StreamCancelled?
      modifies this`rows, this`times, this`seen
      ensures Handle(old(Database()), entry) == if ok then Some(Database()) else None
      ensures !ok ==> Database() == old(Database())
      ensures Valid() && times == Stamp(old(times), old(Database()), entry, clock)
    {
      var e := entry.event;
      if e.id !in rows {
        return false;
      }
      times := times[e.id := times[e.id].(lastUpdate := clock)];
      rows := rows[e.id := rows[e.id].(isActive := false, withdrawn := e.amountWithdrawn)];
      if (entry.tx, CANCELLED) !in seen {
        seen := seen + {(entry.tx, CANCELLED)};
      }
      assert seen == old(seen) + {(entry.tx, CANCELLED)};
      return true;
    }

    method HandleStreamCompleted(entry: LogEntry, clock: int) returns (ok: bool)
      requires Valid() && entry.event.StreamCompleted?
      modifies this`rows, this`times, this`seen
      ensures Handle(old(Database()), entry) == if ok then Some(Database()) else None
      ensures !ok ==> Database() == old(Database())
      ensures Valid() && times == Stamp(old(times), old(Database()), entry, clock)
    {
      var e := entry.event;
      if e.id !in rows {
        return false;
      }
      times := times[e.id := times[e.id].(lastUpdate := clock)];
      rows := rows[e.id := rows[e.id].(isActive := false, withdrawn := e.totalWithdrawn)];
      if (entry.tx, COMPLETED) !in seen {
        seen := seen + {(entry.tx, COMPLETED)};
      }
      assert seen == old(seen) + {(entry.tx, COMPLETED)};
      return true;
    }

    method HandleStreamPaused(entry: LogEntry, clock: int) returns (ok: bool)
      requires Valid() && entry.event.StreamPaused?
      modifies this`rows, this`times, this`seen
      ensures Handle(old(Database()), entry) == if ok then Some(Database()) else None
      ensures !ok ==> Database() == old(Database())
      ensures Valid() && times == Stamp(old(times), old(Database()), entry, clock)
    {
      var e := entry.event;
      if e.id !in rows {
        return false;
      }
      times := times[e.id := times[e.id].(lastUpdate := clock)];
      rows := rows[e.id := rows[e.id].(isPaused := true, pausedAt := Some(e.pausedTime))];
      if (entry.tx, PAUSED) !in seen {
        seen := seen + {(entry.tx, PAUSED)};
      }
      assert seen == old(seen) + {(entry.tx, PAUSED)};
      return true;
    }

    method HandleStreamResumed(entry: LogEntry, clock: int) returns (ok: bool)
      requires Valid() && entry.event.StreamResumed?
      modifies this`rows, this`times, this`seen
      ensures Handle(old(Database()), entry) == if ok then Some(Database()) else None
      ensures !ok ==> Database() == old(Database())
      ensures Valid() && times == Stamp(old(times), old(Database()), entry, clock)
    {
      var e := entry.event;
      if e.id !in rows {
        return false;
      }
      var pausedAt, t := rows[e.id].pausedAt, times[e.id];
      var additional := if pausedAt.Some? && pausedAt.value != 0 then clock - pausedAt.value else 0;
      times := times[e.id := t.(lastUpdate := clock, end := Some(e.newEndTime),
                                totalPaused := t.totalPaused + additional)];
      rows := rows[e.id := rows[e.id].(isPaused := false, pausedAt := None)];
      if (entry.tx, RESUMED) !in seen {
        seen := seen + {(entry.tx, RESUMED)};
      }
      assert seen == old(seen) + {(entry.tx, RESUMED)};
      return true;
    }

    /** The new record refers to the stream's row, which must exist. */
    method HandleFeeCollected(entry: LogEntry, clock: int) returns (ok: bool)
      requires Valid() && entry.event.FeeCollected?
      modifies this`seen
      ensures Handle(old(Database()), entry) == if ok then Some(Database()) else None
      ensures !ok ==> Database() == old(Database())
      ensures Valid() && times == Stamp(old(times), old(Database()), entry, clock)
    {
      if (entry.tx, FEE_COLLECTED) in seen {
        return true;
      }
      if entry.event.id !in rows {
        return false;
      }
      seen := seen + {(entry.tx, FEE_COLLECTED)};
      return true;
    }

    method HandleFeeConfigUpdated(entry: LogEntry, clock: int)
      requires Valid() && entry.event.FeeConfigUpdated?
      modifies this`rows, this`times, this`seen
      ensures Handle(old(Database()), entry) == Some(Database())
      ensures Valid() && times == Stamp(old(times), old(Database()), entry, clock)
    {
      if SYSTEM_ID !in rows {
        times := times[SYSTEM_ID := SYSTEM_TIMES];
        rows := rows[SYSTEM_ID := SYSTEM_ROW];
      }
      seen := seen + {(entry.tx, FEE_CONFIG_UPDATED)};
    }

    method ProcessEvent(entry: LogEntry, clock: int) returns (ok: bool)
      requires Valid()
      modifies this`rows, this`times, this`seen
      ensures Handle(old(Database()), entry) == if ok then Some(Database()) else None
      ensures !ok ==> Database() == old(Database())
      ensures Valid() && times == Stamp(old(times), old(Database()), entry, clock)
    {
      match entry.event {
        case FeeConfigUpdated(_, _, _, _, _) => HandleFeeConfigUpdated(entry, clock); ok := true;
        case StreamCreated(_, _, _, _, _, _, _) => HandleStreamCreated(entry, clock); ok := true;
        case StreamToppedUp(_, _, _, _, _) => ok := HandleStreamToppedUp(entry, clock);
        case TokensWithdrawn(_, _, _, _) => ok := HandleTokensWithdrawn(entry, clock);
        case StreamPaused(_, _, _) => ok := HandleStreamPaused(entry, clock);
        case StreamResumed(_, _, _) => ok := HandleStreamResumed(entry, clock);
        case StreamCancelled(_, _, _, _, _) => ok := HandleStreamCancelled(entry, clock);
        case StreamCompleted(_, _, _) => ok := HandleStreamCompleted(entry, clock);
        case FeeCollected(_, _, _, _) => ok := HandleFeeCollected(entry, clock);
        case _ => ok := true;
      }
    }

    /** One event of a poll under way: handled, or failed without a trace. */
    method TryEvent(event: FetchedEvent, handled: nat, clocks: nat -> int, ghost first: map<u64, Times>,
                    ghost before: Db, ghost done: seq<FetchedEvent>, ghost last: Option<FetchedEvent>,
                    ghost processed: nat, ghost failed: seq<LogEntry>)
      returns (ok: bool)
      requires Valid() && event.successful && Polled(before, done, Database(), last, processed, failed)
      requires first.Keys == before.rows.Keys && Timed(first, before, done, clocks, handled, times)
      modifies this`rows, this`times, this`seen
      ensures Valid() && Timed(first, before, done + [event], clocks, handled + 1, times)
      ensures ok ==> Polled(before, done + [event], Database(), Some(event), processed + 1, failed)
      ensures !ok ==> Polled(before, done + [event], Database(), last, processed, failed + [event.entry])
    {
      PolledOneMore(before, done, Database(), last, processed, failed, event);
      TimedOneMore(first, before, done, clocks, handled, times, event);
      ok := ProcessEvent(event.entry, clocks(handled));
    }

    /** The cursor and ledger a poll leaves: those of the last event handled, or the
        server's own cursor, or the old ones if nothing went through. */
    ghost predicate CursorFollows(done: Option<FetchedEvent>, latestCursor: Option<nat>,
                                  oldCursor: Option<nat>, oldLedger: nat)
      reads this
    {
      && lastCursor == (if done.None? then oldCursor
                        else if latestCursor.Some? then latestCursor else Some(done.value.cursor))
      && lastLedger == if done.None? then oldLedger else done.value.ledger
    }

    /** Handles or quarantines each event of a successful call in turn, and moves the
        cursor to the last one handled (or to the one the server names). */
    method HandleInTurn(sorted: seq<FetchedEvent>, latestCursor: Option<nat>, clocks: nat -> int)
      requires Valid()
      modifies this
      ensures Valid() && Database() == HandleAll(old(Database()), Entries(sorted))
      ensures times == StampAll(old(times), old(Database()), Entries(sorted), clocks)
      ensures CursorFollows(LastHandled(old(Database()), sorted), latestCursor, old(lastCursor), old(lastLedger))
      ensures quarantined == old(quarantined) + Failures(old(Database()), Entries(sorted))
      ensures eventsProcessed + |Failures(old(Database()), Entries(sorted))| == old(eventsProcessed) + |Entries(sorted)|
    {
      var cursor, ledger, sawSuccess := lastCursor, lastLedger, false;
      ghost var before, count := Database(), eventsProcessed;
      ghost var last: Option<FetchedEvent>, failed: seq<LogEntry> := None, [];
      var i, handled := 0, 0;
      while i < |sorted|
        invariant 0 <= i <= |sorted|
        invariant count <= eventsProcessed && quarantined == old(quarantined) + failed
        invariant Polled(before, sorted[..i], Database(), last, eventsProcessed - count, failed)
        invariant Valid() && Timed(old(times), before, sorted[..i], clocks, handled, times)
        invariant sawSuccess == last.Some?
        invariant cursor == if sawSuccess then Some(last.value.cursor) else old(lastCursor)
        invariant ledger == if sawSuccess then last.value.ledger else old(lastLedger)
        invariant lastCursor == old(lastCursor) && lastLedger == old(lastLedger)
      {
        var event := sorted[i];
        assert sorted[..i + 1] == sorted[..i] + [event];
        if event.successful {
          var ok := TryEvent(event, handled, clocks, old(times), before, sorted[..i], last,
                             eventsProcessed - count, failed);
          if ok {
            eventsProcessed := eventsProcessed + 1;
            sawSuccess := true;
            cursor := Some(event.cursor);
            ledger := event.ledger;
            last := Some(event);
          } else {
            quarantined := quarantined + [event.entry];
            failed := failed + [event.entry];
          }
          handled := handled + 1;
        } else {
          TimedOneMore(old(times), before, sorted[..i], clocks, handled, times, event);
          PolledOneMore(before, sorted[..i], Database(), last, eventsProcessed - count, failed, event);
        }
        i := i + 1;
      }
      assert sorted[..i] == sorted;
      lastCursor := if sawSuccess && latestCursor.Some? then latestCursor else cursor;
      lastLedger := ledger;
    }

    /** One poll, creations first. */
    method RunPollCycle(events: seq<FetchedEvent>, latestCursor: Option<nat>, clocks: nat -> int)
      requires Valid()
      modifies this
      ensures Valid() && Database() == HandleAll(old(Database()), CreatesFirst(Entries(events)))
      ensures times == StampAll(old(times), old(Database()), CreatesFirst(Entries(events)), clocks)
      ensures CursorFollows(LastHandled(old(Database()), SortEvents(events)), latestCursor,
                            old(lastCursor), old(lastLedger))
      ensures var failures := Failures(old(Database()), CreatesFirst(Entries(events)));
              && quarantined == old(quarantined) + failures
              && eventsProcessed + |failures| == old(eventsProcessed) + |Entries(events)|
    {
      if events == [] {
        return;
      }
      var sorted := SortEvents(events);
      SortedEntries(events);
      SortKeepsLength(Entries(events));
      HandleInTurn(sorted, latestCursor, clocks);
    }
  }

  lemma {:induction false} SortKeepsLength(entries: seq<LogEntry>)
    ensures |CreatesFirst(entries)| == |entries|
    decreases |entries|
  {
    if entries != [] {
      SortKeepsLength(entries[..|entries| - 1]);
    }
  }
}
