/** Polls in sequence: each fetches the next page after the stored cursor. When do
    they get through the whole log, and when do they stop for good? */
module Polling {
  import opened Bounded
  import opened Results
  import opened StreamTypes
  import opened Storage
  import opened Entrypoints
  import opened Runs
  import opened Indexer
  import opened ContractLog
  import opened PollOrder
  import opened Quarantine
  import opened EventWorkers
  import opened Projection
  import opened Examples
  import Replay

  /** Events asked for in one fetch. */
  const PAGE: nat := 100

  /** End of the page that starts after `cursor` entries. */
  function PageEnd(log: seq<LogEntry>, cursor: nat): nat {
    if cursor + PAGE <= |log| then cursor + PAGE else |log|
  }

  /** The fetched entry at place i of the log; its paging token is its place from 1. */
  function FetchedAt(log: seq<LogEntry>, i: nat): FetchedEvent
    requires i < |log|
  {
    FetchedEvent(i + 1, i, true, log[i])
  }

  function FetchPage(log: seq<LogEntry>, cursor: nat): (page: seq<FetchedEvent>)
    requires cursor <= |log|
    ensures |page| == PageEnd(log, cursor) - cursor == Min(100, |log| - cursor)
    ensures forall k :: 0 <= k < |page| ==> page[k] == FetchedAt(log, cursor + k)
  {
    seq(PageEnd(log, cursor) - cursor, k requires 0 <= k < PageEnd(log, cursor) - cursor => FetchedAt(log, cursor + k))
  }

  datatype Progress = Progress(db: Db, cursor: nat)

  /** One fetch and poll. The server may name the end of the page as the cursor;
      otherwise it is that of the last event handled. */
  function PollOnce(log: seq<LogEntry>, p: Progress, named: bool): Progress
    requires p.cursor <= |log|
  {
    var events := FetchPage(log, p.cursor);
    var done := LastHandled(p.db, SortEvents(events));
    Progress(HandleAll(p.db, CreatesFirst(Entries(events))),
             if done.None? then p.cursor else if named then PageEnd(log, p.cursor) else done.value.cursor)
  }

  /** The worker doing so. */
  method FetchAndPoll(worker: EventWorker, log: seq<LogEntry>, named: bool, clocks: nat -> int)
    requires worker.Valid() && worker.lastCursor.UnwrapOr(0) <= |log|
    modifies worker
    ensures worker.Valid()
    ensures Progress(worker.Database(), worker.lastCursor.UnwrapOr(0))
         == PollOnce(log, old(Progress(worker.Database(), worker.lastCursor.UnwrapOr(0))), named)
  {
    var cursor := worker.lastCursor.UnwrapOr(0);
    var events := FetchPage(log, cursor);
    worker.RunPollCycle(events, if named then Some(PageEnd(log, cursor)) else None, clocks);
  }

  // ----- What a poll leaves -----

  lemma EntriesOfPage(log: seq<LogEntry>, cursor: nat)
    requires cursor <= |log|
    ensures Entries(FetchPage(log, cursor)) == log[cursor..PageEnd(log, cursor)]
  {
    AllSuccessful(FetchPage(log, cursor));
    assert |FetchPage(log, cursor)| == |log[cursor..PageEnd(log, cursor)]|;
  }

  lemma {:induction false} AllSuccessful(events: seq<FetchedEvent>)
    requires forall k :: 0 <= k < |events| ==> events[k].successful
    ensures |Entries(events)| == |events| && forall k :: 0 <= k < |events| ==> Entries(events)[k] == events[k].entry
    decreases |events|
  {
    if events != [] {
      AllSuccessful(events[..|events| - 1]);
    }
  }

  lemma {:induction false} LastHandledIsLate(db: Db, events: seq<FetchedEvent>, j: nat)
    requires forall k :: 0 <= k < |events| ==> events[k].successful
    requires |Entries(events)| == |events| && j < |events| && !FailsAt(db, Entries(events), j)
    ensures exists m :: j <= m < |events| && LastHandled(db, events) == Some(events[m])
    decreases |events|
  {
    var front, last := events[..|events| - 1], events[|events| - 1];
    AllSuccessful(front);
    assert Entries(events) == Entries(front) + [last.entry];
    assert Entries(events)[..|front|] == Entries(front);
    if LastHandled(db, events) == Some(last) {
      assert events[|events| - 1] == last;
    } else {
      assert j < |front| && Entries(events)[..j] == Entries(front)[..j];
      LastHandledIsLate(db, front, j);
    }
  }

  lemma {:induction false} NoneHandled(db: Db, events: seq<FetchedEvent>)
    requires forall k :: 0 <= k < |events| ==> events[k].successful
    requires |Entries(events)| == |events| && forall j :: 0 <= j < |events| ==> FailsAt(db, Entries(events), j)
    ensures LastHandled(db, events) == None
    decreases |events|
  {
    if events != [] {
      var front, last := events[..|events| - 1], events[|events| - 1];
      AllSuccessful(front);
      assert Entries(events) == Entries(front) + [last.entry];
      assert Entries(events)[..|front|] == Entries(front) && FailsAt(db, Entries(events), |front|);
      forall j | 0 <= j < |front| ensures FailsAt(db, Entries(front), j) {
        assert FailsAt(db, Entries(events), j) && Entries(events)[..j] == Entries(front)[..j];
      }
      NoneHandled(db, front);
    }
  }

  /** Only what was handled is remembered. */
  lemma {:induction false} SeenWasHandled(db: Db, entries: seq<LogEntry>, key: (TxHash, Kind))
    requires key in HandleAll(db, entries).seen && key !in db.seen
    ensures exists j :: 0 <= j < |entries| && !FailsAt(db, entries, j)
              && entries[j].tx == key.0 && KindOf(entries[j].event) == Some(key.1)
    decreases |entries|
  {
    var n := |entries| - 1;
    var front := entries[..n];
    if key in HandleAll(db, front).seen {
      SeenWasHandled(db, front, key);
      var j :| 0 <= j < |front| && !FailsAt(db, front, j)
        && front[j].tx == key.0 && KindOf(front[j].event) == Some(key.1);
      assert front[..j] == entries[..j] && front[j] == entries[j];
    } else {
      assert !FailsAt(db, entries, n);
    }
  }

  // ----- The sorted page -----

  function SortedPage(log: seq<LogEntry>, cursor: nat): seq<FetchedEvent>
    requires cursor <= |log|
  {
    SortEvents(FetchPage(log, cursor))
  }

  ghost predicate Rising(events: seq<FetchedEvent>) {
    forall i, j :: 0 <= i < j < |events| ==> events[i].cursor < events[j].cursor
  }

  lemma SelectedEvents(events: seq<FetchedEvent>, keep: FetchedEvent -> bool)
    ensures forall x :: x in Select(events, keep) <==> x in events && keep(x)
  {
    forall x: FetchedEvent ensures x in Select(events, keep) <==> x in events && keep(x) {
      SelectedIff(events, keep, x);
    }
  }

  lemma {:induction false} SelectedRising(events: seq<FetchedEvent>, keep: FetchedEvent -> bool)
    requires Rising(events)
    ensures Rising(Select(events, keep))
    decreases |events|
  {
    if events != [] {
      var front, last := events[..|events| - 1], events[|events| - 1];
      SelectedRising(front, keep);
      SelectedEvents(front, keep);
      forall x | x in Select(front, keep) ensures x.cursor < last.cursor {
        var i :| 0 <= i < |front| && front[i] == x;
        assert events[i] == x;
      }
    }
  }

  /** The sorted page is made of the page's own events. */
  lemma SortedPageShape(log: seq<LogEntry>, cursor: nat)
    requires cursor <= |log|
    ensures var sorted := SortedPage(log, cursor);
            && Entries(sorted) == CreatesFirst(log[cursor..PageEnd(log, cursor)])
            && |Entries(sorted)| == |sorted|
            && (forall j :: 0 <= j < |sorted| ==>
                  && sorted[j].successful && cursor < sorted[j].cursor <= PageEnd(log, cursor)
                  && sorted[j] == FetchedAt(log, sorted[j].cursor - 1) && Entries(sorted)[j] == sorted[j].entry)
  {
    var page, sorted := FetchPage(log, cursor), SortedPage(log, cursor);
    SortedEntries(page);
    EntriesOfPage(log, cursor);
    forall j | 0 <= j < |sorted|
      ensures sorted[j].successful && cursor < sorted[j].cursor <= PageEnd(log, cursor)
      ensures sorted[j] == FetchedAt(log, sorted[j].cursor - 1)
    {
      InSorted(page, sorted[j]);
      assert sorted[j] in page;
    }
    AllSuccessful(sorted);
  }

  lemma InSorted(page: seq<FetchedEvent>, x: FetchedEvent)
    ensures x in SortEvents(page) <==> x in page
  {
    SelectedEvents(page, (y: FetchedEvent) => y.entry.event.StreamCreated?);
    SelectedEvents(page, (y: FetchedEvent) => !y.entry.event.StreamCreated?);
  }

  /** None of the page's events is lost. */
  lemma SortedPageComplete(log: seq<LogEntry>, cursor: nat, i: nat)
    requires cursor <= i < PageEnd(log, cursor)
    ensures FetchedAt(log, i) in SortedPage(log, cursor)
  {
    var page := FetchPage(log, cursor);
    assert page[i - cursor] == FetchedAt(log, i) && page[i - cursor] in page;
    InSorted(page, FetchedAt(log, i));
  }

  /** Creations first, and among them, as behind them, the order of the log. */
  lemma SortedPageOrder(log: seq<LogEntry>, cursor: nat, i: nat, j: nat)
    requires cursor <= |log| && i < j < |SortedPage(log, cursor)|
    ensures var x, y := SortedPage(log, cursor)[i], SortedPage(log, cursor)[j];
            && (!x.entry.event.StreamCreated? ==> !y.entry.event.StreamCreated?)
            && (x.entry.event.StreamCreated? == y.entry.event.StreamCreated? ==> x.cursor < y.cursor)
  {
    var page := FetchPage(log, cursor);
    var created := (x: FetchedEvent) => x.entry.event.StreamCreated?;
    var others := (x: FetchedEvent) => !x.entry.event.StreamCreated?;
    SelectedEvents(page, created);
    SelectedEvents(page, others);
    SelectedRising(page, created);
    SelectedRising(page, others);
    SortedSplit(Select(page, created), Select(page, others), i, j);
  }

  lemma SortedSplit(first: seq<FetchedEvent>, rest: seq<FetchedEvent>, i: nat, j: nat)
    requires i < j < |first + rest|
    requires (forall x :: x in first ==> x.entry.event.StreamCreated?) && Rising(first)
    requires (forall x :: x in rest ==> !x.entry.event.StreamCreated?) && Rising(rest)
    ensures var x, y := (first + rest)[i], (first + rest)[j];
            && (!x.entry.event.StreamCreated? ==> !y.entry.event.StreamCreated?)
            && (x.entry.event.StreamCreated? == y.entry.event.StreamCreated? ==> x.cursor < y.cursor)
  {
    forall k | 0 <= k < |first + rest|
      ensures (first + rest)[k].entry.event.StreamCreated? <==> k < |first|
    {
      assert k < |first| ==> (first + rest)[k] == first[k] && first[k] in first;
      assert k >= |first| ==> (first + rest)[k] == rest[k - |first|] && rest[k - |first|] in rest;
    }
  }

  // ----- Where the polls stand -----

  ghost predicate Addressed(log: seq<LogEntry>) {
    forall i :: 0 <= i < |log| ==>
      NeedsRow(log[i].event) != Some(SYSTEM_ID) && !(log[i].event.StreamCreated? && log[i].event.id == SYSTEM_ID)
  }

  /** Rows stand for the creations fetched so far, and past the cursor only creations
      may have been handled already. */
  ghost predicate Standing(log: seq<LogEntry>, p: Progress, reach: nat) {
    && p.cursor <= reach <= |log| && reach <= PageEnd(log, p.cursor)
    && (forall id: u64 :: id != SYSTEM_ID ==> (id in p.db.rows <==> CreatedIn(log[..reach], id)))
    && (forall i :: p.cursor <= i < |log| && !log[i].event.StreamCreated? && KindOf(log[i].event).Some?
          ==> (log[i].tx, KindOf(log[i].event).value) !in p.db.seen)
  }

  /** Every event of the next page wants a row that no creation so far has made. */
  ghost predicate StuckAt(log: seq<LogEntry>, cursor: nat)
    requires cursor <= |log|
  {
    forall i :: cursor <= i < PageEnd(log, cursor) ==>
      NeedsRow(log[i].event).Some? && !CreatedIn(log[..PageEnd(log, cursor)], NeedsRow(log[i].event).value)
  }

  lemma CreatedInParts(log: seq<LogEntry>, cursor: nat, reach: nat, end: nat, id: u64)
    requires cursor <= reach <= end <= |log|
    ensures CreatedIn(log[..end], id) <==> CreatedIn(log[..reach], id) || CreatedIn(log[cursor..end], id)
  {
    forall x: LogEntry ensures x in log[..end] <==> x in log[..reach] || x in log[cursor..end] {
      if x in log[..end] {
        var i :| 0 <= i < end && log[i] == x;
        assert i < reach ==> log[..reach][i] == x;
        assert i >= reach ==> log[cursor..end][i - cursor] == x;
      }
      if x in log[..reach] {
        var i :| 0 <= i < reach && log[i] == x;
        assert log[..end][i] == x;
      }
      if x in log[cursor..end] {
        var i :| 0 <= i < end - cursor && log[cursor..end][i] == x;
        assert log[..end][cursor + i] == x;
      }
    }
  }

  lemma FreshPage(log: seq<LogEntry>, cursor: nat)
    requires FreshPairs({}, log) && cursor <= |log|
    ensures FreshPairs({}, Entries(SortedPage(log, cursor)))
  {
    var page := log[cursor..PageEnd(log, cursor)];
    assert forall i :: 0 <= i < |page| ==> page[i] == log[cursor + i];
    assert FreshPairs({}, page);
    SortKeepsFreshness({}, page);
    SortedPageShape(log, cursor);
  }

  /** When its turn comes no event but a creation has been seen before. */
  lemma UnseenAtItsTurn(log: seq<LogEntry>, p: Progress, reach: nat, j: nat)
    requires FreshPairs({}, log) && Standing(log, p, reach) && j < |SortedPage(log, p.cursor)|
    requires var x := SortedPage(log, p.cursor)[j].entry; !x.event.StreamCreated? && KindOf(x.event).Some?
    ensures var x := SortedPage(log, p.cursor)[j].entry;
            && j < |Entries(SortedPage(log, p.cursor))|
            && (x.tx, KindOf(x.event).value) !in HandleAll(p.db, Entries(SortedPage(log, p.cursor))[..j]).seen
  {
    var sorted := SortedPage(log, p.cursor);
    var entries, x := Entries(sorted), sorted[j].entry;
    SortedPageShape(log, p.cursor);
    FreshPage(log, p.cursor);
    var key := (x.tx, KindOf(x.event).value);
    assert log[sorted[j].cursor - 1] == x;
    assert key !in p.db.seen;
    forall m | 0 <= m < j ensures !(entries[..j][m].tx == key.0 && KindOf(entries[..j][m].event) == Some(key.1)) {
      assert entries[m] == entries[..j][m] && entries[j] == x;
    }
    if key in HandleAll(p.db, entries[..j]).seen {
      SeenComesFromEntries(p.db, entries[..j], key);
      assert false;
    }
  }

  lemma RowsAtItsTurn(log: seq<LogEntry>, p: Progress, reach: nat, j: nat, id: u64)
    requires Standing(log, p, reach) && id != SYSTEM_ID
    requires j < |SortedPage(log, p.cursor)| && NeedsRow(SortedPage(log, p.cursor)[j].entry.event) == Some(id)
    ensures var entries := Entries(SortedPage(log, p.cursor));
            j < |entries|
            && (id in HandleAll(p.db, entries[..j]).rows <==> CreatedIn(log[..PageEnd(log, p.cursor)], id))
  {
    var end := PageEnd(log, p.cursor);
    SortedPageShape(log, p.cursor);
    RowsAfterwards(p.db, Entries(SortedPage(log, p.cursor))[..j], id);
    CreationsAreBehind(log[p.cursor..end], j, id);
    CreatedInParts(log, p.cursor, reach, end, id);
  }

  /** An event of the page fails exactly when it wants a row no creation has made. */
  lemma FailsAtItsTurn(log: seq<LogEntry>, p: Progress, reach: nat, j: nat)
    requires FreshPairs({}, log) && Addressed(log) && Standing(log, p, reach) && j < |SortedPage(log, p.cursor)|
    ensures var x := SortedPage(log, p.cursor)[j].entry;
            && j < |Entries(SortedPage(log, p.cursor))|
            && (FailsAt(p.db, Entries(SortedPage(log, p.cursor)), j)
                <==> NeedsRow(x.event).Some?
                     && !CreatedIn(log[..PageEnd(log, p.cursor)], NeedsRow(x.event).value))
  {
    var sorted := SortedPage(log, p.cursor);
    SortedPageShape(log, p.cursor);
    var x := sorted[j].entry;
    assert log[sorted[j].cursor - 1] == x && Entries(sorted)[j] == x;
    if NeedsRow(x.event).Some? {
      UnseenAtItsTurn(log, p, reach, j);
      RowsAtItsTurn(log, p, reach, j, NeedsRow(x.event).value);
    }
  }

  lemma OrderlyIsAddressed(log: seq<LogEntry>)
    requires Orderly(log)
    ensures Addressed(log)
  {
    forall i | 0 <= i < |log|
      ensures NeedsRow(log[i].event) != Some(SYSTEM_ID)
      ensures !(log[i].event.StreamCreated? && log[i].event.id == SYSTEM_ID)
    {
      assert Admissible(log[..i], log[i].event);
      Replay.OrderlyUpTo(log, i);
      NoSystemEvents(log[..i]);
    }
  }

  // ----- One poll -----

  /** Where a poll leaves the cursor, in terms of the last event handled. */
  lemma CursorOfPoll(log: seq<LogEntry>, p: Progress, named: bool)
    requires p.cursor <= |log|
    ensures var done := LastHandled(p.db, SortedPage(log, p.cursor));
            var after := PollOnce(log, p, named).cursor;
            && (done.None? ==> after == p.cursor)
            && (done.Some? ==> p.cursor < done.value.cursor <= after <= PageEnd(log, p.cursor))
  {
    SortedPageShape(log, p.cursor);
    LastHandledIsThere(p.db, SortedPage(log, p.cursor));
  }

  lemma {:induction false} LastHandledIsThere(db: Db, events: seq<FetchedEvent>)
    ensures LastHandled(db, events).Some? ==> LastHandled(db, events).value in events
    decreases |events|
  {
    if events != [] {
      LastHandledIsThere(db, events[..|events| - 1]);
    }
  }

  /** Every event of the next page fails as things stand. */
  ghost predicate StuckIn(log: seq<LogEntry>, p: Progress) {
    p.cursor <= |log| && forall i :: p.cursor <= i < PageEnd(log, p.cursor) ==> Handle(p.db, log[i]).None?
  }

  lemma {:induction false} FailuresLeaveAll(db: Db, entries: seq<LogEntry>)
    requires forall j :: 0 <= j < |entries| ==> FailsAt(db, entries, j)
    ensures HandleAll(db, entries) == db
    decreases |entries|
  {
    if entries != [] {
      var n := |entries| - 1;
      var front := entries[..n];
      forall j | 0 <= j < n ensures FailsAt(db, front, j) {
        assert FailsAt(db, entries, j) && entries[..j] == front[..j];
      }
      FailuresLeaveAll(db, front);
      assert FailsAt(db, entries, n);
    }
  }

  lemma {:induction false} LoneFailuresLeaveAll(db: Db, entries: seq<LogEntry>)
    requires forall j :: 0 <= j < |entries| ==> Handle(db, entries[j]).None?
    ensures HandleAll(db, entries) == db
    decreases |entries|
  {
    if entries != [] {
      LoneFailuresLeaveAll(db, entries[..|entries| - 1]);
    }
  }

  /** All events of a batch fail in their turn exactly when each would on its own. */
  lemma AllFail(db: Db, entries: seq<LogEntry>)
    ensures (forall j :: 0 <= j < |entries| ==> FailsAt(db, entries, j))
       <==> (forall j :: 0 <= j < |entries| ==> Handle(db, entries[j]).None?)
    ensures (forall j :: 0 <= j < |entries| ==> FailsAt(db, entries, j)) ==> HandleAll(db, entries) == db
  {
    if forall j :: 0 <= j < |entries| ==> FailsAt(db, entries, j) {
      forall j | 0 <= j < |entries| ensures Handle(db, entries[j]).None? {
        FailingPrefix(db, entries, j);
      }
      FailuresLeaveAll(db, entries);
    }
    if forall j :: 0 <= j < |entries| ==> Handle(db, entries[j]).None? {
      forall j | 0 <= j < |entries| ensures FailsAt(db, entries, j) {
        LoneFailuresLeaveAll(db, entries[..j]);
      }
    }
  }

  lemma FailingPrefix(db: Db, entries: seq<LogEntry>, j: nat)
    requires j < |entries| && forall i :: 0 <= i < |entries| ==> FailsAt(db, entries, i)
    ensures Handle(db, entries[j]).None?
  {
    forall i | 0 <= i < j ensures FailsAt(db, entries[..j], i) {
      assert FailsAt(db, entries, i) && entries[..j][..i] == entries[..i];
    }
    FailuresLeaveAll(db, entries[..j]);
    assert FailsAt(db, entries, j);
  }

  lemma StuckSorted(log: seq<LogEntry>, p: Progress)
    requires p.cursor <= |log|
    ensures var entries := Entries(SortedPage(log, p.cursor));
            StuckIn(log, p) <==> forall j :: 0 <= j < |entries| ==> Handle(p.db, entries[j]).None?
  {
    var sorted := SortedPage(log, p.cursor);
    SortedPageShape(log, p.cursor);
    var entries := Entries(sorted);
    if forall j :: 0 <= j < |entries| ==> Handle(p.db, entries[j]).None? {
      forall i | p.cursor <= i < PageEnd(log, p.cursor) ensures Handle(p.db, log[i]).None? {
        SortedPageComplete(log, p.cursor, i);
        var j :| 0 <= j < |sorted| && sorted[j] == FetchedAt(log, i);
        assert entries[j] == log[i];
      }
    }
    if StuckIn(log, p) {
      forall j | 0 <= j < |entries| ensures Handle(p.db, entries[j]).None? {
        assert entries[j] == log[sorted[j].cursor - 1];
      }
    }
  }

  /** A poll moves the cursor, and never past the page, unless the whole page fails;
      then it changes nothing at all. */
  lemma PollMovesIff(log: seq<LogEntry>, p: Progress, named: bool)
    requires p.cursor <= |log|
    ensures var after := PollOnce(log, p, named);
            && p.cursor <= after.cursor <= PageEnd(log, p.cursor)
            && (p.cursor < after.cursor <==> !StuckIn(log, p))
            && (StuckIn(log, p) ==> after == p)
  {
    var sorted := SortedPage(log, p.cursor);
    SortedPageShape(log, p.cursor);
    CursorOfPoll(log, p, named);
    PollHandlesPage(log, p, named);
    StuckSorted(log, p);
    AllFail(p.db, Entries(sorted));
    if StuckIn(log, p) {
      NoneHandled(p.db, sorted);
    } else {
      var j :| 0 <= j < |sorted| && !FailsAt(p.db, Entries(sorted), j);
      LastHandledIsLate(p.db, sorted, j);
    }
  }

  /** In terms of the log alone, where pairs are distinct. */
  lemma StuckIffRowless(log: seq<LogEntry>, p: Progress, reach: nat)
    requires FreshPairs({}, log) && Addressed(log) && Standing(log, p, reach)
    ensures StuckIn(log, p) <==> StuckAt(log, p.cursor)
  {
    var end := PageEnd(log, p.cursor);
    forall i | p.cursor <= i < end && NeedsRow(log[i].event).Some?
      ensures Handle(p.db, log[i]).None? <==> !CreatedIn(log[..reach], NeedsRow(log[i].event).value)
    {
      var id := NeedsRow(log[i].event).value;
      assert id in p.db.rows <==> CreatedIn(log[..reach], id);
    }
    if StuckIn(log, p) {
      forall i | p.cursor <= i < end
        ensures NeedsRow(log[i].event).Some? && !CreatedIn(log[..end], NeedsRow(log[i].event).value)
      {
        NothingCreated(log, p);
        CreatedInParts(log, p.cursor, reach, end, NeedsRow(log[i].event).value);
      }
    }
    if StuckAt(log, p.cursor) {
      forall i | p.cursor <= i < end ensures Handle(p.db, log[i]).None? {
        CreatedInParts(log, p.cursor, reach, end, NeedsRow(log[i].event).value);
      }
    }
  }

  lemma NothingCreated(log: seq<LogEntry>, p: Progress)
    requires StuckIn(log, p)
    ensures forall id: u64 :: !CreatedIn(log[p.cursor..PageEnd(log, p.cursor)], id)
  {
    var page := log[p.cursor..PageEnd(log, p.cursor)];
    forall k | 0 <= k < |page| ensures !page[k].event.StreamCreated? {
      assert page[k] == log[p.cursor + k] && Handle(p.db, log[p.cursor + k]).None?;
    }
  }

  /** What is handled, creations aside, lies before the new cursor. */
  lemma HandledIsBehindCursor(log: seq<LogEntry>, p: Progress, named: bool, j: nat)
    requires p.cursor <= |log| && j < |SortedPage(log, p.cursor)|
    requires j < |Entries(SortedPage(log, p.cursor))| && !FailsAt(p.db, Entries(SortedPage(log, p.cursor)), j)
    requires !SortedPage(log, p.cursor)[j].entry.event.StreamCreated?
    ensures SortedPage(log, p.cursor)[j].cursor <= PollOnce(log, p, named).cursor
  {
    var sorted := SortedPage(log, p.cursor);
    SortedPageShape(log, p.cursor);
    CursorOfPoll(log, p, named);
    LastHandledIsLate(p.db, sorted, j);
    var m :| j <= m < |sorted| && LastHandled(p.db, sorted) == Some(sorted[m]);
    if j < m {
      SortedPageOrder(log, p.cursor, j, m);
    }
  }

  lemma PollHandlesPage(log: seq<LogEntry>, p: Progress, named: bool)
    requires p.cursor <= |log|
    ensures PollOnce(log, p, named).db == HandleAll(p.db, Entries(SortedPage(log, p.cursor)))
  {
    SortedPageShape(log, p.cursor);
    EntriesOfPage(log, p.cursor);
  }

  /** An event handled in the page is none past the new cursor, creations aside. */
  lemma HandledElsewhere(log: seq<LogEntry>, p: Progress, named: bool, i: nat, j: nat)
    requires FreshPairs({}, log) && p.cursor <= |log| && PollOnce(log, p, named).cursor <= i < |log|
    requires !log[i].event.StreamCreated? && KindOf(log[i].event).Some?
    requires j < |Entries(SortedPage(log, p.cursor))| && !FailsAt(p.db, Entries(SortedPage(log, p.cursor)), j)
    ensures var x := Entries(SortedPage(log, p.cursor))[j];
            !(x.tx == log[i].tx && KindOf(x.event) == KindOf(log[i].event))
  {
    var sorted := SortedPage(log, p.cursor);
    SortedPageShape(log, p.cursor);
    var x := sorted[j].entry;
    if x.tx == log[i].tx && KindOf(x.event) == KindOf(log[i].event) {
      assert log[sorted[j].cursor - 1] == x;
      SamePairSamePlace(log, sorted[j].cursor - 1, i);
      HandledIsBehindCursor(log, p, named, j);
      assert false;
    }
  }

  /** An event past the new cursor, other than a creation, was not handled. */
  lemma PastCursorUnhandled(log: seq<LogEntry>, p: Progress, reach: nat, named: bool, i: nat)
    requires FreshPairs({}, log) && Standing(log, p, reach)
    requires p.cursor <= PollOnce(log, p, named).cursor <= i < |log|
    requires !log[i].event.StreamCreated? && KindOf(log[i].event).Some?
    ensures (log[i].tx, KindOf(log[i].event).value) !in HandleAll(p.db, Entries(SortedPage(log, p.cursor))).seen
  {
    var entries, key := Entries(SortedPage(log, p.cursor)), (log[i].tx, KindOf(log[i].event).value);
    assert key !in p.db.seen;
    if key in HandleAll(p.db, entries).seen {
      SeenWasHandled(p.db, entries, key);
      var j :| 0 <= j < |entries| && !FailsAt(p.db, entries, j)
        && entries[j].tx == key.0 && KindOf(entries[j].event) == Some(key.1);
      HandledElsewhere(log, p, named, i, j);
      assert false;
    }
  }

  lemma SamePairSamePlace(log: seq<LogEntry>, a: nat, b: nat)
    requires FreshPairs({}, log) && a < |log| && b < |log| && KindOf(log[a].event).Some?
    requires (log[a].tx, KindOf(log[a].event)) == (log[b].tx, KindOf(log[b].event))
    ensures a == b
  {
  }

  lemma PollKeepsStanding(log: seq<LogEntry>, p: Progress, reach: nat, named: bool)
    requires FreshPairs({}, log) && Addressed(log) && Standing(log, p, reach)
    ensures Standing(log, PollOnce(log, p, named), PageEnd(log, p.cursor))
  {
    var end, after := PageEnd(log, p.cursor), PollOnce(log, p, named);
    PollMovesIff(log, p, named);
    EntriesOfPage(log, p.cursor);
    var page := log[p.cursor..end];
    forall id: u64 | id != SYSTEM_ID ensures id in after.db.rows <==> CreatedIn(log[..end], id) {
      RowsAfterwards(p.db, CreatesFirst(page), id);
      SortedCreates(page, id);
      CreatedInParts(log, p.cursor, reach, end, id);
    }
    forall i | after.cursor <= i < |log| && !log[i].event.StreamCreated? && KindOf(log[i].event).Some?
      ensures (log[i].tx, KindOf(log[i].event).value) !in after.db.seen
    {
      PastCursorUnhandled(log, p, reach, named, i);
      PollHandlesPage(log, p, named);
    }
  }

  lemma SortedCreates(batch: seq<LogEntry>, id: u64)
    ensures CreatedIn(CreatesFirst(batch), id) <==> CreatedIn(batch, id)
  {
    forall x: LogEntry ensures x in CreatesFirst(batch) <==> x in batch {
      SelectedIff(batch, (y: LogEntry) => y.event.StreamCreated?, x);
      SelectedIff(batch, (y: LogEntry) => !y.event.StreamCreated?, x);
    }
  }

  // ----- Any cursor that moves exactly when not stuck -----

  ghost predicate MovesAt(c: nat -> nat, stuck: nat -> bool, n: nat) {
    && c(n) <= c(n + 1) && (c(n) < c(n + 1) <==> !stuck(n))
    && (stuck(n) ==> stuck(n + 1))
  }

  ghost predicate MovesUnless(c: nat -> nat, stuck: nat -> bool) {
    forall n: nat :: MovesAt(c, stuck, n)
  }

  /** Some page ends at or past the end of the log. */
  ghost predicate GetsThere(c: nat -> nat, size: nat) {
    exists n: nat :: c(n) + PAGE >= size
  }

  ghost predicate NeverStuckBefore(c: nat -> nat, stuck: nat -> bool, size: nat) {
    forall n: nat :: c(n) + PAGE < size ==> !stuck(n)
  }

  ghost predicate StaysFrom(c: nat -> nat, n: nat) {
    forall m: nat :: n <= m ==> c(m) == c(n)
  }

  lemma {:induction false} CursorClimbs(c: nat -> nat, stuck: nat -> bool, n: nat, more: nat)
    requires MovesUnless(c, stuck)
    ensures c(n) <= c(n + more)
    ensures stuck(n) ==> c(n + more) == c(n) && stuck(n + more)
    decreases more
  {
    if more > 0 {
      CursorClimbs(c, stuck, n, more - 1);
      assert MovesAt(c, stuck, n + more - 1);
    }
  }

  lemma {:induction false} CursorGetsThere(c: nat -> nat, stuck: nat -> bool, size: nat, n: nat)
    requires MovesUnless(c, stuck) && NeverStuckBefore(c, stuck, size)
    ensures c(n) >= n || c(n) + PAGE >= size
  {
    if n > 0 {
      CursorGetsThere(c, stuck, size, n - 1);
      assert MovesAt(c, stuck, n - 1);
    }
  }

  lemma ThereMeansNeverStuck(c: nat -> nat, stuck: nat -> bool, size: nat, n: nat, k: nat)
    requires MovesUnless(c, stuck) && c(n) + PAGE >= size
    ensures c(k) + PAGE < size ==> !stuck(k)
  {
    if k <= n {
      CursorClimbs(c, stuck, k, n - k);
    } else {
      CursorClimbs(c, stuck, n, k - n);
    }
  }

  lemma GetsThereIff(c: nat -> nat, stuck: nat -> bool, size: nat)
    requires MovesUnless(c, stuck)
    ensures GetsThere(c, size) <==> NeverStuckBefore(c, stuck, size)
    ensures NeverStuckBefore(c, stuck, size) ==> c(size) + PAGE >= size
    ensures forall n: nat :: stuck(n) ==> StaysFrom(c, n)
  {
    if NeverStuckBefore(c, stuck, size) {
      CursorGetsThere(c, stuck, size, size);
    }
    forall n: nat, k: nat | c(n) + PAGE >= size ensures c(k) + PAGE < size ==> !stuck(k) {
      ThereMeansNeverStuck(c, stuck, size, n, k);
    }
    forall n: nat | stuck(n) ensures StaysFrom(c, n) {
      forall m: nat | n <= m ensures c(m) == c(n) {
        CursorClimbs(c, stuck, n, m - n);
      }
    }
  }

  // ----- Polls in sequence -----

  /** Polling a log from the beginning: p(n) is where n polls lead. */
  ghost predicate PollsOf(log: seq<LogEntry>, p: nat -> Progress, named: bool) {
    p(0) == Progress(EMPTY_DB, 0) && forall n: nat :: LeadsOn(log, p, named, n)
  }

  ghost predicate LeadsOn(log: seq<LogEntry>, p: nat -> Progress, named: bool, n: nat) {
    p(n).cursor <= |log| && p(n + 1) == PollOnce(log, p(n), named)
  }

  ghost function CursorOf(p: nat -> Progress): nat -> nat {
    (n: nat) => p(n).cursor
  }

  /** The next page of the n-th poll fails from end to end. */
  ghost function StuckOf(log: seq<LogEntry>, p: nat -> Progress): nat -> bool {
    (n: nat) => StuckIn(log, p(n))
  }

  lemma {:induction false} PollsStand(log: seq<LogEntry>, p: nat -> Progress, named: bool, n: nat) returns (reach: nat)
    requires FreshPairs({}, log) && Addressed(log) && PollsOf(log, p, named)
    ensures Standing(log, p(n), reach)
  {
    if n == 0 {
      reach := 0;
    } else {
      reach := PollsStand(log, p, named, n - 1);
      PollKeepsStanding(log, p(n - 1), reach, named);
      assert LeadsOn(log, p, named, n - 1);
      reach := PageEnd(log, p(n - 1).cursor);
    }
  }

  lemma OnePollMoves(log: seq<LogEntry>, p: nat -> Progress, named: bool, n: nat)
    requires PollsOf(log, p, named)
    ensures MovesAt(CursorOf(p), StuckOf(log, p), n)
  {
    assert LeadsOn(log, p, named, n);
    PollMovesIff(log, p(n), named);
  }

  lemma PollsMoveUnlessStuck(log: seq<LogEntry>, p: nat -> Progress, named: bool)
    requires PollsOf(log, p, named)
    ensures MovesUnless(CursorOf(p), StuckOf(log, p))
  {
    forall n: nat ensures MovesAt(CursorOf(p), StuckOf(log, p), n) {
      OnePollMoves(log, p, named, n);
    }
  }

  /** For any log: polling it from the beginning fetches every entry if and only if no
      poll finds, short of the end, a full page of events that all fail. As many polls
      as there are entries are then enough; and a poll that does find such a page is
      followed by none that gets past it. */
  lemma PollingReachesAllIff(log: seq<LogEntry>, p: nat -> Progress, named: bool)
    requires PollsOf(log, p, named)
    ensures var c, stuck := CursorOf(p), StuckOf(log, p);
            && (GetsThere(c, |log|) <==> NeverStuckBefore(c, stuck, |log|))
            && (NeverStuckBefore(c, stuck, |log|) ==> c(|log|) + PAGE >= |log|)
            && (forall n: nat :: stuck(n) ==> StaysFrom(c, n))
  {
    PollsMoveUnlessStuck(log, p, named);
    GetsThereIff(CursorOf(p), StuckOf(log, p), |log|);
  }

  /** Over the log of any run with distinct pairs those are the pages on which every
      event wants a row of a stream not opened as a linear one so far. */
  lemma StuckMeansRowless(s: State, steps: seq<Step>, p: nat -> Progress, named: bool, n: nat)
    requires Genesis(s) && FreshPairs({}, Run(s, steps).log) && PollsOf(Run(s, steps).log, p, named)
    ensures var log := Run(s, steps).log;
            p(n).cursor <= |log| && (StuckIn(log, p(n)) <==> StuckAt(log, p(n).cursor))
  {
    var log := Run(s, steps).log;
    LogOfEveryRun(s, steps);
    OrderlyIsAddressed(log);
    var reach := PollsStand(log, p, named, n);
    StuckIffRowless(log, p(n), reach);
  }

  /** Nor does it help that the log goes on: a full page that fails keeps failing. */
  lemma StuckForGood(log: seq<LogEntry>, more: seq<LogEntry>, cursor: nat)
    requires cursor + PAGE <= |log| && StuckAt(log, cursor)
    ensures StuckAt(log + more, cursor)
  {
    var end := cursor + PAGE;
    assert (log + more)[..end] == log[..end];
    forall i | cursor <= i < end
      ensures NeedsRow((log + more)[i].event).Some?
           && !CreatedIn((log + more)[..end], NeedsRow((log + more)[i].event).value)
    {
      assert (log + more)[i] == log[i];
    }
  }

  // ----- A run whose log is never read to the end -----

  /** Where n polls lead; one way to give the polls of a log. */
  function Polls(log: seq<LogEntry>, n: nat, named: bool): (p: Progress)
    ensures p.cursor <= |log|
  {
    if n == 0 then Progress(EMPTY_DB, 0)
    else
      CursorOfPoll(log, Polls(log, n - 1, named), named);
      PollOnce(log, Polls(log, n - 1, named), named)
  }

  lemma PollsExist(log: seq<LogEntry>, named: bool)
    ensures PollsOf(log, (n: nat) => Polls(log, n, named), named)
  {
  }

  /** A hybrid stream opened, and 101 withdrawals from it: the first poll gets no
      further than its creation event, which is ignored, and the next page, nothing
      but withdrawals without a row, keeps every later poll where it is. The last
      entry is never fetched. */
  lemma PollingCanStall(p: nat -> Progress)
    requires PollsOf(Run(BARE, Drips(101)).log, p, false)
    ensures Genesis(BARE) && FreshPairs({}, Run(BARE, Drips(101)).log) && |Run(BARE, Drips(101)).log| == 102
    ensures p(1).cursor == 1 && StaysFrom(CursorOf(p), 1) && !GetsThere(CursorOf(p), 102)
  {
    var s := Run(BARE, Drips(101));
    DripsReached(101);
    assert FreshPairs({}, s.log);
    DripsStuck(s.log);
    FirstPollOfDrips(s.log, p);
    StuckMeansRowless(BARE, Drips(101), p, false, 1);
    PollingReachesAllIff(s.log, p, false);
    assert StuckOf(s.log, p)(1);
  }

  /** One ignored creation and withdrawals of its stream. */
  ghost predicate DripLog(log: seq<LogEntry>) {
    && |log| == 102 && log[0].event.HybridCliffCreated?
    && forall i :: 1 <= i < |log| ==> log[i].event.TokensWithdrawn? && log[i].event.id == 1
  }

  lemma DripsStuck(log: seq<LogEntry>)
    requires DripLog(log)
    ensures StuckAt(log, 1)
  {
    assert forall i :: 0 <= i < |log| ==> !log[i].event.StreamCreated?;
  }

  lemma DripsStand(log: seq<LogEntry>)
    requires DripLog(log)
    ensures Addressed(log) && Standing(log, Progress(EMPTY_DB, 0), 0)
  {
  }

  lemma DripFails(log: seq<LogEntry>, j: nat)
    requires DripLog(log) && FreshPairs({}, log) && j < |SortedPage(log, 0)| && SortedPage(log, 0)[j].cursor != 1
    ensures j < |Entries(SortedPage(log, 0))| && FailsAt(EMPTY_DB, Entries(SortedPage(log, 0)), j)
  {
    var x := SortedPage(log, 0)[j];
    SortedPageShape(log, 0);
    assert x.entry == log[x.cursor - 1];
    assert NeedsRow(x.entry.event) == Some(1);
    NoCreation(log, PageEnd(log, 0));
    DripsStand(log);
    FailsAtItsTurn(log, Progress(EMPTY_DB, 0), 0, j);
  }

  /** All of its withdrawals fail, so no more than the creation can be passed. */
  lemma DripsFail(log: seq<LogEntry>)
    requires DripLog(log) && FreshPairs({}, log)
    ensures var done := LastHandled(EMPTY_DB, SortedPage(log, 0)); done.Some? ==> done.value.cursor == 1
  {
    var sorted := SortedPage(log, 0);
    var done := LastHandled(EMPTY_DB, sorted);
    if done.Some? {
      SortedPageShape(log, 0);
      LastHandledPasses(EMPTY_DB, sorted);
      var j :| 0 <= j < |sorted| && sorted[j] == done.value && !FailsAt(EMPTY_DB, Entries(sorted), j);
      if sorted[j].cursor != 1 {
        DripFails(log, j);
      }
    }
  }

  lemma NoCreation(log: seq<LogEntry>, end: nat)
    requires DripLog(log) && end <= |log|
    ensures forall id: u64 :: !CreatedIn(log[..end], id)
  {
    assert forall i :: 0 <= i < |log| ==> !log[i].event.StreamCreated?;
  }

  lemma FirstPollOfDrips(log: seq<LogEntry>, p: nat -> Progress)
    requires DripLog(log) && PollsOf(log, p, false) && FreshPairs({}, log)
    ensures p(1).cursor == 1
  {
    assert LeadsOn(log, p, false, 0);
    DripsStand(log);
    DripsFail(log);
    assert !StuckIn(log, p(0)) by { assert Handle(EMPTY_DB, log[0]).Some?; }
    PollMovesIff(log, p(0), false);
  }

  lemma {:induction false} LastHandledPasses(db: Db, events: seq<FetchedEvent>)
    requires forall k :: 0 <= k < |events| ==> events[k].successful
    requires |Entries(events)| == |events| && LastHandled(db, events).Some?
    ensures exists j :: 0 <= j < |events| && events[j] == LastHandled(db, events).value
              && !FailsAt(db, Entries(events), j)
    decreases |events|
  {
    var n := |events| - 1;
    var front, last := events[..n], events[n];
    AllSuccessful(front);
    assert Entries(events) == Entries(front) + [last.entry];
    assert Entries(events)[..n] == Entries(front);
    if Handle(HandleAll(db, Entries(front)), last.entry).Some? {
      assert !FailsAt(db, Entries(events), n);
    } else {
      LastHandledPasses(db, front);
      var j :| 0 <= j < |front| && front[j] == LastHandled(db, front).value && !FailsAt(db, Entries(front), j);
      assert Entries(events)[..j] == Entries(front)[..j] && events[j] == front[j];
      assert !FailsAt(db, Entries(events), j);
    }
  }
}
