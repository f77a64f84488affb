/** Handling each fetched batch with its stream creations first, against handling
    the log in ledger order. */
module PollOrder {
  import opened Bounded
  import opened Results
  import opened StreamTypes
  import opened Storage
  import opened Entrypoints
  import opened Runs
  import opened Indexer
  import opened ContractLog
  import opened Projection
  import opened Examples
  import Replay

  function Select<T>(entries: seq<T>, keep: T -> bool): seq<T>
    decreases |entries|
  {
    if entries == [] then []
    else
      var front, last := Select(entries[..|entries| - 1], keep), entries[|entries| - 1];
      if keep(last) then front + [last] else front
  }

  /** A stable sort that puts stream creations before everything else. */
  function CreatesFirst(entries: seq<LogEntry>): seq<LogEntry> {
    Select(entries, (x: LogEntry) => x.event.StreamCreated?) + Select(entries, (x: LogEntry) => !x.event.StreamCreated?)
  }

  /** The events that may change one stream's row, in order. */
  function About(entries: seq<LogEntry>, id: u64): seq<LogEntry> {
    Select(entries, (x: LogEntry) => StreamOf(x.event) == Some(id))
  }

  /** No event of the stream comes before its creation. */
  ghost predicate CreationLeads(entries: seq<LogEntry>, id: u64) {
    forall i, j :: 0 <= i < j < |entries| && entries[j].event.StreamCreated? && entries[j].event.id == id
      ==> StreamOf(entries[i].event) != Some(id)
  }

  lemma {:induction false} SelectConcat<T>(first: seq<T>, second: seq<T>, keep: T -> bool)
    ensures Select(first + second, keep) == Select(first, keep) + Select(second, keep)
    decreases |second|
  {
    if second == [] {
      assert first + second == first;
    } else {
      assert (first + second)[..|first + second| - 1] == first + second[..|second| - 1];
      SelectConcat(first, second[..|second| - 1], keep);
    }
  }

  lemma {:induction false} SelectTwice(entries: seq<LogEntry>, p: LogEntry -> bool, q: LogEntry -> bool)
    ensures Select(Select(entries, p), q) == Select(Select(entries, q), p)
    decreases |entries|
  {
    if entries != [] {
      var front, last := entries[..|entries| - 1], entries[|entries| - 1];
      SelectTwice(front, p, q);
      SelectConcat(Select(front, p), [last], q);
      SelectConcat(Select(front, q), [last], p);
    }
  }

  lemma {:induction false} SelectAll(entries: seq<LogEntry>, keep: LogEntry -> bool)
    requires forall i :: 0 <= i < |entries| ==> keep(entries[i])
    ensures Select(entries, keep) == entries
    decreases |entries|
  {
    if entries != [] {
      SelectAll(entries[..|entries| - 1], keep);
    }
  }

  lemma {:induction false} SelectNone(entries: seq<LogEntry>, keep: LogEntry -> bool)
    requires forall i :: 0 <= i < |entries| ==> !keep(entries[i])
    ensures Select(entries, keep) == []
    decreases |entries|
  {
    if entries != [] {
      SelectNone(entries[..|entries| - 1], keep);
    }
  }

  lemma {:induction false} SelectedIsIn(entries: seq<LogEntry>, keep: LogEntry -> bool, x: LogEntry)
    requires x in Select(entries, keep)
    ensures x in entries && keep(x)
    decreases |entries|
  {
    if entries != [] {
      var front := entries[..|entries| - 1];
      if x in Select(front, keep) {
        SelectedIsIn(front, keep, x);
      }
    }
  }

  /** A row depends only on its own stream's events. */
  lemma {:induction false} RowFromOwnEvents(row: Option<Row>, entries: seq<LogEntry>, id: u64)
    ensures RowAfter(row, entries, id) == RowAfter(row, About(entries, id), id)
    decreases |entries|
  {
    if entries != [] {
      var front, last := entries[..|entries| - 1], entries[|entries| - 1];
      RowFromOwnEvents(row, front, id);
      RowAfterSnoc(row, About(front, id), last, id);
    }
  }

  /** Within one stream whose creation leads, creations already come first. */
  lemma {:induction false} OwnEventsSorted(entries: seq<LogEntry>, id: u64)
    requires CreationLeads(entries, id)
    ensures var own := About(entries, id);
            CreatesFirst(own) == own
    decreases |entries|
  {
    if entries != [] {
      var front, last := entries[..|entries| - 1], entries[|entries| - 1];
      OwnEventsSorted(front, id);
      var own := About(front, id);
      var created, other := (x: LogEntry) => x.event.StreamCreated?, (x: LogEntry) => !x.event.StreamCreated?;
      if StreamOf(last.event) == Some(id) {
        SelectConcat(own, [last], created);
        SelectConcat(own, [last], other);
        assert Select([last], created) == if created(last) then [last] else [] by { assert [last][..0] == []; }
        assert Select([last], other) == if other(last) then [last] else [] by { assert [last][..0] == []; }
        if last.event.StreamCreated? {
          SelectNone(front, (x: LogEntry) => StreamOf(x.event) == Some(id));
        }
      }
    }
  }

  /** The sort keeps every stream's own events in ledger order. */
  lemma SortKeepsStreamOrder(entries: seq<LogEntry>, id: u64)
    requires CreationLeads(entries, id)
    ensures About(CreatesFirst(entries), id) == About(entries, id)
  {
    var created, other := (x: LogEntry) => x.event.StreamCreated?, (x: LogEntry) => !x.event.StreamCreated?;
    var mine := (x: LogEntry) => StreamOf(x.event) == Some(id);
    SelectConcat(Select(entries, created), Select(entries, other), mine);
    SelectTwice(entries, created, mine);
    SelectTwice(entries, other, mine);
    OwnEventsSorted(entries, id);
  }

  // ----- Freshness does not depend on order -----

  lemma InsertFresh(seen: set<(TxHash, Kind)>, front: seq<LogEntry>, back: seq<LogEntry>, last: LogEntry)
    requires FreshPairs(seen, front + back)
    requires KindOf(last.event).Some? ==> (last.tx, KindOf(last.event).value) !in seen
    requires KindOf(last.event).Some? ==> forall x :: x in front || x in back ==>
               (x.tx, KindOf(x.event)) != (last.tx, KindOf(last.event))
    ensures FreshPairs(seen, front + [last] + back)
  {
    var all, old' := front + [last] + back, front + back;
    forall i | 0 <= i < |all| && KindOf(all[i].event).Some?
      ensures (all[i].tx, KindOf(all[i].event).value) !in seen
    {
      if i != |front| {
        assert all[i] == old'[if i < |front| then i else i - 1];
      }
    }
    forall i, j | 0 <= i < j < |all| && KindOf(all[i].event).Some?
      ensures (all[i].tx, KindOf(all[i].event)) != (all[j].tx, KindOf(all[j].event))
    {
      if i != |front| {
        assert all[i] == old'[if i < |front| then i else i - 1];
        assert all[i] in front || all[i] in back;
      }
      if j != |front| {
        assert all[j] == old'[if j < |front| then j else j - 1];
        assert all[j] in front || all[j] in back;
      }
    }
  }

  lemma {:induction false} SortKeepsFreshness(seen: set<(TxHash, Kind)>, entries: seq<LogEntry>)
    requires FreshPairs(seen, entries)
    ensures FreshPairs(seen, CreatesFirst(entries))
    decreases |entries|
  {
    if entries != [] {
      var front, last := entries[..|entries| - 1], entries[|entries| - 1];
      SortKeepsFreshness(seen, front);
      var created, other := (x: LogEntry) => x.event.StreamCreated?, (x: LogEntry) => !x.event.StreamCreated?;
      var c, o := Select(front, created), Select(front, other);
      forall x | x in c || x in o
        ensures KindOf(last.event).Some? ==> (x.tx, KindOf(x.event)) != (last.tx, KindOf(last.event))
      {
        if x in c {
          SelectedIsIn(front, created, x);
        } else {
          SelectedIsIn(front, other, x);
        }
        var i :| 0 <= i < |front| && front[i] == x;
        assert entries[i] == x;
      }
      if last.event.StreamCreated? {
        InsertFresh(seen, c, o, last);
        assert CreatesFirst(entries) == c + [last] + o;
      } else {
        assert FreshPairs(seen, (c + o) + []) by {
          assert (c + o) + [] == c + o;
        }
        InsertFresh(seen, c + o, [], last);
        assert CreatesFirst(entries) == (c + o) + [last] + [];
      }
    }
  }

  /** One sorted batch gives every stream the row ledger order would give it. */
  lemma SortedBatchAgrees(db: Db, batch: seq<LogEntry>, id: u64)
    requires id != SYSTEM_ID && FreshPairs(db.seen, batch) && CreationLeads(batch, id)
    ensures RowIn(HandleAll(db, CreatesFirst(batch)), id) == RowIn(HandleAll(db, batch), id)
         == RowAfter(RowIn(db, id), batch, id)
  {
    SortKeepsFreshness(db.seen, batch);
    HandleAllFresh(db, batch, id);
    HandleAllFresh(db, CreatesFirst(batch), id);
    RowFromOwnEvents(RowIn(db, id), batch, id);
    RowFromOwnEvents(RowIn(db, id), CreatesFirst(batch), id);
    SortKeepsStreamOrder(batch, id);
  }

  // ----- Any batching of a contract log -----

  function Flatten(batches: seq<seq<LogEntry>>): seq<LogEntry> {
    if batches == [] then [] else Flatten(batches[..|batches| - 1]) + batches[|batches| - 1]
  }

  function Poll(db: Db, batches: seq<seq<LogEntry>>): Db {
    if batches == [] then db
    else HandleAll(Poll(db, batches[..|batches| - 1]), CreatesFirst(batches[|batches| - 1]))
  }

  lemma CreationLeadsInLog(log: seq<LogEntry>, id: u64)
    requires Orderly(log)
    ensures CreationLeads(log, id)
  {
    forall i, j | 0 <= i < j < |log| && log[j].event.StreamCreated? && log[j].event.id == id
      ensures StreamOf(log[i].event) != Some(id)
    {
      Replay.OrderlyUpTo(log, j);
      Replay.NothingBeforeCreation(log[..j], id);
      assert log[..j][i] == log[i];
    }
  }

  lemma {:induction false} SeenFromPolls(batches: seq<seq<LogEntry>>, key: (TxHash, Kind))
    requires key in Poll(EMPTY_DB, batches).seen
    ensures exists x :: x in Flatten(batches) && x.tx == key.0 && KindOf(x.event) == Some(key.1)
    decreases |batches|
  {
    if batches != [] {
      var front, last := batches[..|batches| - 1], batches[|batches| - 1];
      if key in Poll(EMPTY_DB, front).seen {
        SeenFromPolls(front, key);
        var x :| x in Flatten(front) && x.tx == key.0 && KindOf(x.event) == Some(key.1);
        assert x in Flatten(batches);
      } else {
        SeenComesFromEntries(Poll(EMPTY_DB, front), CreatesFirst(last), key);
        var i :| 0 <= i < |CreatesFirst(last)| && CreatesFirst(last)[i].tx == key.0
          && KindOf(CreatesFirst(last)[i].event) == Some(key.1);
        var x := CreatesFirst(last)[i];
        if x in Select(last, (y: LogEntry) => y.event.StreamCreated?) {
          SelectedIsIn(last, (y: LogEntry) => y.event.StreamCreated?, x);
        } else {
          SelectedIsIn(last, (y: LogEntry) => !y.event.StreamCreated?, x);
        }
        assert x in Flatten(batches);
      }
    }
  }

  lemma FreshParts(first: seq<LogEntry>, second: seq<LogEntry>)
    requires FreshPairs({}, first + second)
    ensures FreshPairs({}, first) && FreshPairs({}, second)
    ensures forall x, i :: x in first && 0 <= i < |second| && KindOf(second[i].event).Some? ==>
              (x.tx, KindOf(x.event)) != (second[i].tx, KindOf(second[i].event))
  {
    var all := first + second;
    assert forall i :: 0 <= i < |first| ==> first[i] == all[i];
    assert forall i :: 0 <= i < |second| ==> second[i] == all[|first| + i];
    forall x, i | x in first && 0 <= i < |second| && KindOf(second[i].event).Some?
      ensures (x.tx, KindOf(x.event)) != (second[i].tx, KindOf(second[i].event))
    {
      var k :| 0 <= k < |first| && first[k] == x;
      if KindOf(x.event) == KindOf(second[i].event) {
        assert (all[k].tx, KindOf(all[k].event)) != (all[|first| + i].tx, KindOf(all[|first| + i].event));
      }
    }
  }

  lemma LastBatchFresh(batches: seq<seq<LogEntry>>)
    requires batches != [] && FreshPairs({}, Flatten(batches))
    ensures FreshPairs({}, Flatten(batches[..|batches| - 1]))
    ensures FreshPairs(Poll(EMPTY_DB, batches[..|batches| - 1]).seen, batches[|batches| - 1])
  {
    var front, last := batches[..|batches| - 1], batches[|batches| - 1];
    FreshParts(Flatten(front), last);
    forall i | 0 <= i < |last| && KindOf(last[i].event).Some?
      ensures (last[i].tx, KindOf(last[i].event).value) !in Poll(EMPTY_DB, front).seen
    {
      if (last[i].tx, KindOf(last[i].event).value) in Poll(EMPTY_DB, front).seen {
        SeenFromPolls(front, (last[i].tx, KindOf(last[i].event).value));
      }
    }
  }

  /** However a log is cut into polled batches, sorting each batch gives every
      stream the row of ledger order. */
  lemma {:induction false} PollingAgrees(batches: seq<seq<LogEntry>>, id: u64)
    requires FreshPairs({}, Flatten(batches)) && CreationLeads(Flatten(batches), id) && id != SYSTEM_ID
    ensures RowIn(Poll(EMPTY_DB, batches), id) == RowAfter(None, Flatten(batches), id)
    decreases |batches|
  {
    if batches != [] {
      var front, last := batches[..|batches| - 1], batches[|batches| - 1];
      var before := Flatten(front);
      LastBatchFresh(batches);
      assert forall i :: 0 <= i < |before| ==> before[i] == Flatten(batches)[i];
      assert forall i :: 0 <= i < |last| ==> last[i] == Flatten(batches)[|before| + i];
      PollingAgrees(front, id);
      SortedBatchAgrees(Poll(EMPTY_DB, front), last, id);
      RowAfterConcat(None, before, last, id);
    }
  }

  lemma {:induction false} RowAfterConcat(row: Option<Row>, first: seq<LogEntry>, second: seq<LogEntry>, id: u64)
    ensures RowAfter(row, first + second, id) == RowAfter(RowAfter(row, first, id), second, id)
    decreases |second|
  {
    if second == [] {
      assert first + second == first;
    } else {
      assert (first + second)[..|first + second| - 1] == first + second[..|second| - 1];
      RowAfterConcat(row, first, second[..|second| - 1], id);
    }
  }

  /** Polled in sorted batches of any size, the log of any contract run still gives
      every stored linear stream a row that agrees with its record. */
  lemma PolledProjectionRefinesContract(s: State, steps: seq<Step>, batches: seq<seq<LogEntry>>, id: u64)
    requires Genesis(s) && Flatten(batches) == Run(s, steps).log && FreshPairs({}, Run(s, steps).log)
    requires TryLoadStream(Run(s, steps), id).Some?
    ensures var a := TryLoadStream(Run(s, steps), id).value;
            var row := RowIn(Poll(EMPTY_DB, batches), id);
            row.Some? == a.schedule.Linear? && (row.Some? ==> Mirrors(row.value, a))
  {
    AccountOf(s, steps, id);
    CreationLeadsInLog(Run(s, steps).log, id);
    PollingAgrees(batches, id);
  }

  // ----- Duplicates and all -----

  /** Equal but for which fee events were recorded; those hang on a row and touch
      none. */
  ghost predicate SameRows(a: Db, b: Db) {
    && a.rows == b.rows
    && forall key: (TxHash, Kind) :: key.1 != FEE_COLLECTED ==> (key in a.seen <==> key in b.seen)
  }

  lemma SameRowsStep(a: Db, b: Db, x: LogEntry)
    requires SameRows(a, b)
    ensures SameRows(HandleOrQuarantine(a, x), HandleOrQuarantine(b, x))
  {
  }

  lemma {:induction false} SameRowsAll(a: Db, b: Db, entries: seq<LogEntry>)
    requires SameRows(a, b)
    ensures SameRows(HandleAll(a, entries), HandleAll(b, entries))
    decreases |entries|
  {
    if entries != [] {
      var front := entries[..|entries| - 1];
      SameRowsAll(a, b, front);
      SameRowsStep(HandleAll(a, front), HandleAll(b, front), entries[|entries| - 1]);
    }
  }

  lemma CreationFillsRow(db: Db, creation: LogEntry)
    requires creation.event.StreamCreated?
    ensures var id := creation.event.id;
            HandleOrQuarantine(db, creation)
              == Db(db.rows[id := CreatedRow(RowIn(db, id), creation.event)], db.seen + {(creation.tx, CREATED)})
  {
  }

  /** What an event other than a creation does apart from its own row: it may record
      its pair, or start the system row. */
  lemma OtherEventEffect(db: Db, more: Db, x: LogEntry, id: u64, row: Row, key: (TxHash, Kind))
    requires !x.event.StreamCreated? && StreamOf(x.event) != Some(id) && id != SYSTEM_ID && key.1 == CREATED
    requires more == Db(db.rows[id := row], db.seen + {key})
    ensures var after, later := HandleOrQuarantine(db, x), HandleOrQuarantine(more, x);
            && later.rows == after.rows[id := row] && RowIn(after, id) == RowIn(db, id)
            && forall k: (TxHash, Kind) :: k.1 != FEE_COLLECTED ==> (k in later.seen <==> k in after.seen || k == key)
  {
  }

  /** A creation can be moved ahead of any event that is not its own stream's. */
  lemma CreationGoesFirst(db: Db, x: LogEntry, creation: LogEntry)
    requires creation.event.StreamCreated? && creation.event.id != SYSTEM_ID
    requires !x.event.StreamCreated? && StreamOf(x.event) != Some(creation.event.id)
    ensures SameRows(HandleOrQuarantine(HandleOrQuarantine(db, x), creation),
                     HandleOrQuarantine(HandleOrQuarantine(db, creation), x))
  {
    var id := creation.event.id;
    var row := CreatedRow(RowIn(db, id), creation.event);
    CreationFillsRow(db, creation);
    CreationFillsRow(HandleOrQuarantine(db, x), creation);
    OtherEventEffect(db, HandleOrQuarantine(db, creation), x, id, row, (creation.tx, CREATED));
  }

  lemma {:induction false} CreationGoesFirstOfAll(db: Db, rest: seq<LogEntry>, creation: LogEntry)
    requires creation.event.StreamCreated? && creation.event.id != SYSTEM_ID
    requires forall x :: x in rest ==> !x.event.StreamCreated? && StreamOf(x.event) != Some(creation.event.id)
    ensures SameRows(HandleOrQuarantine(HandleAll(db, rest), creation),
                     HandleAll(HandleOrQuarantine(db, creation), rest))
    decreases |rest|
  {
    if rest != [] {
      var front, x := rest[..|rest| - 1], rest[|rest| - 1];
      CreationGoesFirstOfAll(db, front, creation);
      CreationGoesFirst(HandleAll(db, front), x, creation);
      SameRowsStep(HandleOrQuarantine(HandleAll(db, front), creation),
                   HandleAll(HandleOrQuarantine(db, creation), front), x);
    }
  }

  ghost predicate CreationsLead(entries: seq<LogEntry>) {
    forall id: u64 :: CreationLeads(entries, id)
  }

  ghost predicate NoSystemCreation(entries: seq<LogEntry>) {
    forall i :: 0 <= i < |entries| && entries[i].event.StreamCreated? ==> entries[i].event.id != SYSTEM_ID
  }

  lemma PartsLead(first: seq<LogEntry>, second: seq<LogEntry>)
    requires CreationsLead(first + second) && NoSystemCreation(first + second)
    ensures CreationsLead(first) && NoSystemCreation(first) && CreationsLead(second) && NoSystemCreation(second)
  {
    var whole := first + second;
    assert forall i :: 0 <= i < |first| ==> first[i] == whole[i];
    assert forall i :: 0 <= i < |second| ==> second[i] == whole[i + |first|];
    forall id: u64 ensures CreationLeads(first, id) && CreationLeads(second, id) {
      assert CreationLeads(whole, id);
    }
  }

  lemma OthersAreElsewhere(front: seq<LogEntry>, creation: LogEntry, x: LogEntry)
    requires CreationsLead(front + [creation]) && creation.event.StreamCreated?
    requires x in Select(front, (y: LogEntry) => !y.event.StreamCreated?)
    ensures !x.event.StreamCreated? && StreamOf(x.event) != Some(creation.event.id)
  {
    SelectedIsIn(front, (y: LogEntry) => !y.event.StreamCreated?, x);
    var i :| 0 <= i < |front| && front[i] == x;
    assert CreationLeads(front + [creation], creation.event.id);
    assert (front + [creation])[i] == x && (front + [creation])[|front|] == creation;
  }

  /** A sorted batch leaves the rows that ledger order leaves, whatever it repeats. */
  lemma {:induction false} SortedBatchSameRows(db: Db, batch: seq<LogEntry>)
    requires CreationsLead(batch) && NoSystemCreation(batch)
    ensures SameRows(HandleAll(db, CreatesFirst(batch)), HandleAll(db, batch))
    decreases |batch|
  {
    if batch != [] {
      var front, last := batch[..|batch| - 1], batch[|batch| - 1];
      assert batch == front + [last];
      var first := Select(front, (x: LogEntry) => x.event.StreamCreated?);
      var rest := Select(front, (x: LogEntry) => !x.event.StreamCreated?);
      PartsLead(front, [last]);
      SortedBatchSameRows(db, front);
      SameRowsStep(HandleAll(db, first + rest), HandleAll(db, front), last);
      if last.event.StreamCreated? {
        forall x | x in rest ensures !x.event.StreamCreated? && StreamOf(x.event) != Some(last.event.id) {
          OthersAreElsewhere(front, last, x);
        }
        assert CreatesFirst(batch) == first + [last] + rest;
        HandleAllConcat(db, first, rest);
        HandleAllConcat(db, first + [last], rest);
        HandleSnoc(db, first, last);
        CreationGoesFirstOfAll(HandleAll(db, first), rest, last);
      } else {
        assert CreatesFirst(batch) == first + rest + [last];
        HandleSnoc(db, first + rest, last);
      }
    }
  }

  lemma {:induction false} PollsSameRows(batches: seq<seq<LogEntry>>)
    requires CreationsLead(Flatten(batches)) && NoSystemCreation(Flatten(batches))
    ensures SameRows(Poll(EMPTY_DB, batches), HandleAll(EMPTY_DB, Flatten(batches)))
    decreases |batches|
  {
    if batches != [] {
      var front, last := batches[..|batches| - 1], batches[|batches| - 1];
      PartsLead(Flatten(front), last);
      PollsSameRows(front);
      var before := Poll(EMPTY_DB, front);
      SortedBatchSameRows(before, last);
      SameRowsAll(before, HandleAll(EMPTY_DB, Flatten(front)), last);
      HandleAllConcat(EMPTY_DB, Flatten(front), last);
    }
  }

  /** However the log of a contract is cut into polls, and whatever is taken for a
      duplicate on the way, sorting each poll changes no row. */
  lemma PollingSameRows(batches: seq<seq<LogEntry>>)
    requires Orderly(Flatten(batches))
    ensures SameRows(Poll(EMPTY_DB, batches), HandleAll(EMPTY_DB, Flatten(batches)))
  {
    var log := Flatten(batches);
    forall id: u64 ensures CreationLeads(log, id) {
      CreationLeadsInLog(log, id);
    }
    forall i | 0 <= i < |log| && log[i].event.StreamCreated? ensures log[i].event.id != SYSTEM_ID {
      assert Admissible(log[..i], log[i].event);
    }
    PollsSameRows(batches);
  }

  /** The exact condition for a row to be right, as the worker polls: for any run,
      with its calls grouped into transactions in any way, and for any cut of its log
      into polls. */
  lemma PolledProjectionExactlyWhen(s: State, steps: seq<Step>, batches: seq<seq<LogEntry>>, id: u64)
    requires Genesis(s) && Flatten(batches) == Run(s, steps).log && TryLoadStream(Run(s, steps), id).Some?
    requires TryLoadStream(Run(s, steps), id).value.schedule.Linear?
    ensures var t := Run(s, steps);
            var a := TryLoadStream(t, id).value;
            var row := RowIn(Poll(EMPTY_DB, batches), id);
            && row.Some?
            && row.value.isActive == a.isActive
            && (row.value.withdrawn == a.withdrawn <==> !a.isActive || Missed(t.log, id) == 0)
            && (row.value.deposited == a.deposited <==> !StaleDeposit(t.log, id))
  {
    LogOfEveryRun(s, steps);
    PollingSameRows(batches);
    ProjectionExactlyWhen(s, steps, id);
  }

  /** No cut into polls saves the lost payment. */
  lemma PolledBatchPaymentLost(batches: seq<seq<LogEntry>>)
    requires Flatten(batches) == Advance(TwoStreams(), Invoke(3, CallBatchWithdraw(7, [1, 2]))).log
    ensures var t := Advance(TwoStreams(), Invoke(3, CallBatchWithdraw(7, [1, 2])));
            && TryLoadStream(t, 2).Some? && TryLoadStream(t, 2).value.withdrawn == 100
            && var row := RowIn(Poll(EMPTY_DB, batches), 2);
               row.Some? && row.value.withdrawn == 0
  {
    var steps := [FUND] + [Invoke(1, OPEN)] + [Invoke(2, OPEN)] + [Tick(10)];
    RunSnoc(BARE, steps, Invoke(3, CallBatchWithdraw(7, [1, 2])));
    LogOfEveryRun(BARE, steps + [Invoke(3, CallBatchWithdraw(7, [1, 2]))]);
    PollingSameRows(batches);
    BatchPaymentLost();
  }

  /** What a series of polls handles, in the order it does. */
  function InPollOrder(batches: seq<seq<LogEntry>>): seq<LogEntry> {
    if batches == [] then [] else InPollOrder(batches[..|batches| - 1]) + CreatesFirst(batches[|batches| - 1])
  }

  lemma {:induction false} PollHandles(db: Db, batches: seq<seq<LogEntry>>, log: seq<LogEntry>)
    requires Replay.DrawnFrom(Flatten(batches), log)
    ensures Poll(db, batches) == HandleAll(db, InPollOrder(batches)) && Replay.DrawnFrom(InPollOrder(batches), log)
    decreases |batches|
  {
    if batches != [] {
      var front, last := batches[..|batches| - 1], batches[|batches| - 1];
      var whole := Flatten(batches);
      assert forall i :: 0 <= i < |Flatten(front)| ==> Flatten(front)[i] == whole[i];
      assert forall i :: 0 <= i < |last| ==> last[i] == whole[|Flatten(front)| + i];
      PollHandles(db, front, log);
      HandleAllConcat(db, InPollOrder(front), CreatesFirst(last));
      forall i | 0 <= i < |CreatesFirst(last)| ensures CreatesFirst(last)[i] in log {
        SortedIsDrawn(last, CreatesFirst(last)[i]);
      }
    }
  }

  lemma SortedIsDrawn(batch: seq<LogEntry>, x: LogEntry)
    requires x in CreatesFirst(batch)
    ensures x in batch
  {
    if x in Select(batch, (y: LogEntry) => y.event.StreamCreated?) {
      SelectedIsIn(batch, (y: LogEntry) => y.event.StreamCreated?, x);
    } else {
      SelectedIsIn(batch, (y: LogEntry) => !y.event.StreamCreated?, x);
    }
  }

  /** Polling any part of a contract log again, in any order and any number of times,
      leaves every stream's payments as they were. */
  lemma PolledReplayKeepsWithdrawals(s: State, steps: seq<Step>, batches: seq<seq<LogEntry>>,
                                     again: seq<seq<LogEntry>>, id: u64)
    requires Genesis(s) && Flatten(batches) == Run(s, steps).log
    requires Replay.DrawnFrom(Flatten(again), Run(s, steps).log)
    requires id != SYSTEM_ID && id in Poll(EMPTY_DB, batches).rows
    ensures var before, after := Poll(EMPTY_DB, batches), Poll(Poll(EMPTY_DB, batches), again);
            id in after.rows && after.rows[id].withdrawn == before.rows[id].withdrawn
  {
    var log, before := Run(s, steps).log, Poll(EMPTY_DB, batches);
    LogOfEveryRun(s, steps);
    PollingSameRows(batches);
    PollHandles(before, again, log);
    SameRowsAll(before, HandleAll(EMPTY_DB, log), InPollOrder(again));
    Replay.ReplayKeepsWithdrawals(s, steps, InPollOrder(again), id);
  }

  /** Replaying polls leaves the rows that replaying, in the order handled, into the
      ledger-order database would. */
  lemma PolledReplaySameRows(batches: seq<seq<LogEntry>>, again: seq<seq<LogEntry>>)
    requires Orderly(Flatten(batches)) && Replay.DrawnFrom(Flatten(again), Flatten(batches))
    ensures Poll(EMPTY_DB, batches).rows == HandleAll(EMPTY_DB, Flatten(batches)).rows
    ensures Poll(Poll(EMPTY_DB, batches), again).rows
         == HandleAll(HandleAll(EMPTY_DB, Flatten(batches)), InPollOrder(again)).rows
    ensures Replay.DrawnFrom(InPollOrder(again), Flatten(batches))
  {
    PollingSameRows(batches);
    PollHandles(Poll(EMPTY_DB, batches), again, Flatten(batches));
    SameRowsAll(Poll(EMPTY_DB, batches), HandleAll(EMPTY_DB, Flatten(batches)), InPollOrder(again));
  }

  /** Polled again, a stream's activity survives exactly when the last event handled
      that speaks of it says what the log said last. */
  lemma PolledReplayKeepsActivityIff(batches: seq<seq<LogEntry>>, again: seq<seq<LogEntry>>, id: u64)
    requires Orderly(Flatten(batches)) && Replay.DrawnFrom(Flatten(again), Flatten(batches))
    requires id != SYSTEM_ID && id in Poll(EMPTY_DB, batches).rows
    ensures var before, after := Poll(EMPTY_DB, batches), Poll(Poll(EMPTY_DB, batches), again);
            var last := Replay.LastActivity(InPollOrder(again), id);
            && id in after.rows
            && (after.rows[id].isActive == before.rows[id].isActive
                <==> last == None || last == Replay.LastActivity(Flatten(batches), id))
  {
    PolledReplaySameRows(batches, again);
    Replay.ReplayKeepsActivityIff(Flatten(batches), InPollOrder(again), id);
  }

  lemma {:induction false} RecreatedInPolls(again: seq<seq<LogEntry>>, id: u64)
    ensures Replay.RecreatedIn(InPollOrder(again), id) <==> Replay.RecreatedIn(Flatten(again), id)
    decreases |again|
  {
    if again != [] {
      var front, last := again[..|again| - 1], again[|again| - 1];
      RecreatedInPolls(front, id);
      RecreatedInSorted(last, id);
      RecreatedInConcat(InPollOrder(front), CreatesFirst(last), id);
      RecreatedInConcat(Flatten(front), last, id);
    }
  }

  lemma RecreatedInConcat(first: seq<LogEntry>, second: seq<LogEntry>, id: u64)
    ensures Replay.RecreatedIn(first + second, id) <==> Replay.RecreatedIn(first, id) || Replay.RecreatedIn(second, id)
  {
    var whole := first + second;
    if Replay.RecreatedIn(first, id) {
      var i :| 0 <= i < |first| && first[i].event.StreamCreated? && first[i].event.id == id;
      assert whole[i].event.StreamCreated?;
    }
    if Replay.RecreatedIn(second, id) {
      var i :| 0 <= i < |second| && second[i].event.StreamCreated? && second[i].event.id == id;
      assert whole[|first| + i].event.StreamCreated?;
    }
  }

  lemma {:induction false} SelectedIff<T>(entries: seq<T>, keep: T -> bool, x: T)
    ensures x in Select(entries, keep) <==> x in entries && keep(x)
    decreases |entries|
  {
    if entries != [] {
      var front, last := entries[..|entries| - 1], entries[|entries| - 1];
      SelectedIff(front, keep, x);
      assert entries == front + [last];
    }
  }

  lemma RecreatedInSorted(batch: seq<LogEntry>, id: u64)
    ensures Replay.RecreatedIn(CreatesFirst(batch), id) <==> Replay.RecreatedIn(batch, id)
  {
    var sorted := CreatesFirst(batch);
    forall x: LogEntry ensures x in sorted <==> x in batch {
      SelectedIff(batch, (y: LogEntry) => y.event.StreamCreated?, x);
      SelectedIff(batch, (y: LogEntry) => !y.event.StreamCreated?, x);
    }
    if Replay.RecreatedIn(sorted, id) {
      var i :| 0 <= i < |sorted| && sorted[i].event.StreamCreated? && sorted[i].event.id == id;
      assert sorted[i] in batch;
    }
    if Replay.RecreatedIn(batch, id) {
      var i :| 0 <= i < |batch| && batch[i].event.StreamCreated? && batch[i].event.id == id;
      assert batch[i] in sorted;
    }
  }

  /** Polled again, a deposit survives exactly when the creation is not among what is
      polled or no top-up of the stream was ever recorded. */
  lemma PolledReplayKeepsDepositIff(batches: seq<seq<LogEntry>>, again: seq<seq<LogEntry>>, id: u64)
    requires Orderly(Flatten(batches)) && Replay.DrawnFrom(Flatten(again), Flatten(batches))
    requires id != SYSTEM_ID && id in Poll(EMPTY_DB, batches).rows
    ensures var before, after := Poll(EMPTY_DB, batches), Poll(Poll(EMPTY_DB, batches), again);
            && id in after.rows
            && (after.rows[id].deposited == before.rows[id].deposited
                <==> !Replay.RecreatedIn(Flatten(again), id) || Replay.AllTopUpsTaken(Flatten(batches), id))
  {
    PolledReplaySameRows(batches, again);
    Replay.ReplayKeepsDepositIff(Flatten(batches), InPollOrder(again), id);
    RecreatedInPolls(again, id);
  }
}
