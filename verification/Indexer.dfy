/** The indexer's database and what each event handler does to it: one row per
    stream, and one record per (transaction, event type) pair already handled. */
module Indexer {
  import opened Bounded
  import opened Results
  import opened StreamTypes

  datatype Row = Row(
    sender: Address,
    recipient: Address,
    token: Address,
    rate: int,
    deposited: int,
    withdrawn: int,
    startTime: u64,
    isActive: bool,
    isPaused: bool,
    pausedAt: Option<u64>)

  datatype Kind =
    | CREATED | TOPPED_UP | WITHDRAWN | CANCELLED | COMPLETED | PAUSED | RESUMED
    | FEE_COLLECTED | FEE_CONFIG_UPDATED

  datatype Db = Db(rows: map<u64, Row>, seen: set<(TxHash, Kind)>)

  const EMPTY_DB := Db(map[], {})

  /** The row that protocol-wide events hang on. Contract ids start at 1. */
  const SYSTEM_ID: u64 := 0
  const SYSTEM_ROW := Row(0, 0, 0, 0, 0, 0, 0, false, false, None)

  /** How the worker files an event; it ignores the kinds it does not know. */
  function KindOf(e: Event): Option<Kind> {
    match e
    case StreamCreated(_, _, _, _, _, _, _) => Some(CREATED)
    case StreamToppedUp(_, _, _, _, _) => Some(TOPPED_UP)
    case TokensWithdrawn(_, _, _, _) => Some(WITHDRAWN)
    case StreamCancelled(_, _, _, _, _) => Some(CANCELLED)
    case StreamCompleted(_, _, _) => Some(COMPLETED)
    case StreamPaused(_, _, _) => Some(PAUSED)
    case StreamResumed(_, _, _) => Some(RESUMED)
    case FeeCollected(_, _, _, _) => Some(FEE_COLLECTED)
    case FeeConfigUpdated(_, _, _, _, _) => Some(FEE_CONFIG_UPDATED)
    case _ => None
  }

  /** Two events are filed alike only if they are of one kind. */
  lemma KindsTellApart(e: Event, f: Event)
    requires KindOf(e) == KindOf(f) && KindOf(e).Some?
    ensures (e.StreamCreated? <==> f.StreamCreated?) && (e.StreamToppedUp? <==> f.StreamToppedUp?)
         && (e.TokensWithdrawn? <==> f.TokensWithdrawn?) && (e.StreamCancelled? <==> f.StreamCancelled?)
         && (e.StreamCompleted? <==> f.StreamCompleted?) && (e.StreamPaused? <==> f.StreamPaused?)
         && (e.StreamResumed? <==> f.StreamResumed?) && (e.FeeCollected? <==> f.FeeCollected?)
         && (e.FeeConfigUpdated? <==> f.FeeConfigUpdated?)
  {
  }

  /** The stream whose row an event may change. */
  function StreamOf(e: Event): Option<u64> {
    match e
    case StreamCreated(id, _, _, _, _, _, _) => Some(id)
    case StreamToppedUp(id, _, _, _, _) => Some(id)
    case TokensWithdrawn(id, _, _, _) => Some(id)
    case StreamCancelled(id, _, _, _, _) => Some(id)
    case StreamCompleted(id, _, _) => Some(id)
    case StreamPaused(id, _, _) => Some(id)
    case StreamResumed(id, _, _) => Some(id)
    case _ => None
  }

  /** A creation fills a new row, or overwrites some of the fields of an old one. */
  function CreatedRow(row: Option<Row>, e: Event): Row
    requires e.StreamCreated?
  {
    match row
    case None => Row(e.sender, e.recipient, e.token, e.rate, e.deposited, 0, e.startTime, true, false, None)
    case Some(r) => r.(token := e.token, rate := e.rate, deposited := e.deposited, startTime := e.startTime,
                       isActive := true)
  }

  /** The effect of a first-time event on its stream's row. */
  function RowStep(row: Option<Row>, e: Event): Option<Row> {
    if e.StreamCreated? then Some(CreatedRow(row, e))
    else match row
      case None => None
      case Some(r) =>
        match e
        case StreamToppedUp(_, _, _, newDeposited, _) => Some(r.(deposited := newDeposited))
        case TokensWithdrawn(_, _, amount, _) => Some(r.(withdrawn := r.withdrawn + amount))
        case StreamCancelled(_, _, _, amountWithdrawn, _) => Some(r.(isActive := false, withdrawn := amountWithdrawn))
        case StreamCompleted(_, _, total) => Some(r.(isActive := false, withdrawn := total))
        case StreamPaused(_, _, at) => Some(r.(isPaused := true, pausedAt := Some(at)))
        case StreamResumed(_, _, _) => Some(r.(isPaused := false, pausedAt := None))
        case _ => Some(r)
  }

  function RowIn(db: Db, id: u64): Option<Row> {
    if id in db.rows then Some(db.rows[id]) else None
  }

  /** One handler, as one database transaction: None when it throws, which rolls
      the transaction back. A top-up, a withdrawal and a fee check for a duplicate
      before touching anything; the others update the row every time. */
  function Handle(db: Db, entry: LogEntry): Option<Db> {
    var e := entry.event;
    match KindOf(e)
    case None => Some(db)
    case Some(kind) =>
      var key := (entry.tx, kind);
      match e
      case FeeConfigUpdated(_, _, _, _, _) =>
        Some(Db(if SYSTEM_ID in db.rows then db.rows else db.rows[SYSTEM_ID := SYSTEM_ROW], db.seen + {key}))
      case FeeCollected(id, _, _, _) =>
        if key in db.seen then Some(db) else if id !in db.rows then None else Some(db.(seen := db.seen + {key}))
      case StreamToppedUp(id, _, _, newDeposited, _) =>
        if key in db.seen then Some(db)
        else if id !in db.rows then None
        else Some(Db(db.rows[id := db.rows[id].(deposited := newDeposited)], db.seen + {key}))
      case TokensWithdrawn(id, _, amount, _) =>
        if key in db.seen then Some(db)
        else if id !in db.rows then None
        else Some(Db(db.rows[id := db.rows[id].(withdrawn := db.rows[id].withdrawn + amount)], db.seen + {key}))
      case StreamCreated(id, _, _, _, _, _, _) =>
        Some(Db(db.rows[id := CreatedRow(RowIn(db, id), e)], db.seen + {key}))
      case StreamCancelled(id, _, _, amountWithdrawn, _) =>
        if id !in db.rows then None
        else Some(Db(db.rows[id := db.rows[id].(isActive := false, withdrawn := amountWithdrawn)], db.seen + {key}))
      case StreamCompleted(id, _, total) =>
        if id !in db.rows then None
        else Some(Db(db.rows[id := db.rows[id].(isActive := false, withdrawn := total)], db.seen + {key}))
      case StreamPaused(id, _, at) =>
        if id !in db.rows then None
        else Some(Db(db.rows[id := db.rows[id].(isPaused := true, pausedAt := Some(at))], db.seen + {key}))
      case StreamResumed(id, _, _) =>
        if id !in db.rows then None
        else Some(Db(db.rows[id := db.rows[id].(isPaused := false, pausedAt := None)], db.seen + {key}))
  }

  /** A failing event is quarantined and the rest of the batch goes on. */
  function HandleOrQuarantine(db: Db, entry: LogEntry): Db {
    match Handle(db, entry)
    case Some(after) => after
    case None => db
  }

  // ----- One handler at a time, on any database -----

  /** A creation gives a new row everything the event says and nothing paid; in an old
      row it rewrites token, rate, deposit, start and activity, and leaves parties,
      payments and pause. It is never skipped. */
  lemma CreationFills(db: Db, entry: LogEntry)
    requires entry.event.StreamCreated?
    ensures Handle(db, entry).Some? && entry.event.id in Handle(db, entry).value.rows
    ensures var e, after := entry.event, Handle(db, entry).value;
            var row := after.rows[e.id];
            && row.token == e.token && row.rate == e.rate && row.deposited == e.deposited
            && row.startTime == e.startTime && row.isActive
            && (e.id in db.rows ==>
                  var was := db.rows[e.id];
                  && row.sender == was.sender && row.recipient == was.recipient && row.withdrawn == was.withdrawn
                  && row.isPaused == was.isPaused && row.pausedAt == was.pausedAt)
            && (e.id !in db.rows ==>
                  && row.sender == e.sender && row.recipient == e.recipient && row.withdrawn == 0
                  && !row.isPaused && row.pausedAt == None)
            && after == Db(db.rows[e.id := row], db.seen + {(entry.tx, CREATED)})
  {
  }

  /** Top-ups, withdrawals and fees already recorded are passed over, row or no row. */
  lemma DuplicatesPassedOver(db: Db, entry: LogEntry)
    requires entry.event.StreamToppedUp? || entry.event.TokensWithdrawn? || entry.event.FeeCollected?
    requires (entry.tx, KindOf(entry.event).value) in db.seen
    ensures Handle(db, entry) == Some(db)
  {
  }

  /** What an event about an existing stream changes in its row. */
  lemma RowChanges(row: Row, e: Event)
    requires !e.StreamCreated? && StreamOf(e).Some? && RowStep(Some(row), e).Some?
    ensures RowStep(Some(row), e).value
         == if e.StreamToppedUp? then row.(deposited := e.newDeposited)
            else if e.TokensWithdrawn? then row.(withdrawn := row.withdrawn + e.amount)
            else if e.StreamCancelled? then row.(isActive := false, withdrawn := e.amountWithdrawn)
            else if e.StreamCompleted? then row.(isActive := false, withdrawn := e.totalWithdrawn)
            else if e.StreamPaused? then row.(isPaused := true, pausedAt := Some(e.pausedTime))
            else row.(isPaused := false, pausedAt := None)
  {
  }

  /** Cancellations, completions, pauses and resumes are done again each time they are
      handled, recorded or not; without a row all events but creations fail, unless
      passed over. */
  lemma OthersRedone(db: Db, entry: LogEntry)
    requires StreamOf(entry.event).Some? && !entry.event.StreamCreated?
    requires (entry.event.StreamToppedUp? || entry.event.TokensWithdrawn?) ==>
               (entry.tx, KindOf(entry.event).value) !in db.seen
    ensures var id := StreamOf(entry.event).value;
            if id !in db.rows then Handle(db, entry) == None
            else && RowStep(Some(db.rows[id]), entry.event).Some?
                 && Handle(db, entry) == Some(Db(db.rows[id := RowStep(Some(db.rows[id]), entry.event).value],
                                                 db.seen + {(entry.tx, KindOf(entry.event).value)}))
  {
  }

  /** A fee leaves all rows alone and is recorded once its stream has one; new fee
      settings make sure of the system row, inactive and empty, and are recorded;
      events of other kinds do nothing. */
  lemma FeesAndOthers(db: Db, entry: LogEntry)
    ensures entry.event.FeeCollected? && (entry.tx, FEE_COLLECTED) !in db.seen ==>
              Handle(db, entry) == if entry.event.id !in db.rows then None
                                   else Some(Db(db.rows, db.seen + {(entry.tx, FEE_COLLECTED)}))
    ensures entry.event.FeeConfigUpdated? ==>
              && Handle(db, entry).Some?
              && var after := Handle(db, entry).value;
                 && SYSTEM_ID in after.rows && after.seen == db.seen + {(entry.tx, FEE_CONFIG_UPDATED)}
                 && (SYSTEM_ID in db.rows ==> after.rows == db.rows)
                 && (SYSTEM_ID !in db.rows ==>
                       && after.rows == db.rows[SYSTEM_ID := after.rows[SYSTEM_ID]]
                       && !after.rows[SYSTEM_ID].isActive && after.rows[SYSTEM_ID].deposited == 0
                       && after.rows[SYSTEM_ID].rate == 0 && after.rows[SYSTEM_ID].withdrawn == 0)
    ensures StreamOf(entry.event).None? && !entry.event.FeeCollected? && !entry.event.FeeConfigUpdated? ==>
              Handle(db, entry) == Some(db)
  {
  }

  function HandleAll(db: Db, entries: seq<LogEntry>): Db {
    if entries == [] then db
    else HandleOrQuarantine(HandleAll(db, entries[..|entries| - 1]), entries[|entries| - 1])
  }

  lemma {:induction false} HandleAllConcat(db: Db, first: seq<LogEntry>, second: seq<LogEntry>)
    ensures HandleAll(db, first + second) == HandleAll(HandleAll(db, first), second)
    decreases |second|
  {
    if second == [] {
      assert first + second == first;
    } else {
      assert (first + second)[..|first + second| - 1] == first + second[..|second| - 1];
      HandleAllConcat(db, first, second[..|second| - 1]);
    }
  }

  // ----- A stream's row as a fold over its events -----

  function RowAfter(row: Option<Row>, entries: seq<LogEntry>, id: u64): Option<Row>
    decreases |entries|
  {
    if entries == [] then row
    else
      var before := RowAfter(row, entries[..|entries| - 1], id);
      var e := entries[|entries| - 1].event;
      if StreamOf(e) == Some(id) then RowStep(before, e) else before
  }

  lemma RowAfterSnoc(row: Option<Row>, entries: seq<LogEntry>, last: LogEntry, id: u64)
    ensures RowAfter(row, entries + [last], id)
         == if StreamOf(last.event) == Some(id) then RowStep(RowAfter(row, entries, id), last.event)
            else RowAfter(row, entries, id)
  {
    assert (entries + [last])[..|entries|] == entries;
  }

  /** The latest event of a stream that may change its row. */
  function LastOwn(entries: seq<LogEntry>, id: u64): Option<Event>
    decreases |entries|
  {
    if entries == [] then None
    else
      var e := entries[|entries| - 1].event;
      if StreamOf(e) == Some(id) then Some(e) else LastOwn(entries[..|entries| - 1], id)
  }

  lemma LastOwnSnoc(entries: seq<LogEntry>, last: LogEntry, id: u64)
    ensures LastOwn(entries + [last], id)
         == if StreamOf(last.event) == Some(id) then Some(last.event) else LastOwn(entries, id)
  {
    assert (entries + [last])[..|entries|] == entries;
  }

  /** No (transaction, type) pair occurs twice, nor was handled before. */
  ghost predicate FreshPairs(seen: set<(TxHash, Kind)>, entries: seq<LogEntry>) {
    && (forall i :: 0 <= i < |entries| && KindOf(entries[i].event).Some?
          ==> (entries[i].tx, KindOf(entries[i].event).value) !in seen)
    && (forall i, j :: 0 <= i < j < |entries| && KindOf(entries[i].event).Some?
          ==> (entries[i].tx, KindOf(entries[i].event)) != (entries[j].tx, KindOf(entries[j].event)))
  }

  lemma HandleFresh(db: Db, entry: LogEntry, id: u64)
    requires id != SYSTEM_ID
    requires KindOf(entry.event).Some? ==> (entry.tx, KindOf(entry.event).value) !in db.seen
    ensures var after := HandleOrQuarantine(db, entry);
            && RowIn(after, id)
               == (if StreamOf(entry.event) == Some(id) then RowStep(RowIn(db, id), entry.event) else RowIn(db, id))
            && forall key :: key in after.seen ==>
                 key in db.seen || (KindOf(entry.event) == Some(key.1) && key.0 == entry.tx)
  {
  }

  lemma {:induction false} SeenComesFromEntries(db: Db, entries: seq<LogEntry>, key: (TxHash, Kind))
    requires key in HandleAll(db, entries).seen
    ensures key in db.seen
         || exists i :: 0 <= i < |entries| && entries[i].tx == key.0 && KindOf(entries[i].event) == Some(key.1)
    decreases |entries|
  {
    if entries != [] {
      var front, last := entries[..|entries| - 1], entries[|entries| - 1];
      if key in HandleAll(db, front).seen {
        SeenComesFromEntries(db, front, key);
        if key !in db.seen {
          var i :| 0 <= i < |front| && front[i].tx == key.0 && KindOf(front[i].event) == Some(key.1);
          assert entries[i] == front[i];
        }
      } else {
        assert last.tx == key.0 && KindOf(last.event) == Some(key.1);
      }
    }
  }

  lemma LastPairIsFresh(db: Db, entries: seq<LogEntry>)
    requires FreshPairs(db.seen, entries) && entries != []
    ensures var front, last := entries[..|entries| - 1], entries[|entries| - 1];
            KindOf(last.event).Some? ==> (last.tx, KindOf(last.event).value) !in HandleAll(db, front).seen
  {
    var front, last := entries[..|entries| - 1], entries[|entries| - 1];
    forall i | 0 <= i < |front| && KindOf(front[i].event).Some?
      ensures (front[i].tx, KindOf(front[i].event)) != (last.tx, KindOf(last.event))
    {
      assert front[i] == entries[i];
    }
    if KindOf(last.event).Some? && (last.tx, KindOf(last.event).value) in HandleAll(db, front).seen {
      SeenComesFromEntries(db, front, (last.tx, KindOf(last.event).value));
    }
  }

  /** Without duplicates the database does to each stream's row exactly what the
      stream's own events say. */
  lemma {:induction false} HandleAllFresh(db: Db, entries: seq<LogEntry>, id: u64)
    requires id != SYSTEM_ID && FreshPairs(db.seen, entries)
    ensures RowIn(HandleAll(db, entries), id) == RowAfter(RowIn(db, id), entries, id)
    decreases |entries|
  {
    if entries != [] {
      var front, last := entries[..|entries| - 1], entries[|entries| - 1];
      HandleAllFresh(db, front, id);
      var m := HandleAll(db, front);
      LastPairIsFresh(db, entries);
      HandleFresh(m, last, id);
    }
  }
}
