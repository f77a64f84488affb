/** The time columns of the rows. The worker takes them from its own clock, except
    where the event says a time. */
module RowTimes {
  import opened Bounded
  import opened Results
  import opened StreamTypes
  import opened Indexer

  datatype Times = Times(lastUpdate: int, end: Option<int>, totalPaused: int)

  const SYSTEM_TIMES := Times(0, Some(0), 0)

  function TimesIn(times: map<u64, Times>, id: u64): Option<Times> {
    if id in times then Some(times[id]) else None
  }

  /** When a deposit runs out; never, at no rate. */
  function EndOf(start: int, deposited: int, rate: int, paused: int): Option<int> {
    if rate == 0 then None else Some(start + TruncDiv(deposited, rate) + paused)
  }

  /** No end at no rate; otherwise the start, the whole seconds the deposit lasts and the
      time paused. */
  lemma EndOfIs(start: int, deposited: int, rate: int, paused: int)
    ensures EndOf(start, deposited, rate, paused).None? <==> rate == 0
    ensures rate > 0 && deposited >= 0 ==>
              EndOf(start, deposited, rate, paused) == Some(start + deposited / rate + paused)
  {
  }

  function CreatedTimes(before: Option<Times>, e: Event): Times
    requires e.StreamCreated?
  {
    Times(e.startTime, EndOf(e.startTime, e.deposited, e.rate, 0), before.UnwrapOr(SYSTEM_TIMES).totalPaused)
  }

  /** Seconds since the pause, by the clock; a pause time of 0 reads as none. */
  function PauseLength(row: Row, clock: int): int {
    if row.pausedAt.Some? && row.pausedAt.value != 0 then clock - row.pausedAt.value else 0
  }

  /** The effect of a first-time event on the times of its row. */
  function TimesStep(t: Times, row: Row, e: Event, clock: int): Times {
    match e
    case StreamToppedUp(_, _, _, newDeposited, _) =>
      t.(lastUpdate := clock, end := EndOf(row.startTime, newDeposited, row.rate, t.totalPaused))
    case TokensWithdrawn(_, _, _, at) => t.(lastUpdate := at)
    case StreamCancelled(_, _, _, _, _) => t.(lastUpdate := clock)
    case StreamCompleted(_, _, _) => t.(lastUpdate := clock)
    case StreamPaused(_, _, _) => t.(lastUpdate := clock)
    case StreamResumed(_, _, newEnd) =>
      t.(lastUpdate := clock, end := Some(newEnd), totalPaused := t.totalPaused + PauseLength(row, clock))
    case _ => t
  }

  /** What handling one event, at the given reading of the clock, does to the times
      beside the rows. */
  function Stamp(times: map<u64, Times>, db: Db, entry: LogEntry, clock: int): map<u64, Times>
    requires times.Keys == db.rows.Keys
  {
    var e := entry.event;
    if e.FeeConfigUpdated? then (if SYSTEM_ID in times then times else times[SYSTEM_ID := SYSTEM_TIMES])
    else if e.StreamCreated? then times[e.id := CreatedTimes(TimesIn(times, e.id), e)]
    else if StreamOf(e).None? || StreamOf(e).value !in times then times
    else if (e.StreamToppedUp? || e.TokensWithdrawn?) && (entry.tx, KindOf(e).value) in db.seen then times
    else
      var id := StreamOf(e).value;
      times[id := TimesStep(times[id], db.rows[id], e, clock)]
  }

  /** Every row keeps times beside it, and a handler that fails leaves them alone. */
  lemma StampFits(times: map<u64, Times>, db: Db, entry: LogEntry, clock: int)
    requires times.Keys == db.rows.Keys
    ensures Stamp(times, db, entry, clock).Keys == HandleOrQuarantine(db, entry).rows.Keys
    ensures Handle(db, entry).None? ==> Stamp(times, db, entry, clock) == times
  {
  }

  /** A top-up or withdrawal passed over leaves the times alone; everything else about
      an existing stream sets its last update, recorded before or not. */
  lemma DuplicateStamps(times: map<u64, Times>, db: Db, entry: LogEntry, clock: int)
    requires times.Keys == db.rows.Keys && StreamOf(entry.event).Some? && StreamOf(entry.event).value in times
    requires !entry.event.StreamCreated?
    ensures var id, after := StreamOf(entry.event).value, Stamp(times, db, entry, clock);
            && id in after
            && if (entry.event.StreamToppedUp? || entry.event.TokensWithdrawn?)
                  && (entry.tx, KindOf(entry.event).value) in db.seen
               then after == times
               else && after == times[id := after[id]]
                    && after[id].lastUpdate == if entry.event.TokensWithdrawn? then entry.event.timestamp else clock
  {
  }

  /** The system row's times are all 0, set once. */
  lemma SystemStamps(times: map<u64, Times>, db: Db, entry: LogEntry, clock: int)
    requires times.Keys == db.rows.Keys && entry.event.FeeConfigUpdated?
    ensures Stamp(times, db, entry, clock)
         == if SYSTEM_ID in times then times else times[SYSTEM_ID := Times(0, Some(0), 0)]
  {
  }

  /** The times after handling the entries in order; the clock is read once for each. */
  function StampAll(times: map<u64, Times>, db: Db, entries: seq<LogEntry>, clocks: nat -> int)
    : (after: map<u64, Times>)
    requires times.Keys == db.rows.Keys
    ensures after.Keys == HandleAll(db, entries).rows.Keys
    decreases |entries|
  {
    if entries == [] then times
    else
      var n := |entries| - 1;
      StampFits(StampAll(times, db, entries[..n], clocks), HandleAll(db, entries[..n]), entries[n], clocks(n));
      Stamp(StampAll(times, db, entries[..n], clocks), HandleAll(db, entries[..n]), entries[n], clocks(n))
  }

  lemma StampLast(times: map<u64, Times>, db: Db, entries: seq<LogEntry>, clocks: nat -> int)
    requires times.Keys == db.rows.Keys && entries != []
    ensures var n := |entries| - 1;
            StampAll(times, db, entries, clocks)
            == Stamp(StampAll(times, db, entries[..n], clocks), HandleAll(db, entries[..n]), entries[n], clocks(n))
  {
  }

  lemma StampSnoc(times: map<u64, Times>, db: Db, entries: seq<LogEntry>, last: LogEntry, clocks: nat -> int)
    requires times.Keys == db.rows.Keys
    ensures StampAll(times, db, entries + [last], clocks)
         == Stamp(StampAll(times, db, entries, clocks), HandleAll(db, entries), last, clocks(|entries|))
  {
    var all, n := entries + [last], |entries|;
    assert |all| - 1 == n && all[..n] == entries && all[n] == last;
    StampLast(times, db, all, clocks);
  }

  // ----- The accrual anchor of a row -----

  /** The time an event leaves in the row: its own, or the clock's. */
  function AnchorOf(e: Event, clock: int): int {
    match e
    case StreamCreated(_, _, _, _, _, _, startTime) => startTime
    case TokensWithdrawn(_, _, _, at) => at
    case _ => clock
  }

  /** Set by the last event of the stream since its creation. */
  function AnchorAfter(entries: seq<LogEntry>, clocks: nat -> int, id: u64): Option<int>
    decreases |entries|
  {
    if entries == [] then None
    else
      var n := |entries| - 1;
      var before, e := AnchorAfter(entries[..n], clocks, id), entries[n].event;
      if StreamOf(e) == Some(id) && (e.StreamCreated? || before.Some?) then Some(AnchorOf(e, clocks(n))) else before
  }

  lemma StampAnchors(times: map<u64, Times>, db: Db, entry: LogEntry, clock: int, id: u64)
    requires times.Keys == db.rows.Keys && id != SYSTEM_ID
    requires KindOf(entry.event).Some? ==> (entry.tx, KindOf(entry.event).value) !in db.seen
    ensures var before, after := TimesIn(times, id), TimesIn(Stamp(times, db, entry, clock), id);
            if StreamOf(entry.event) == Some(id) && (entry.event.StreamCreated? || before.Some?)
            then after.Some? && after.value.lastUpdate == AnchorOf(entry.event, clock)
            else after == before
  {
  }

  /** Without duplicates the anchor in a row is the one set last. */
  lemma {:induction false} AnchorIsLastSet(entries: seq<LogEntry>, clocks: nat -> int, id: u64)
    requires FreshPairs({}, entries) && id != SYSTEM_ID
    ensures var t := TimesIn(StampAll(map[], EMPTY_DB, entries, clocks), id);
            && t.Some? == AnchorAfter(entries, clocks, id).Some?
            && (t.Some? ==> t.value.lastUpdate == AnchorAfter(entries, clocks, id).value)
    decreases |entries|
  {
    if entries != [] {
      var n := |entries| - 1;
      AnchorIsLastSet(entries[..n], clocks, id);
      LastPairIsFresh(EMPTY_DB, entries);
      StampAnchors(StampAll(map[], EMPTY_DB, entries[..n], clocks), HandleAll(EMPTY_DB, entries[..n]), entries[n],
                   clocks(n), id);
    }
  }

  // ----- The end time and the paused total of a row -----

  /** Seconds from each pause of the stream to the worker's handling of the resume; a
      pause at time 0 is taken for none. */
  ghost function ClockedPauses(entries: seq<LogEntry>, clocks: nat -> int, id: u64): int
    decreases |entries|
  {
    if entries == [] then 0
    else
      var n := |entries| - 1;
      var before, e, row := ClockedPauses(entries[..n], clocks, id), entries[n].event, RowAfter(None, entries[..n], id);
      if e.StreamResumed? && e.id == id && row.Some? && row.value.pausedAt.Some? && row.value.pausedAt.value > 0
      then before + (clocks(n) - row.value.pausedAt.value)
      else before
  }

  /** The end the stream's last creation, top-up or resume set: start and length of the
      deposit, pauses so far added by a top-up, or what the resume says. */
  ghost function EndAfter(entries: seq<LogEntry>, clocks: nat -> int, id: u64): Option<int>
    decreases |entries|
  {
    if entries == [] then None
    else
      var n := |entries| - 1;
      var e, row := entries[n].event, RowAfter(None, entries[..n], id);
      match e
      case StreamCreated(j, _, _, rate, _, deposited, start) =>
        if j == id && rate > 0 then Some(start + deposited / rate) else EndAfter(entries[..n], clocks, id)
      case StreamToppedUp(j, _, _, deposited, _) =>
        if j == id && row.Some? && row.value.rate > 0
        then Some(row.value.startTime + deposited / row.value.rate + ClockedPauses(entries[..n], clocks, id))
        else EndAfter(entries[..n], clocks, id)
      case StreamResumed(j, _, end) =>
        if j == id && row.Some? then Some(end) else EndAfter(entries[..n], clocks, id)
      case _ => EndAfter(entries[..n], clocks, id)
  }

  /** What a creation or top-up of the stream gives to divide: amounts and rates of
      linear streams are positive. */
  ghost predicate Dividable(entries: seq<LogEntry>, id: u64) {
    forall i :: 0 <= i < |entries| ==>
      match entries[i].event
      case StreamCreated(j, _, _, rate, _, deposited, _) => j == id ==> rate > 0 && deposited > 0
      case StreamToppedUp(j, _, _, deposited, _) => j == id ==> deposited > 0
      case _ => true
  }

  lemma {:induction false} DividableRow(entries: seq<LogEntry>, id: u64)
    requires Dividable(entries, id)
    ensures RowAfter(None, entries, id).Some? ==> RowAfter(None, entries, id).value.rate > 0
    decreases |entries|
  {
    if entries != [] {
      assert Dividable(entries[..|entries| - 1], id);
      DividableRow(entries[..|entries| - 1], id);
    }
  }

  lemma StampOwn(times: map<u64, Times>, db: Db, entry: LogEntry, clock: int, id: u64)
    requires times.Keys == db.rows.Keys && id != SYSTEM_ID
    requires KindOf(entry.event).Some? ==> (entry.tx, KindOf(entry.event).value) !in db.seen
    ensures var before, after, e := TimesIn(times, id), TimesIn(Stamp(times, db, entry, clock), id), entry.event;
            after == if StreamOf(e) != Some(id) then before
                     else if e.StreamCreated? then Some(CreatedTimes(before, e))
                     else if before.Some? then Some(TimesStep(before.value, db.rows[id], e, clock))
                     else None
  {
  }

  ghost predicate TimesTell(t: Times, entries: seq<LogEntry>, clocks: nat -> int, id: u64) {
    t.totalPaused == ClockedPauses(entries, clocks, id) && t.end == EndAfter(entries, clocks, id)
  }

  lemma OneEventTells(front: seq<LogEntry>, e: Event, tx: TxHash, clocks: nat -> int, id: u64, t: Times, row: Row)
    requires StreamOf(e) == Some(id) && !e.StreamCreated? && RowAfter(None, front, id) == Some(row) && row.rate > 0
    requires TimesTell(t, front, clocks, id)
    requires e.StreamToppedUp? ==> e.newDeposited > 0
    ensures TimesTell(TimesStep(t, row, e, clocks(|front|)), front + [LogEntry(tx, e)], clocks, id)
  {
    assert (front + [LogEntry(tx, e)])[..|front|] == front;
  }

  lemma CreationTells(front: seq<LogEntry>, e: Event, tx: TxHash, clocks: nat -> int, id: u64, t: Option<Times>)
    requires e.StreamCreated? && e.id == id && e.rate > 0 && e.deposited > 0
    requires ClockedPauses(front, clocks, id) == t.UnwrapOr(SYSTEM_TIMES).totalPaused
    ensures TimesTell(CreatedTimes(t, e), front + [LogEntry(tx, e)], clocks, id)
  {
    assert (front + [LogEntry(tx, e)])[..|front|] == front;
  }

  lemma OtherEventTells(front: seq<LogEntry>, last: LogEntry, clocks: nat -> int, id: u64)
    requires StreamOf(last.event) != Some(id)
    ensures ClockedPauses(front + [last], clocks, id) == ClockedPauses(front, clocks, id)
    ensures EndAfter(front + [last], clocks, id) == EndAfter(front, clocks, id)
  {
    assert (front + [last])[..|front|] == front;
  }

  lemma {:induction false} NothingTold(entries: seq<LogEntry>, clocks: nat -> int, id: u64)
    requires RowAfter(None, entries, id).None?
    ensures ClockedPauses(entries, clocks, id) == 0
    decreases |entries|
  {
    if entries != [] {
      NothingTold(entries[..|entries| - 1], clocks, id);
    }
  }

  /** Without duplicates the end time and the paused total of a row are what the
      stream's own creations, top-ups, pauses and resumes make them. */
  lemma {:induction false} TimesAreTold(entries: seq<LogEntry>, clocks: nat -> int, id: u64)
    requires FreshPairs({}, entries) && id != SYSTEM_ID && Dividable(entries, id)
    ensures var t := TimesIn(StampAll(map[], EMPTY_DB, entries, clocks), id);
            && t.Some? == RowAfter(None, entries, id).Some?
            && (t.Some? ==> TimesTell(t.value, entries, clocks, id))
    decreases |entries|
  {
    if entries != [] {
      var n := |entries| - 1;
      var front, last := entries[..n], entries[n];
      assert entries == front + [last] && Dividable(front, id);
      TimesAreTold(front, clocks, id);
      LastPairIsFresh(EMPTY_DB, entries);
      HandleAllFresh(EMPTY_DB, front, id);
      DividableRow(front, id);
      var times, db := StampAll(map[], EMPTY_DB, front, clocks), HandleAll(EMPTY_DB, front);
      StampOwn(times, db, last, clocks(n), id);
      RowAfterSnoc(None, front, last, id);
      StampSnoc(map[], EMPTY_DB, front, last, clocks);
      LastTells(front, last, clocks, id, TimesIn(times, id));
    }
  }

  lemma LastTells(front: seq<LogEntry>, last: LogEntry, clocks: nat -> int, id: u64, t: Option<Times>)
    requires Dividable(front + [last], id)
    requires t.Some? == RowAfter(None, front, id).Some? && (t.Some? ==> TimesTell(t.value, front, clocks, id))
    requires RowAfter(None, front, id).Some? ==> RowAfter(None, front, id).value.rate > 0
    ensures StreamOf(last.event) != Some(id) && t.Some? ==> TimesTell(t.value, front + [last], clocks, id)
    ensures StreamOf(last.event) == Some(id) && last.event.StreamCreated? ==>
              TimesTell(CreatedTimes(t, last.event), front + [last], clocks, id)
    ensures StreamOf(last.event) == Some(id) && !last.event.StreamCreated? && t.Some? ==>
              TimesTell(TimesStep(t.value, RowAfter(None, front, id).value, last.event, clocks(|front|)),
                        front + [last], clocks, id)
  {
    assert (front + [last])[|front|] == last;
    if StreamOf(last.event) != Some(id) {
      OtherEventTells(front, last, clocks, id);
    } else if last.event.StreamCreated? {
      if t.None? {
        NothingTold(front, clocks, id);
      }
      CreationTells(front, last.event, last.tx, clocks, id, t);
    } else if t.Some? {
      OneEventTells(front, last.event, last.tx, clocks, id, t.value, RowAfter(None, front, id).value);
    }
  }
}
