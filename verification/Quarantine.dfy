/** Which events of a batch fail for want of a row, in ledger order and with the
    creations first. */
module Quarantine {
  import opened Bounded
  import opened Results
  import opened StreamTypes
  import opened Storage
  import opened Entrypoints
  import opened Indexer
  import opened PollOrder

  /** The stream whose row must exist for the event to be handled. */
  function NeedsRow(e: Event): Option<u64> {
    match e
    case StreamCreated(_, _, _, _, _, _, _) => None
    case FeeCollected(id, _, _, _) => Some(id)
    case _ => StreamOf(e)
  }

  /** The entries whose handler fails when its turn comes, in order. */
  function Failures(db: Db, entries: seq<LogEntry>): seq<LogEntry>
    decreases |entries|
  {
    if entries == [] then []
    else
      var front, last := entries[..|entries| - 1], entries[|entries| - 1];
      if Handle(HandleAll(db, front), last).None? then Failures(db, front) + [last] else Failures(db, front)
  }

  ghost predicate CreatedIn(entries: seq<LogEntry>, id: u64) {
    exists x :: x in entries && x.event.StreamCreated? && x.event.id == id
  }

  /** Rows come from creations and are never dropped. */
  lemma {:induction false} RowsAfterwards(db: Db, entries: seq<LogEntry>, id: u64)
    requires id != SYSTEM_ID
    ensures id in HandleAll(db, entries).rows <==> id in db.rows || CreatedIn(entries, id)
    decreases |entries|
  {
    if entries != [] {
      var front, last := entries[..|entries| - 1], entries[|entries| - 1];
      RowsAfterwards(db, front, id);
      assert entries == front + [last];
      assert forall x :: x in entries <==> x in front || x == last;
    }
  }

  /** The entry at place i fails when its turn comes. */
  predicate FailsAt(db: Db, entries: seq<LogEntry>, i: nat)
    requires i < |entries|
  {
    Handle(HandleAll(db, entries[..i]), entries[i]).None?
  }

  lemma {:induction false} FailureIsListed(db: Db, entries: seq<LogEntry>, i: nat)
    requires i < |entries| && FailsAt(db, entries, i)
    ensures entries[i] in Failures(db, entries)
    decreases |entries|
  {
    var n := |entries| - 1;
    if i < n {
      assert entries[..n][..i] == entries[..i];
      FailureIsListed(db, entries[..n], i);
    }
  }

  lemma {:induction false} ListedFails(db: Db, entries: seq<LogEntry>, x: LogEntry) returns (i: nat)
    requires x in Failures(db, entries)
    ensures i < |entries| && entries[i] == x && FailsAt(db, entries, i)
    decreases |entries|
  {
    var n := |entries| - 1;
    var front := entries[..n];
    if x in Failures(db, front) {
      i := ListedFails(db, front, x);
      assert front[..i] == entries[..i];
    } else {
      i := n;
    }
  }

  lemma FailuresAt(db: Db, entries: seq<LogEntry>, x: LogEntry)
    ensures x in Failures(db, entries)
       <==> exists i :: 0 <= i < |entries| && entries[i] == x && FailsAt(db, entries, i)
  {
    if x in Failures(db, entries) {
      var i := ListedFails(db, entries, x);
    }
    forall i | 0 <= i < |entries| && entries[i] == x && FailsAt(db, entries, i) ensures x in Failures(db, entries) {
      FailureIsListed(db, entries, i);
    }
  }

  /** An event fails exactly when its stream has no row and no earlier creation. */
  lemma FailsIff(db: Db, entries: seq<LogEntry>, i: nat)
    requires FreshPairs(db.seen, entries) && i < |entries| && NeedsRow(entries[i].event) != Some(SYSTEM_ID)
    ensures FailsAt(db, entries, i)
       <==> && NeedsRow(entries[i].event).Some? && NeedsRow(entries[i].event).value !in db.rows
            && !CreatedIn(entries[..i], NeedsRow(entries[i].event).value)
  {
    var upTo := entries[..i + 1];
    assert upTo[..i] == entries[..i] && upTo[i] == entries[i];
    LastPairIsFresh(db, upTo);
    if NeedsRow(entries[i].event).Some? {
      RowsAfterwards(db, entries[..i], NeedsRow(entries[i].event).value);
    }
  }

  /** By the time the sort lets a non-creation through, every creation is behind it. */
  lemma CreationsAreBehind(batch: seq<LogEntry>, i: nat, id: u64)
    requires i < |CreatesFirst(batch)| && !CreatesFirst(batch)[i].event.StreamCreated?
    ensures CreatedIn(CreatesFirst(batch)[..i], id) <==> CreatedIn(batch, id)
  {
    var created, others := (x: LogEntry) => x.event.StreamCreated?, (x: LogEntry) => !x.event.StreamCreated?;
    var first, rest := Select(batch, created), Select(batch, others);
    var sorted := CreatesFirst(batch);
    assert sorted == first + rest;
    if i < |first| {
      SelectedIff(batch, created, first[i]);
      assert false;
    }
    assert sorted[..i] == first + rest[..i - |first|];
    forall x: LogEntry ensures x in sorted[..i] && x.event.StreamCreated? <==> x in batch && x.event.StreamCreated? {
      SelectedIff(batch, created, x);
      SelectedIff(batch, others, x);
    }
  }

  /** With creations first, an event of a batch is quarantined exactly when its
      stream has no row before the batch and no creation anywhere in it. */
  lemma SortedBatchQuarantinesIff(db: Db, batch: seq<LogEntry>, x: LogEntry)
    requires FreshPairs(db.seen, batch) && x in batch && NeedsRow(x.event) != Some(SYSTEM_ID)
    ensures x in Failures(db, CreatesFirst(batch))
       <==> && NeedsRow(x.event).Some? && NeedsRow(x.event).value !in db.rows
            && !CreatedIn(batch, NeedsRow(x.event).value)
  {
    var sorted := CreatesFirst(batch);
    SortKeepsFreshness(db.seen, batch);
    FailuresAt(db, sorted, x);
    SelectedIff(batch, (y: LogEntry) => y.event.StreamCreated?, x);
    SelectedIff(batch, (y: LogEntry) => !y.event.StreamCreated?, x);
    assert sorted == Select(batch, (y: LogEntry) => y.event.StreamCreated?)
                   + Select(batch, (y: LogEntry) => !y.event.StreamCreated?);
    assert x in sorted;
    var k :| 0 <= k < |sorted| && sorted[k] == x;
    forall i | 0 <= i < |sorted| && sorted[i] == x
      ensures FailsAt(db, sorted, i)
         <==> && NeedsRow(x.event).Some? && NeedsRow(x.event).value !in db.rows
              && !CreatedIn(batch, NeedsRow(x.event).value)
    {
      FailsIff(db, sorted, i);
      if NeedsRow(x.event).Some? {
        CreationsAreBehind(batch, i, NeedsRow(x.event).value);
      }
    }
    assert sorted[k] == x;
  }

  /** In ledger order only the creations already gone by would count. */
  lemma LedgerOrderQuarantinesIff(db: Db, batch: seq<LogEntry>, i: nat)
    requires FreshPairs(db.seen, batch) && i < |batch| && NeedsRow(batch[i].event) != Some(SYSTEM_ID)
    ensures batch[i] in Failures(db, batch)
       <==> && NeedsRow(batch[i].event).Some? && NeedsRow(batch[i].event).value !in db.rows
            && !CreatedIn(batch[..i], NeedsRow(batch[i].event).value)
  {
    FailuresAt(db, batch, batch[i]);
    FailsIff(db, batch, i);
  }

  /** What a fee-paying creation appends to the log: the fee first. */
  lemma FeeComesFirst(s: State, sender: Address, recipient: Address, token: Address, amount: i128, duration: u64)
    requires CreateStream(s, sender, recipient, token, amount, duration).Ok?
    requires TryLoadConfig(s).Some? && FeeOf(amount, TryLoadConfig(s).value.feeRateBps) > 0
    ensures var t := CreateStream(s, sender, recipient, token, amount, duration).value.0;
            && |t.log| == |s.log| + 2 && t.log[..|s.log|] == s.log
            && var fee, creation := t.log[|s.log|], t.log[|s.log| + 1];
               && fee.tx == creation.tx == s.tx
               && fee.event.FeeCollected? && fee.event.id == s.counter + 1
               && creation.event.StreamCreated? && creation.event.id == s.counter + 1
  {
    var (s1, id) := NextStreamId(s).value;
    var s2 := Transfer(s1, token, sender, s.self, amount).value;
    assert s2.log == s.log && TryLoadConfig(s2) == TryLoadConfig(s);
    var config := TryLoadConfig(s2).value;
    var fee := FeeOf(amount, config.feeRateBps);
    var s3 := Transfer(s2, token, s2.self, config.treasury, fee).value;
    assert s3.log == s.log && s3.tx == s.tx;
    assert Deposit(s1, token, sender, amount, id)
        == Ok((Emit(s3, FeeCollected(id, config.treasury, fee, token)), amount - fee));
  }

  lemma CreatesFirstOfPair(x: LogEntry, creation: LogEntry)
    requires creation.event.StreamCreated? && !x.event.StreamCreated?
    ensures CreatesFirst([x] + [creation]) == [creation] + [x]
  {
    assert ([x] + [creation])[..1] == [x] && [x][..0] == [];
    assert Select([x], (y: LogEntry) => y.event.StreamCreated?) == [];
    assert Select([x], (y: LogEntry) => !y.event.StreamCreated?) == [x];
  }

  lemma FailuresOfPair(db: Db, x: LogEntry, y: LogEntry)
    ensures Failures(db, [x] + [y])
         == (if Handle(db, x).None? then [x] else []) + (if Handle(HandleOrQuarantine(db, x), y).None? then [y] else [])
  {
    assert ([x] + [y])[..1] == [x] && [x][..0] == [];
    assert HandleAll(db, []) == db && Failures(db, []) == [];
    assert HandleAll(db, [x]) == HandleOrQuarantine(db, x);
    assert Failures(db, [x]) == if Handle(db, x).None? then [x] else [];
  }

  /** A fee event just ahead of the creation of its stream. */
  lemma FeeThenCreation(db: Db, fee: LogEntry, creation: LogEntry)
    requires fee.event.FeeCollected? && creation.event.StreamCreated? && fee.event.id == creation.event.id
    requires fee.event.id !in db.rows && (fee.tx, FEE_COLLECTED) !in db.seen
    ensures Failures(db, [fee] + [creation]) == [fee]
    ensures Failures(db, CreatesFirst([fee] + [creation])) == []
  {
    FailuresOfPair(db, fee, creation);
    CreatesFirstOfPair(fee, creation);
    FailuresOfPair(db, creation, fee);
  }

  /** Why the worker sorts: handled in ledger order, the fee event of every creation
      that pays one is quarantined; with creations first it goes through. */
  lemma FeeNeedsTheSort(s: State, sender: Address, recipient: Address, token: Address, amount: i128, duration: u64,
                        db: Db)
    requires CreateStream(s, sender, recipient, token, amount, duration).Ok?
    requires TryLoadConfig(s).Some? && FeeOf(amount, TryLoadConfig(s).value.feeRateBps) > 0
    requires s.counter + 1 !in db.rows && (s.tx, FEE_COLLECTED) !in db.seen
    ensures var t := CreateStream(s, sender, recipient, token, amount, duration).value.0;
            && |s.log| < |t.log|
            && Failures(db, t.log[|s.log|..]) == [t.log[|s.log|]]
            && Failures(db, CreatesFirst(t.log[|s.log|..])) == []
  {
    FeeComesFirst(s, sender, recipient, token, amount, duration);
    var log := CreateStream(s, sender, recipient, token, amount, duration).value.0.log;
    var fee, creation := log[|s.log|], log[|s.log| + 1];
    assert log[|s.log|..] == [fee] + [creation];
    FeeThenCreation(db, fee, creation);
  }
}
