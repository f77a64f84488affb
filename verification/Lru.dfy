/** The cache as a recency list: keys in the order they were last touched, the
    least recent first, and what each operation does to it. */
module Lru {
  import opened Results
  import opened Bounded

  datatype Item<V> = Item(value: V, createdAt: int, expiresAt: int)
  datatype Entry<K, V> = Entry(key: K, item: Item<V>)

  ghost predicate Distinct<K, V>(es: seq<Entry<K, V>>) {
    forall i, j :: 0 <= i < j < |es| ==> es[i].key != es[j].key
  }

  function Lookup<K(==), V>(es: seq<Entry<K, V>>, key: K): Option<Item<V>> {
    if es == [] then None
    else if es[0].key == key then Some(es[0].item)
    else Lookup(es[1..], key)
  }

  function Without<K(==), V>(es: seq<Entry<K, V>>, key: K): seq<Entry<K, V>> {
    if es == [] then []
    else if es[0].key == key then Without(es[1..], key)
    else [es[0]] + Without(es[1..], key)
  }

  function Unexpired<K, V>(es: seq<Entry<K, V>>, now: int): seq<Entry<K, V>> {
    if es == [] then []
    else if now >= es[0].item.expiresAt then Unexpired(es[1..], now)
    else [es[0]] + Unexpired(es[1..], now)
  }

  /** Drops the least recent entries until the cap is met or none are left. */
  function Evict<K, V>(es: seq<Entry<K, V>>, maxItems: int): seq<Entry<K, V>> {
    if |es| <= maxItems then es else if maxItems <= 0 then [] else es[|es| - maxItems..]
  }

  /** A key that answers moves to the most recent end; an expired one goes. */
  function Touch<K(==), V>(es: seq<Entry<K, V>>, key: K, now: int): (seq<Entry<K, V>>, Option<Item<V>>) {
    match Lookup(es, key)
    case None => (es, None)
    case Some(item) =>
      if now >= item.expiresAt then (Without(es, key), None)
      else (Without(es, key) + [Entry(key, item)], Some(item))
  }

  function Put<K(==), V>(es: seq<Entry<K, V>>, key: K, value: V, now: int, ttlMs: int, maxItems: int)
    : seq<Entry<K, V>>
  {
    Evict(Without(es, key) + [Entry(key, Item(value, now, now + ttlMs))], maxItems)
  }

  function Clean<K, V>(es: seq<Entry<K, V>>, now: int, maxItems: int): seq<Entry<K, V>> {
    Evict(Unexpired(es, now), maxItems)
  }

  datatype Op<K, V> =
    | Get(key: K, at: int)
    | GetMetadata(key: K, at: int)
    | Set(key: K, value: V, ttlMs: int, at: int)
    | Del(key: K)
    | Cleanup(at: int)

  function Apply<K(==), V>(es: seq<Entry<K, V>>, op: Op<K, V>, maxItems: int): seq<Entry<K, V>> {
    match op
    case Get(key, at) => Touch(es, key, at).0
    case GetMetadata(key, at) => Touch(es, key, at).0
    case Set(key, value, ttlMs, at) => Put(es, key, value, at, ttlMs, maxItems)
    case Del(key) => Without(es, key)
    case Cleanup(at) => Clean(es, at, maxItems)
  }

  function ApplyAll<K(==), V>(es: seq<Entry<K, V>>, ops: seq<Op<K, V>>, maxItems: int): seq<Entry<K, V>> {
    if ops == [] then es else Apply(ApplyAll(es, ops[..|ops| - 1], maxItems), ops[|ops| - 1], maxItems)
  }

  lemma ApplySnoc<K, V>(es: seq<Entry<K, V>>, ops: seq<Op<K, V>>, op: Op<K, V>, maxItems: int)
    ensures ApplyAll(es, ops + [op], maxItems) == Apply(ApplyAll(es, ops, maxItems), op, maxItems)
  {
    assert (ops + [op])[..|ops|] == ops;
  }

  // ----- Lists with distinct keys -----

  lemma {:induction false} WithoutConcat<K, V>(first: seq<Entry<K, V>>, second: seq<Entry<K, V>>, key: K)
    ensures Without(first + second, key) == Without(first, key) + Without(second, key)
  {
    if first == [] {
      assert first + second == second;
    } else {
      assert (first + second)[1..] == first[1..] + second;
      WithoutConcat(first[1..], second, key);
    }
  }

  lemma {:induction false} UnexpiredConcat<K, V>(first: seq<Entry<K, V>>, second: seq<Entry<K, V>>, now: int)
    ensures Unexpired(first + second, now) == Unexpired(first, now) + Unexpired(second, now)
  {
    if first == [] {
      assert first + second == second;
    } else {
      assert (first + second)[1..] == first[1..] + second;
      UnexpiredConcat(first[1..], second, now);
    }
  }

  lemma {:induction false} WithoutContents<K, V>(es: seq<Entry<K, V>>, key: K)
    ensures forall x :: x in Without(es, key) ==> x in es && x.key != key
    ensures |Without(es, key)| <= |es|
  {
    if es != [] {
      WithoutContents(es[1..], key);
    }
  }

  lemma {:induction false} WithoutDistinct<K, V>(es: seq<Entry<K, V>>, key: K)
    requires Distinct(es)
    ensures Distinct(Without(es, key))
  {
    if es != [] {
      WithoutDistinct(es[1..], key);
      WithoutContents(es[1..], key);
      var rest := Without(es[1..], key);
      forall i | 0 <= i < |rest| ensures rest[i].key != es[0].key {
        assert rest[i] in es[1..];
      }
    }
  }

  lemma {:induction false} WithoutAbsent<K, V>(es: seq<Entry<K, V>>, key: K)
    requires forall i :: 0 <= i < |es| ==> es[i].key != key
    ensures Without(es, key) == es
  {
    if es != [] {
      WithoutAbsent(es[1..], key);
    }
  }

  lemma {:induction false} WithoutPresent<K, V>(es: seq<Entry<K, V>>, key: K, i: nat)
    requires i < |es| && es[i].key == key
    ensures |Without(es, key)| < |es|
  {
    WithoutContents(es[1..], key);
    if es[0].key != key {
      WithoutPresent(es[1..], key, i - 1);
    }
  }

  lemma WithoutFilters<K, V>(es: seq<Entry<K, V>>, key: K)
    requires Distinct(es)
    ensures var rest := Without(es, key);
            && Distinct(rest) && |rest| <= |es|
            && (forall x :: x in rest ==> x in es && x.key != key)
  {
    WithoutContents(es, key);
    WithoutDistinct(es, key);
  }

  lemma {:induction false} UnexpiredContents<K, V>(es: seq<Entry<K, V>>, now: int)
    ensures forall x :: x in Unexpired(es, now) ==> x in es && now < x.item.expiresAt
    ensures |Unexpired(es, now)| <= |es|
  {
    if es != [] {
      UnexpiredContents(es[1..], now);
    }
  }

  lemma {:induction false} UnexpiredFilters<K, V>(es: seq<Entry<K, V>>, now: int)
    requires Distinct(es)
    ensures var rest := Unexpired(es, now);
            && Distinct(rest) && |rest| <= |es|
            && (forall x :: x in rest ==> x in es && now < x.item.expiresAt)
  {
    UnexpiredContents(es, now);
    if es != [] {
      UnexpiredFilters(es[1..], now);
      var rest := Unexpired(es[1..], now);
      forall i | 0 <= i < |rest| ensures rest[i].key != es[0].key {
        assert rest[i] in es[1..];
      }
    }
  }

  lemma {:induction false} LookupFinds<K, V>(es: seq<Entry<K, V>>, key: K)
    requires Distinct(es)
    ensures Lookup(es, key).None? ==> forall i :: 0 <= i < |es| ==> es[i].key != key
    ensures Lookup(es, key).Some? ==> Entry(key, Lookup(es, key).value) in es
    ensures forall i :: 0 <= i < |es| && es[i].key == key ==> Lookup(es, key) == Some(es[i].item)
  {
    if es != [] {
      LookupFinds(es[1..], key);
      assert forall i :: 0 < i < |es| ==> es[i] == es[1..][i - 1];
    }
  }

  lemma {:induction false} DistinctFit<K, V>(es: seq<Entry<K, V>>, room: set<K>)
    requires Distinct(es) && forall x :: x in es ==> x.key in room
    ensures |es| <= |room|
  {
    if es != [] {
      var rest := es[1..];
      assert es[0] in es;
      assert forall x :: x in rest ==> x in es && x.key != es[0].key;
      DistinctFit(rest, room - {es[0].key});
    }
  }

  // ----- Size bound -----

  lemma MovedToEnd<K, V>(es: seq<Entry<K, V>>, key: K, item: Item<V>)
    requires Distinct(es)
    ensures var moved := Without(es, key) + [Entry(key, item)];
            && Distinct(moved) && |moved| <= |es| + 1
            && (Lookup(es, key).Some? ==> |moved| <= |es|)
  {
    WithoutFilters(es, key);
    LookupFinds(es, key);
    if Lookup(es, key).Some? {
      var i :| 0 <= i < |es| && es[i] == Entry(key, Lookup(es, key).value);
      WithoutPresent(es, key, i);
    }
    var rest := Without(es, key);
    forall i | 0 <= i < |rest| ensures rest[i].key != key {
      assert rest[i] in rest;
    }
  }

  lemma EvictBounded<K, V>(es: seq<Entry<K, V>>, maxItems: nat)
    requires Distinct(es)
    ensures Distinct(Evict(es, maxItems)) && |Evict(es, maxItems)| <= maxItems
  {
  }

  lemma TouchBounded<K, V>(es: seq<Entry<K, V>>, key: K, now: int)
    requires Distinct(es)
    ensures Distinct(Touch(es, key, now).0) && |Touch(es, key, now).0| <= |es|
  {
    WithoutFilters(es, key);
    if Lookup(es, key).Some? {
      MovedToEnd(es, key, Lookup(es, key).value);
    }
  }

  lemma PutBounded<K, V>(es: seq<Entry<K, V>>, key: K, value: V, now: int, ttlMs: int, maxItems: nat)
    requires Distinct(es)
    ensures Distinct(Put(es, key, value, now, ttlMs, maxItems))
    ensures |Put(es, key, value, now, ttlMs, maxItems)| <= maxItems
  {
    MovedToEnd(es, key, Item(value, now, now + ttlMs));
    EvictBounded(Without(es, key) + [Entry(key, Item(value, now, now + ttlMs))], maxItems);
  }

  lemma CleanBounded<K, V>(es: seq<Entry<K, V>>, now: int, maxItems: nat)
    requires Distinct(es)
    ensures Distinct(Clean(es, now, maxItems)) && |Clean(es, now, maxItems)| <= maxItems
  {
    UnexpiredFilters(es, now);
    EvictBounded(Unexpired(es, now), maxItems);
  }

  lemma ApplyBounded<K, V>(es: seq<Entry<K, V>>, op: Op<K, V>, maxItems: nat)
    requires Distinct(es) && |es| <= maxItems
    ensures Distinct(Apply(es, op, maxItems)) && |Apply(es, op, maxItems)| <= maxItems
  {
    match op
    case Cleanup(at) => CleanBounded(es, at, maxItems);
    case Del(key) => WithoutFilters(es, key);
    case Set(key, value, ttlMs, at) => PutBounded(es, key, value, at, ttlMs, maxItems);
    case Get(key, at) => TouchBounded(es, key, at);
    case GetMetadata(key, at) => TouchBounded(es, key, at);
  }

  /** Whatever is asked of it, the cache never holds more than its cap, nor two
      entries under one key. */
  lemma {:induction false} SizeBounded<K, V>(es: seq<Entry<K, V>>, ops: seq<Op<K, V>>, maxItems: nat)
    requires Distinct(es) && |es| <= maxItems
    ensures Distinct(ApplyAll(es, ops, maxItems)) && |ApplyAll(es, ops, maxItems)| <= maxItems
    decreases |ops|
  {
    if ops != [] {
      SizeBounded(es, ops[..|ops| - 1], maxItems);
      ApplyBounded(ApplyAll(es, ops[..|ops| - 1], maxItems), ops[|ops| - 1], maxItems);
    }
  }

  // ----- Recency -----

  /** The key an operation brings to the most recent end, if any: one it sets, or
      one it asks for and finds alive. */
  function TouchedBy<K(==), V>(es: seq<Entry<K, V>>, op: Op<K, V>): Option<K> {
    match op
    case Set(key, _, _, _) => Some(key)
    case Get(key, at) => if Touch(es, key, at).1.Some? then Some(key) else None
    case GetMetadata(key, at) => if Touch(es, key, at).1.Some? then Some(key) else None
    case _ => None
  }

  /** Distinct keys other than k touched over a run of operations. */
  ghost function OthersTouched<K, V>(es: seq<Entry<K, V>>, ops: seq<Op<K, V>>, maxItems: int, k: K): set<K>
    decreases |ops|
  {
    if ops == [] then {}
    else
      var front, last := ops[..|ops| - 1], ops[|ops| - 1];
      var touched := TouchedBy(ApplyAll(es, front, maxItems), last);
      OthersTouched(es, front, maxItems, k) + if touched.Some? && touched.value != k then {touched.value} else {}
  }

  /** The operation neither overwrites nor deletes k, and k is alive at the time. */
  ghost predicate Spares<K, V>(op: Op<K, V>, k: K, expiresAt: int) {
    match op
    case Set(key, _, _, _) => key != k
    case Del(key) => key != k
    case Get(_, at) => at < expiresAt
    case GetMetadata(_, at) => at < expiresAt
    case Cleanup(at) => at < expiresAt
  }

  /** k is held, and everything more recent than it lies in a given set. */
  ghost predicate HeldBehind<K, V>(es: seq<Entry<K, V>>, k: K, item: Item<V>, others: set<K>) {
    exists i :: 0 <= i < |es| && es[i] == Entry(k, item) && forall x :: x in es[i + 1..] ==> x.key in others
  }

  lemma Held<K, V>(front: seq<Entry<K, V>>, k: K, item: Item<V>, back: seq<Entry<K, V>>, others: set<K>)
    requires forall x :: x in back ==> x.key in others
    ensures HeldBehind(front + [Entry(k, item)] + back, k, item, others)
  {
    var es := front + [Entry(k, item)] + back;
    assert es[|front|] == Entry(k, item) && es[|front| + 1..] == back;
  }

  lemma SplitHeld<K, V>(es: seq<Entry<K, V>>, k: K, item: Item<V>, others: set<K>)
    returns (front: seq<Entry<K, V>>, back: seq<Entry<K, V>>)
    requires HeldBehind(es, k, item, others)
    ensures es == front + [Entry(k, item)] + back && forall x :: x in back ==> x.key in others
  {
    var i :| 0 <= i < |es| && es[i] == Entry(k, item) && forall x :: x in es[i + 1..] ==> x.key in others;
    front, back := es[..i], es[i + 1..];
  }

  lemma DistinctParts<K, V>(front: seq<Entry<K, V>>, e: Entry<K, V>, back: seq<Entry<K, V>>)
    requires Distinct(front + [e] + back)
    ensures Distinct(front) && Distinct(back)
  {
    var es := front + [e] + back;
    assert forall i :: 0 <= i < |front| ==> front[i] == es[i];
    assert forall i :: 0 <= i < |back| ==> back[i] == es[|front| + 1 + i];
  }

  lemma RemovalSpares<K, V>(es: seq<Entry<K, V>>, key: K, k: K, item: Item<V>, others: set<K>)
    requires Distinct(es) && HeldBehind(es, k, item, others) && key != k
    ensures HeldBehind(Without(es, key), k, item, others)
  {
    var front, back := SplitHeld(es, k, item, others);
    var e := Entry(k, item);
    DistinctParts(front, e, back);
    WithoutConcat(front + [e], back, key);
    WithoutConcat(front, [e], key);
    assert Without([e], key) == [e];
    WithoutFilters(back, key);
    Held(Without(front, key), k, item, Without(back, key), others);
  }

  lemma AppendSpares<K, V>(es: seq<Entry<K, V>>, e: Entry<K, V>, k: K, item: Item<V>, others: set<K>)
    requires HeldBehind(es, k, item, others)
    ensures HeldBehind(es + [e], k, item, others + {e.key})
  {
    var front, back := SplitHeld(es, k, item, others);
    assert es + [e] == front + [Entry(k, item)] + (back + [e]);
    Held(front, k, item, back + [e], others + {e.key});
  }

  lemma ExpirySpares<K, V>(es: seq<Entry<K, V>>, now: int, k: K, item: Item<V>, others: set<K>)
    requires Distinct(es) && HeldBehind(es, k, item, others) && now < item.expiresAt
    ensures HeldBehind(Unexpired(es, now), k, item, others)
  {
    var front, back := SplitHeld(es, k, item, others);
    var e := Entry(k, item);
    DistinctParts(front, e, back);
    UnexpiredConcat(front + [e], back, now);
    UnexpiredConcat(front, [e], now);
    assert Unexpired([e], now) == [e];
    UnexpiredFilters(back, now);
    Held(Unexpired(front, now), k, item, Unexpired(back, now), others);
  }

  lemma EvictionSpares<K, V>(es: seq<Entry<K, V>>, maxItems: nat, k: K, item: Item<V>, others: set<K>)
    requires Distinct(es) && HeldBehind(es, k, item, others) && |others| < maxItems
    ensures HeldBehind(Evict(es, maxItems), k, item, others)
  {
    if |es| > maxItems {
      var front, back := SplitHeld(es, k, item, others);
      DistinctParts(front, Entry(k, item), back);
      DistinctFit(back, others);
      var dropped := |es| - maxItems;
      assert es[dropped..] == front[dropped..] + [Entry(k, item)] + back;
      Held(front[dropped..], k, item, back, others);
    }
  }

  lemma TouchedGoesLast<K, V>(es: seq<Entry<K, V>>, k: K, item: Item<V>, others: set<K>)
    ensures HeldBehind(Without(es, k) + [Entry(k, item)], k, item, others)
  {
    assert Without(es, k) + [Entry(k, item)] == Without(es, k) + [Entry(k, item)] + [];
    Held(Without(es, k), k, item, [], others);
  }

  lemma HeldIsFound<K, V>(es: seq<Entry<K, V>>, k: K, item: Item<V>, others: set<K>)
    requires Distinct(es) && HeldBehind(es, k, item, others)
    ensures Lookup(es, k) == Some(item)
  {
    var front, back := SplitHeld(es, k, item, others);
    assert es[|front|] == Entry(k, item);
    LookupFinds(es, k);
  }

  lemma CleanSpares<K, V>(es: seq<Entry<K, V>>, at: int, maxItems: nat, k: K, item: Item<V>, others: set<K>)
    requires Distinct(es) && HeldBehind(es, k, item, others) && at < item.expiresAt && |others| < maxItems
    ensures HeldBehind(Clean(es, at, maxItems), k, item, others)
  {
    ExpirySpares(es, at, k, item, others);
    UnexpiredFilters(es, at);
    EvictionSpares(Unexpired(es, at), maxItems, k, item, others);
  }

  lemma PutSpares<K, V>(es: seq<Entry<K, V>>, key: K, value: V, at: int, ttlMs: int, maxItems: nat,
                        k: K, item: Item<V>, others: set<K>)
    requires Distinct(es) && HeldBehind(es, k, item, others) && key != k && |others + {key}| < maxItems
    ensures HeldBehind(Put(es, key, value, at, ttlMs, maxItems), k, item, others + {key})
  {
    var e := Entry(key, Item(value, at, at + ttlMs));
    RemovalSpares(es, key, k, item, others);
    AppendSpares(Without(es, key), e, k, item, others);
    MovedToEnd(es, key, e.item);
    EvictionSpares(Without(es, key) + [e], maxItems, k, item, others + {key});
  }

  lemma TouchSpares<K, V>(es: seq<Entry<K, V>>, key: K, at: int, k: K, item: Item<V>, others: set<K>)
    requires Distinct(es) && HeldBehind(es, k, item, others) && at < item.expiresAt
    ensures var (after, hit) := Touch(es, key, at);
            HeldBehind(after, k, item, others + if hit.Some? && key != k then {key} else {})
  {
    assert others + {} == others;
    if key == k {
      HeldIsFound(es, k, item, others);
      TouchedGoesLast(es, k, item, others);
    } else {
      RemovalSpares(es, key, k, item, others);
      if Touch(es, key, at).1.Some? {
        AppendSpares(Without(es, key), Entry(key, Lookup(es, key).value), k, item, others);
      }
    }
  }

  lemma ApplySpares<K, V>(es: seq<Entry<K, V>>, op: Op<K, V>, maxItems: nat, k: K, item: Item<V>, others: set<K>)
    requires Distinct(es) && HeldBehind(es, k, item, others) && Spares(op, k, item.expiresAt)
    requires var touched := TouchedBy(es, op);
             var now := others + (if touched.Some? && touched.value != k then {touched.value} else {});
             |now| < maxItems
    ensures var touched := TouchedBy(es, op);
            HeldBehind(Apply(es, op, maxItems), k, item,
                       others + (if touched.Some? && touched.value != k then {touched.value} else {}))
  {
    assert others + {} == others;
    match op
    case Cleanup(at) => CleanSpares(es, at, maxItems, k, item, others);
    case Del(key) => RemovalSpares(es, key, k, item, others);
    case Set(key, value, ttlMs, at) => PutSpares(es, key, value, at, ttlMs, maxItems, k, item, others);
    case Get(key, at) => TouchSpares(es, key, at, k, item, others);
    case GetMetadata(key, at) => TouchSpares(es, key, at, k, item, others);
  }

  /** The recency guarantee: a key just touched and since then neither overwritten,
      deleted nor expired is still answered with its value, as long as fewer than
      maxItems distinct other keys have been touched. */
  lemma {:induction false} RecentlyTouchedIsKept<K, V>(es: seq<Entry<K, V>>, k: K, item: Item<V>,
                                                      ops: seq<Op<K, V>>, maxItems: nat)
    requires Distinct(es) && |es| <= maxItems && es != [] && es[|es| - 1] == Entry(k, item)
    requires forall i :: 0 <= i < |ops| ==> Spares(ops[i], k, item.expiresAt)
    requires |OthersTouched(es, ops, maxItems, k)| < maxItems
    ensures Lookup(ApplyAll(es, ops, maxItems), k) == Some(item)
    ensures HeldBehind(ApplyAll(es, ops, maxItems), k, item, OthersTouched(es, ops, maxItems, k))
    decreases |ops|
  {
    SizeBounded(es, ops, maxItems);
    if ops == [] {
      assert es == es[..|es| - 1] + [Entry(k, item)] + [];
      Held(es[..|es| - 1], k, item, [], {});
    } else {
      var front := ops[..|ops| - 1];
      FewerTouchedBefore(es, ops, maxItems, k);
      RecentlyTouchedIsKept(es, k, item, front, maxItems);
      SizeBounded(es, front, maxItems);
      ApplySpares(ApplyAll(es, front, maxItems), ops[|ops| - 1], maxItems, k, item,
                  OthersTouched(es, front, maxItems, k));
    }
    HeldIsFound(ApplyAll(es, ops, maxItems), k, item, OthersTouched(es, ops, maxItems, k));
  }

  lemma FewerTouchedBefore<K, V>(es: seq<Entry<K, V>>, ops: seq<Op<K, V>>, maxItems: int, k: K)
    requires ops != []
    ensures |OthersTouched(es, ops[..|ops| - 1], maxItems, k)| <= |OthersTouched(es, ops, maxItems, k)|
  {
    var before, after := OthersTouched(es, ops[..|ops| - 1], maxItems, k), OthersTouched(es, ops, maxItems, k);
    assert after == before + (after - before);
  }

  /** Both ways of touching a key leave it at the most recent end, as the guarantee
      asks: a hit keeps the item it found, a set stores a new one. */
  lemma TouchingPutsLast<K, V>(es: seq<Entry<K, V>>, op: Op<K, V>, maxItems: nat)
    requires Distinct(es) && |es| <= maxItems && 0 < maxItems && TouchedBy(es, op).Some?
    ensures var after := Apply(es, op, maxItems);
            && Distinct(after) && 0 < |after| <= maxItems
            && after[|after| - 1].key == TouchedBy(es, op).value
            && (op.Set? ==> after[|after| - 1].item == Item(op.value, op.at, op.at + op.ttlMs))
            && (!op.Set? ==> Lookup(es, op.key) == Some(after[|after| - 1].item))
  {
    ApplyBounded(es, op, maxItems);
  }

  // ----- What may be answered -----

  datatype LastSet<V> = LastSet(value: V, ttlMs: int, at: int)

  /** The set that counts for k, read off the operations alone: the last one, unless k
      was deleted since. */
  function LastSetOf<K(==), V>(ops: seq<Op<K, V>>, k: K): Option<LastSet<V>>
    decreases |ops|
  {
    if ops == [] then None
    else
      match ops[|ops| - 1]
      case Set(key, value, ttlMs, at) =>
        if key == k then Some(LastSet(value, ttlMs, at)) else LastSetOf(ops[..|ops| - 1], k)
      case Del(key) => if key == k then None else LastSetOf(ops[..|ops| - 1], k)
      case _ => LastSetOf(ops[..|ops| - 1], k)
  }

  /** The entry is what that set stored. */
  ghost predicate StoredBy<K, V>(x: Entry<K, V>, ops: seq<Op<K, V>>) {
    match LastSetOf(ops, x.key)
    case None => false
    case Some(l) => x.item == Item(l.value, l.at, l.at + l.ttlMs)
  }

  lemma {:induction false} LookupIsIn<K, V>(es: seq<Entry<K, V>>, key: K)
    ensures Lookup(es, key).Some? ==> Entry(key, Lookup(es, key).value) in es
  {
    if es != [] {
      LookupIsIn(es[1..], key);
    }
  }

  lemma EvictContents<K, V>(es: seq<Entry<K, V>>, maxItems: int)
    ensures forall x :: x in Evict(es, maxItems) ==> x in es
  {
  }

  /** What an operation leaves was there before, or is what it set. */
  lemma ApplyContents<K, V>(es: seq<Entry<K, V>>, op: Op<K, V>, maxItems: int, x: Entry<K, V>)
    requires x in Apply(es, op, maxItems)
    ensures x in es || (op.Set? && x == Entry(op.key, Item(op.value, op.at, op.at + op.ttlMs)))
    ensures (op.Set? && x in es ==> x.key != op.key || x.item == Item(op.value, op.at, op.at + op.ttlMs))
    ensures op.Del? ==> x.key != op.key
  {
    match op
    case Get(key, at) =>
      LookupIsIn(es, key);
      WithoutContents(es, key);
    case GetMetadata(key, at) =>
      LookupIsIn(es, key);
      WithoutContents(es, key);
    case Del(key) => WithoutContents(es, key);
    case Cleanup(at) =>
      UnexpiredContents(es, at);
      EvictContents(Unexpired(es, at), maxItems);
    case Set(key, value, ttlMs, at) =>
      var e := Entry(key, Item(value, at, at + ttlMs));
      WithoutContents(es, key);
      EvictContents(Without(es, key) + [e], maxItems);
  }

  /** After any operations on an empty cache every entry is what the last set of its
      key stored, and no key deleted since is among them. */
  lemma {:induction false} HeldIsLastSet<K, V>(ops: seq<Op<K, V>>, maxItems: int, x: Entry<K, V>)
    requires x in ApplyAll([], ops, maxItems)
    ensures StoredBy(x, ops)
    decreases |ops|
  {
    if ops != [] {
      var front, last := ops[..|ops| - 1], ops[|ops| - 1];
      var es: seq<Entry<K, V>> := ApplyAll([], front, maxItems);
      ApplyContents(es, last, maxItems, x);
      if x in es {
        HeldIsLastSet(front, maxItems, x);
      }
    }
  }

  /** Only the last set of a key is ever answered, with its value and its times, never
      after a deletion and never once its time to live is over. */
  lemma HitIsLastSet<K, V>(ops: seq<Op<K, V>>, maxItems: int, k: K, now: int)
    ensures match Touch(ApplyAll([], ops, maxItems), k, now).1
            case None => true
            case Some(item) =>
              match LastSetOf(ops, k)
              case None => false
              case Some(l) => item == Item(l.value, l.at, l.at + l.ttlMs) && now < l.at + l.ttlMs
  {
    var es: seq<Entry<K, V>> := ApplyAll([], ops, maxItems);
    LookupIsIn(es, k);
    if Touch(es, k, now).1.Some? {
      HeldIsLastSet(ops, maxItems, Entry(k, Touch(es, k, now).1.value));
    }
  }

  /** A key that does not answer is no longer held, so an expired entry goes when asked
      for; a deleted key goes at once; and a sweep leaves nothing expired. */
  lemma GoneIsGone<K, V>(es: seq<Entry<K, V>>, k: K, now: int, maxItems: int)
    ensures Touch(es, k, now).1.None? ==> forall x :: x in Touch(es, k, now).0 ==> x.key != k
    ensures forall x :: x in Without(es, k) ==> x.key != k
    ensures forall x :: x in Clean(es, now, maxItems) ==> now < x.item.expiresAt
  {
    WithoutContents(es, k);
    UnexpiredContents(es, now);
    EvictContents(Unexpired(es, now), maxItems);
    if Lookup(es, k).None? {
      NotFoundNotHeld(es, k);
    }
  }

  lemma {:induction false} NotFoundNotHeld<K, V>(es: seq<Entry<K, V>>, k: K)
    requires Lookup(es, k).None?
    ensures forall x :: x in es ==> x.key != k
  {
    if es != [] {
      NotFoundNotHeld(es[1..], k);
    }
  }
}
