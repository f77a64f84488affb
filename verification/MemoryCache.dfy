/** The in-process cache as it runs: an insertion-ordered map whose entries are
    deleted and re-inserted to record their use. */
module MemoryCaches {
  import opened Results
  import opened Lru

  class MemoryCache<K(==), V> {
    const maxItems: int
    var cache: seq<Entry<K, V>>
    var hits: nat
    var misses: nat

    /** Everything asked of the cache so far. */
    ghost var history: seq<Op<K, V>>

    ghost predicate Valid()
      reads this
    {
      && cache == ApplyAll([], history, maxItems)
      && Distinct(cache) && (0 <= maxItems ==> |cache| <= maxItems)
    }

    constructor (maxItems: int)
      ensures Valid() && cache == [] && history == [] && this.maxItems == maxItems && hits == misses == 0
    {
      this.maxItems := maxItems;
      history := [];
      cache, hits, misses := [], 0, 0;
    }

    /** Notes an operation; the cache is still to follow. */
    ghost method Recall(op: Op<K, V>)
      requires cache == ApplyAll([], history, maxItems)
      modifies this`history
      ensures history == old(history) + [op]
      ensures ApplyAll([], history, maxItems) == Apply(cache, op, maxItems)
    {
      ApplySnoc([], history, op, maxItems);
      history := history + [op];
    }

    /** A key answers only with what was last set for it, and only while that lives. */
    method Get(key: K, now: int) returns (found: Option<V>)
      requires Valid()
      modifies this
      ensures Valid()
      ensures cache == Apply(old(cache), Op.Get(key, now), maxItems)
      ensures history == old(history) + [Op.Get(key, now)]
      ensures var hit := Touch(old(cache), key, now).1;
              && found == (match hit case Some(item) => Some(item.value) case None => None)
              && hits == old(hits) + (if hit.Some? then 1 else 0)
              && misses == old(misses) + (if hit.Some? then 0 else 1)
      ensures found.Some? ==>
                var l := LastSetOf(old(history), key);
                l.Some? && found.value == l.value.value && now < l.value.at + l.value.ttlMs
    {
      TouchBounded(cache, key, now);
      HitIsLastSet(history, maxItems, key, now);
      Recall(Op.Get(key, now));
      var item := Lookup(cache, key);
      if item.None? {
        misses := misses + 1;
        return None;
      }
      if now >= item.value.expiresAt {
        cache := Without(cache, key);
        misses := misses + 1;
        return None;
      }
      hits := hits + 1;
      cache := Without(cache, key);
      cache := cache + [Entry(key, item.value)];
      return Some(item.value.value);
    }

    method Set(key: K, value: V, ttlMs: int, now: int)
      requires Valid()
      modifies this
      ensures Valid()
      ensures cache == Apply(old(cache), Op.Set(key, value, ttlMs, now), maxItems)
      ensures history == old(history) + [Op.Set(key, value, ttlMs, now)]
      ensures hits == old(hits) && misses == old(misses)
    {
      MovedToEnd(cache, key, Item(value, now, now + ttlMs));
      Recall(Op.Set(key, value, ttlMs, now));
      cache := Without(cache, key);
      cache := cache + [Entry(key, Item(value, now, now + ttlMs))];
      EvictIfOverCapacity();
    }

    method Del(key: K)
      requires Valid()
      modifies this
      ensures Valid()
      ensures cache == Apply(old(cache), Op.Del(key), maxItems)
      ensures history == old(history) + [Op.Del(key)]
      ensures hits == old(hits) && misses == old(misses)
    {
      WithoutFilters(cache, key);
      Recall(Op.Del(key));
      cache := Without(cache, key);
    }

    /** Creation and expiry times of a live entry; asking counts as a use. */
    method GetMetadata(key: K, now: int) returns (found: Option<(int, int)>)
      requires Valid()
      modifies this
      ensures Valid()
      ensures cache == Apply(old(cache), Op.GetMetadata(key, now), maxItems)
      ensures history == old(history) + [Op.GetMetadata(key, now)]
      ensures found == match Touch(old(cache), key, now).1
                       case Some(item) => Some((item.createdAt, item.expiresAt))
                       case None => None
      ensures found.Some? ==>
                var l := LastSetOf(old(history), key);
                && l.Some? && found.value == (l.value.at, l.value.at + l.value.ttlMs)
                && now < l.value.at + l.value.ttlMs
      ensures hits == old(hits) && misses == old(misses)
    {
      TouchBounded(cache, key, now);
      HitIsLastSet(history, maxItems, key, now);
      Recall(Op.GetMetadata(key, now));
      var item := Lookup(cache, key);
      if item.None? {
        return None;
      }
      if now >= item.value.expiresAt {
        cache := Without(cache, key);
        return None;
      }
      cache := Without(cache, key);
      cache := cache + [Entry(key, item.value)];
      return Some((item.value.createdAt, item.value.expiresAt));
    }

    method Cleanup(now: int)
      requires Valid()
      modifies this
      ensures Valid()
      ensures cache == Apply(old(cache), Op.Cleanup(now), maxItems)
      ensures history == old(history) + [Op.Cleanup(now)]
      ensures hits == old(hits) && misses == old(misses)
    {
      Recall(Op.Cleanup(now));
      UnexpiredFilters(cache, now);
      Sweep(now);
      EvictIfOverCapacity();
    }

    /** Drops every expired entry, one by one. */
    method Sweep(now: int)
      requires Distinct(cache)
      modifies this`cache
      ensures cache == Unexpired(old(cache), now)
    {
      var all := cache;
      var i := 0;
      while i < |all|
        invariant 0 <= i <= |all|
        invariant cache == Unexpired(all[..i], now) + all[i..]
      {
        SweepOne(all, now, i);
        if now >= all[i].item.expiresAt {
          cache := Without(cache, all[i].key);
        }
        i := i + 1;
      }
      assert all[..i] == all && all[i..] == [];
    }

    method EvictIfOverCapacity()
      requires Distinct(cache)
      modifies this`cache
      ensures Distinct(cache) && (0 <= maxItems ==> |cache| <= maxItems)
      ensures cache == Evict(old(cache), maxItems)
    {
      ghost var dropped := 0;
      while |cache| > maxItems
        invariant 0 <= dropped <= |old(cache)| && cache == old(cache)[dropped..]
        invariant dropped == 0 || |cache| >= maxItems
        decreases |cache|
      {
        if cache == [] {
          break;
        }
        cache := cache[1..];
        dropped := dropped + 1;
      }
    }
  }

  /** One round of the sweep: an expired entry goes and, keys being distinct, takes
      no other with it. */
  lemma SweepOne<K, V>(all: seq<Entry<K, V>>, now: int, i: nat)
    requires Distinct(all) && i < |all|
    ensures var here := Unexpired(all[..i], now) + all[i..];
            Unexpired(all[..i + 1], now) + all[i + 1..]
              == if now >= all[i].item.expiresAt then Without(here, all[i].key) else here
  {
    var e, kept, rest := all[i], Unexpired(all[..i], now), all[i + 1..];
    assert all[..i + 1] == all[..i] + [e];
    UnexpiredConcat(all[..i], [e], now);
    assert Unexpired([e], now) == if now >= e.item.expiresAt then [] else [e];
    assert all[i..] == [e] + rest;
    if now >= e.item.expiresAt {
      UnexpiredContents(all[..i], now);
      forall k | 0 <= k < |kept| ensures kept[k].key != e.key {
        assert kept[k] in all[..i];
      }
      RemoveOnly(kept, e, rest);
      assert kept + [] == kept;
    } else {
      assert (kept + [e]) + rest == kept + ([e] + rest);
    }
  }

  lemma RemoveOnly<K, V>(kept: seq<Entry<K, V>>, e: Entry<K, V>, rest: seq<Entry<K, V>>)
    requires forall k :: 0 <= k < |kept| ==> kept[k].key != e.key
    requires forall k :: 0 <= k < |rest| ==> rest[k].key != e.key
    ensures Without(kept + ([e] + rest), e.key) == kept + rest
  {
    WithoutConcat(kept, [e] + rest, e.key);
    WithoutConcat([e], rest, e.key);
    WithoutAbsent(kept, e.key);
    WithoutAbsent(rest, e.key);
  }
}
