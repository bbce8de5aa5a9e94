/** The size-bounded LRU cache: an ordered dictionary, an eviction loop and TTL reads. */
module LruCache {
  import opened Prelude

  type Key = string
  type Data = string

  datatype Entry = Entry(data: Data, timestamp: int, size: nat, ttl: int)
  datatype Item = Item(key: Key, entry: Entry)

  // ---------------------------------------------------------------- the ordered dictionary

  ghost predicate DistinctKeys(items: seq<Item>) {
    forall i, j :: 0 <= i < j < |items| ==> items[i].key != items[j].key
  }

  function Lookup(items: seq<Item>, key: Key): Option<Entry> {
    if items == [] then None
    else if items[0].key == key then Some(items[0].entry)
    else Lookup(items[1..], key)
  }

  function Remove(items: seq<Item>, key: Key): seq<Item> {
    if items == [] then []
    else if items[0].key == key then items[1..]
    else [items[0]] + Remove(items[1..], key)
  }

  function Bytes(items: seq<Item>): nat {
    if items == [] then 0 else items[0].entry.size + Bytes(items[1..])
  }

  predicate Expired(entry: Entry, now: int) {
    now - entry.timestamp > entry.ttl
  }

  lemma {:induction false} LookupIsMembership(items: seq<Item>, key: Key)
    requires DistinctKeys(items)
    ensures forall e :: Lookup(items, key) == Some(e) <==> Item(key, e) in items
    ensures Lookup(items, key) == None <==> forall i :: 0 <= i < |items| ==> items[i].key != key
  {
    if items != [] {
      LookupIsMembership(items[1..], key);
      assert items == [items[0]] + items[1..];
    }
  }

  lemma {:induction false} RemoveIsSubsequence(items: seq<Item>, key: Key) returns (at: nat)
    requires DistinctKeys(items)
    ensures at <= |items|
    ensures Remove(items, key) == items[..at] + (if at < |items| then items[at + 1..] else [])
    ensures at < |items| ==> items[at].key == key
    ensures forall i :: 0 <= i < |items| && i != at ==> items[i].key != key
  {
    if items == [] || items[0].key == key {
      at := 0;
    } else {
      var tail := RemoveIsSubsequence(items[1..], key);
      at := tail + 1;
      if at < |items| {
        assert items[1..][tail + 1..] == items[at + 1..];
      }
      assert [items[0]] + items[1..][..tail] == items[..at];
    }
  }

  lemma {:induction false} LengthOfRemove(items: seq<Item>, key: Key)
    ensures |Remove(items, key)| == |items| - (if Lookup(items, key).Some? then 1 else 0)
  {
    if items != [] {
      LengthOfRemove(items[1..], key);
    }
  }

  lemma {:induction false} RemoveFreesBytes(items: seq<Item>, key: Key)
    ensures Bytes(Remove(items, key)) + (match Lookup(items, key) case Some(e) => e.size case None => 0) == Bytes(items)
    ensures Lookup(items, key) == None ==> Remove(items, key) == items
  {
    if items != [] {
      RemoveFreesBytes(items[1..], key);
    }
  }

  lemma {:induction false} RemoveMembers(items: seq<Item>, key: Key)
    requires DistinctKeys(items)
    ensures forall it :: it in Remove(items, key) <==> it in items && it.key != key
  {
    if items != [] {
      RemoveMembers(items[1..], key);
      assert forall it :: it in items <==> it == items[0] || it in items[1..];
      if items[0].key == key {
        assert forall it :: it in items[1..] ==> it.key != key;
      }
    }
  }

  /** Removal keeps the other entries and frees exactly the bytes of the removed one. */
  lemma RemoveKeepsTheRest(items: seq<Item>, key: Key)
    requires DistinctKeys(items)
    ensures DistinctKeys(Remove(items, key))
    ensures forall it :: it in Remove(items, key) <==> it in items && it.key != key
    ensures Bytes(Remove(items, key)) + (match Lookup(items, key) case Some(e) => e.size case None => 0) == Bytes(items)
    ensures Lookup(items, key) == None ==> Remove(items, key) == items
    ensures |Remove(items, key)| <= |items|
  {
    RemoveFreesBytes(items, key);
    LengthOfRemove(items, key);
    RemoveMembers(items, key);
    var at := RemoveIsSubsequence(items, key);
  }

  lemma {:induction false} BytesOfAppend(items: seq<Item>, it: Item)
    ensures Bytes(items + [it]) == Bytes(items) + it.entry.size
  {
    if items == [] {
      assert items + [it] == [it];
    } else {
      assert (items + [it])[1..] == items[1..] + [it];
      BytesOfAppend(items[1..], it);
    }
  }

  // ---------------------------------------------------------------- what each operation leaves behind

  function Evict(items: seq<Item>, need: nat, max: nat): seq<Item> {
    if items != [] && Bytes(items) + need > max then Evict(items[1..], need, max) else items
  }

  function AfterGet(items: seq<Item>, key: Key, now: int): seq<Item> {
    match Lookup(items, key)
    case None => items
    case Some(e) => if Expired(e, now) then Remove(items, key) else Remove(items, key) + [Item(key, e)]
  }

  function GetResult(items: seq<Item>, key: Key, now: int): Option<Data> {
    match Lookup(items, key)
    case None => None
    case Some(e) => if Expired(e, now) then None else Some(e.data)
  }

  function AfterSet(items: seq<Item>, key: Key, e: Entry, max: nat): seq<Item> {
    Evict(Remove(items, key), e.size, max) + [Item(key, e)]
  }

  /** Eviction drops exactly the shortest least-recently-used prefix that makes room. */
  lemma {:induction false} EvictDropsShortestPrefix(items: seq<Item>, need: nat, max: nat)
    ensures |Evict(items, need, max)| <= |items|
    ensures var n := |items| - |Evict(items, need, max)|;
      && Evict(items, need, max) == items[n..]
      && (Bytes(items[n..]) + need <= max || n == |items|)
      && forall k :: 0 <= k < n ==> Bytes(items[k..]) + need > max
  {
    if items != [] && Bytes(items) + need > max {
      EvictDropsShortestPrefix(items[1..], need, max);
      var n := |items| - |Evict(items, need, max)|;
      assert items[1..][n - 1..] == items[n..];
      forall k | 0 <= k < n ensures Bytes(items[k..]) + need > max {
        if k == 0 {
          assert items[0..] == items;
        } else {
          assert items[1..][k - 1..] == items[k..];
        }
      }
    }
  }

  /** Accounted state: distinct keys, and within the limit unless a single entry remains. */
  ghost predicate Bounded(items: seq<Item>, max: nat) {
    DistinctKeys(items) && (|items| <= 1 || Bytes(items) <= max)
  }

  lemma DeleteKeepsBounds(items: seq<Item>, key: Key, max: nat)
    requires Bounded(items, max)
    ensures Bounded(Remove(items, key), max)
  {
    RemoveKeepsTheRest(items, key);
  }

  lemma DistinctAfterDropAndAppend(items: seq<Item>, n: nat, it: Item)
    requires DistinctKeys(items) && n <= |items|
    requires forall i :: 0 <= i < |items| ==> items[i].key != it.key
    ensures DistinctKeys(items[n..] + [it])
  {
  }

  /** Moving an entry to the end keeps keys distinct and the number and size of the entries. */
  lemma RefreshKeepsBounds(items: seq<Item>, key: Key, e: Entry, max: nat)
    requires Bounded(items, max) && Lookup(items, key) == Some(e)
    ensures Bounded(Remove(items, key) + [Item(key, e)], max)
  {
    var rest := Remove(items, key);
    RemoveKeepsTheRest(items, key);
    LengthOfRemove(items, key);
    BytesOfAppend(rest, Item(key, e));
    forall i | 0 <= i < |rest| ensures rest[i].key != key {
      assert rest[i] in rest;
    }
    DistinctAfterDropAndAppend(rest, 0, Item(key, e));
    assert rest[0..] == rest;
  }

  lemma GetKeepsBounds(items: seq<Item>, key: Key, now: int, max: nat)
    requires Bounded(items, max)
    ensures Bounded(AfterGet(items, key, now), max)
  {
    match Lookup(items, key) {
      case None =>
      case Some(e) =>
        DeleteKeepsBounds(items, key, max);
        RefreshKeepsBounds(items, key, e, max);
    }
  }

  lemma SetKeepsBounds(items: seq<Item>, key: Key, e: Entry, max: nat)
    requires DistinctKeys(items)
    ensures Bounded(AfterSet(items, key, e, max), max)
  {
    var rest := Remove(items, key);
    var kept := Evict(rest, e.size, max);
    EvictDropsShortestPrefix(rest, e.size, max);
    BytesOfAppend(kept, Item(key, e));
    assert DistinctKeys(kept + [Item(key, e)]) by {
      RemoveKeepsTheRest(items, key);
      forall i | 0 <= i < |rest| ensures rest[i].key != key {
        assert rest[i] in rest;
      }
      DistinctAfterDropAndAppend(rest, |rest| - |kept|, Item(key, e));
    }
  }

  // ---------------------------------------------------------------- histories of operations

  datatype Op =
    | Get(key: Key, now: int)
    | Set(key: Key, entry: Entry)
    | Delete(key: Key)
    | Clear

  function Apply(items: seq<Item>, op: Op, max: nat): seq<Item> {
    match op
    case Get(key, now) => AfterGet(items, key, now)
    case Set(key, e) => AfterSet(items, key, e, max)
    case Delete(key) => Remove(items, key)
    case Clear => []
  }

  function Run(ops: seq<Op>, max: nat): seq<Item> {
    if ops == [] then [] else Apply(Run(ops[..|ops| - 1], max), ops[|ops| - 1], max)
  }

  lemma {:induction false} RunIsBounded(ops: seq<Op>, max: nat)
    ensures Bounded(Run(ops, max), max)
  {
    if ops != [] {
      var before := Run(ops[..|ops| - 1], max);
      RunIsBounded(ops[..|ops| - 1], max);
      match ops[|ops| - 1] {
        case Get(key, now) => GetKeepsBounds(before, key, now, max);
        case Set(key, e) => SetKeepsBounds(before, key, e, max);
        case Delete(key) => DeleteKeepsBounds(before, key, max);
        case Clear =>
      }
    }
  }

  /** An operation uses a key when it stores it or reads it successfully. */
  predicate Uses(items: seq<Item>, op: Op, key: Key) {
    match op
    case Get(k, now) => k == key && GetResult(items, k, now).Some?
    case Set(k, _) => k == key
    case _ => false
  }

  function LastUse(ops: seq<Op>, max: nat, key: Key): int {
    if ops == [] then -1
    else if Uses(Run(ops[..|ops| - 1], max), ops[|ops| - 1], key) then |ops| - 1
    else LastUse(ops[..|ops| - 1], max, key)
  }

  ghost predicate InLastUseOrder(items: seq<Item>, ops: seq<Op>, max: nat) {
    && (forall i :: 0 <= i < |items| ==> 0 <= LastUse(ops, max, items[i].key) < |ops|)
    && forall i, j :: 0 <= i < j < |items| ==> LastUse(ops, max, items[i].key) < LastUse(ops, max, items[j].key)
  }

  /** An operation that does not use the stored keys leaves their order of last use alone. */
  lemma UnusedKeysKeepOrder(items: seq<Item>, ops: seq<Op>, max: nat)
    requires ops != [] && InLastUseOrder(items, ops[..|ops| - 1], max)
    requires forall i :: 0 <= i < |items| ==> !Uses(Run(ops[..|ops| - 1], max), ops[|ops| - 1], items[i].key)
    ensures InLastUseOrder(items, ops, max)
  {
    forall i | 0 <= i < |items|
      ensures LastUse(ops, max, items[i].key) == LastUse(ops[..|ops| - 1], max, items[i].key)
    {
    }
  }

  lemma UsedKeyGoesLast(items: seq<Item>, it: Item, ops: seq<Op>, max: nat)
    requires ops != [] && InLastUseOrder(items, ops[..|ops| - 1], max)
    requires forall i :: 0 <= i < |items| ==> items[i].key != it.key
    requires Uses(Run(ops[..|ops| - 1], max), ops[|ops| - 1], it.key)
    ensures InLastUseOrder(items + [it], ops, max)
  {
    UnusedKeysKeepOrder(items, ops, max);
  }

  lemma RemovalKeepsOrder(items: seq<Item>, key: Key, ops: seq<Op>, max: nat)
    requires DistinctKeys(items) && InLastUseOrder(items, ops, max)
    ensures InLastUseOrder(Remove(items, key), ops, max)
    ensures forall i :: 0 <= i < |Remove(items, key)| ==> Remove(items, key)[i].key != key
  {
    var at := RemoveIsSubsequence(items, key);
    var left := Remove(items, key);
    forall i | 0 <= i < |left| ensures left[i] == items[if i < at then i else i + 1] {
    }
  }

  /** The dictionary order is the order of last use, after any history of operations. */
  lemma {:induction false} KeysInLastUseOrder(ops: seq<Op>, max: nat)
    ensures InLastUseOrder(Run(ops, max), ops, max)
  {
    if ops != [] {
      var prefix, op := ops[..|ops| - 1], ops[|ops| - 1];
      var items := Run(prefix, max);
      KeysInLastUseOrder(prefix, max);
      RunIsBounded(prefix, max);
      match op {
        case Clear =>
        case Delete(key) =>
          RemovalKeepsOrder(items, key, prefix, max);
          UnusedKeysKeepOrder(Remove(items, key), ops, max);
        case Get(key, now) =>
          RemovalKeepsOrder(items, key, prefix, max);
          if GetResult(items, key, now).Some? {
            UsedKeyGoesLast(Remove(items, key), Item(key, Lookup(items, key).value), ops, max);
          } else {
            UnusedKeysKeepOrder(AfterGet(items, key, now), ops, max);
          }
        case Set(key, e) =>
          RemovalKeepsOrder(items, key, prefix, max);
          EvictDropsShortestPrefix(Remove(items, key), e.size, max);
          UsedKeyGoesLast(Evict(Remove(items, key), e.size, max), Item(key, e), ops, max);
      }
    }
  }

  /** Reference semantics: an unbounded map that forgets only on delete and clear. */
  function Plain(ops: seq<Op>, key: Key): Option<Entry> {
    if ops == [] then None
    else
      var op := ops[|ops| - 1];
      match op
      case Clear => None
      case Delete(k) => if k == key then None else Plain(ops[..|ops| - 1], key)
      case Set(k, e) => if k == key then Some(e) else Plain(ops[..|ops| - 1], key)
      case Get(_, _) => Plain(ops[..|ops| - 1], key)
  }

  /** Whatever the cache still holds for a key is the latest value stored under it. */
  lemma {:induction false} HeldEntriesAreLatest(ops: seq<Op>, max: nat)
    ensures forall it :: it in Run(ops, max) ==> Plain(ops, it.key) == Some(it.entry)
  {
    if ops != [] {
      var prefix, op := ops[..|ops| - 1], ops[|ops| - 1];
      var items := Run(prefix, max);
      HeldEntriesAreLatest(prefix, max);
      RunIsBounded(prefix, max);
      match op {
        case Clear =>
        case Delete(key) => RemoveKeepsTheRest(items, key);
        case Get(key, now) =>
          RemoveKeepsTheRest(items, key);
          LookupIsMembership(items, key);
        case Set(key, e) =>
          RemoveKeepsTheRest(items, key);
          EvictDropsShortestPrefix(Remove(items, key), e.size, max);
      }
    }
  }

  predicate Holds(items: seq<Item>, key: Key) { exists i | 0 <= i < |items| :: items[i].key == key }

  /** After any history a read hits exactly when the key is held and its latest set is not past its time to live. */
  lemma HitsAgreeWithPlainMap(ops: seq<Op>, max: nat, key: Key, now: int)
    ensures Holds(Run(ops, max), key) ==> Plain(ops, key).Some?
    ensures GetResult(Run(ops, max), key, now) ==
            if Holds(Run(ops, max), key) && now <= Plain(ops, key).value.timestamp + Plain(ops, key).value.ttl
            then Some(Plain(ops, key).value.data) else None
  {
    var items := Run(ops, max);
    RunIsBounded(ops, max);
    HeldEntriesAreLatest(ops, max);
    LookupIsMembership(items, key);
    if Holds(items, key) {
      var i :| 0 <= i < |items| && items[i].key == key;
      assert items[i] in items;
    }
  }

  /** Whatever came before, a value just stored is returned until its time to live is over. */
  lemma StoredValueIsReturned(ops: seq<Op>, max: nat, key: Key, e: Entry, now: int)
    ensures GetResult(Run(ops + [Set(key, e)], max), key, now) == if now <= e.timestamp + e.ttl then Some(e.data)
                                                                    else None
  {
    var all := ops + [Set(key, e)];
    assert all[..|all| - 1] == ops;
    var items := Run(all, max);
    assert items[|items| - 1] == Item(key, e);
    HitsAgreeWithPlainMap(all, max, key, now);
  }

  /** A read past the time to live drops that entry and no other; any other read keeps every entry. */
  lemma ReadsDropOnlyTheExpired(ops: seq<Op>, max: nat, key: Key, now: int, it: Item)
    ensures it in AfterGet(Run(ops, max), key, now) <==>
              it in Run(ops, max) && !(it.key == key && it.entry.timestamp + it.entry.ttl < now)
  {
    var items := Run(ops, max);
    RunIsBounded(ops, max);
    LookupIsMembership(items, key);
    RemoveKeepsTheRest(items, key);
  }

  /** A held key stays held until it is deleted, cleared, read past its time to live, or evicted by a later set. */
  lemma HeldUntil(ops: seq<Op>, max: nat, op: Op, it: Item)
    requires it in Run(ops, max)
    ensures it in Apply(Run(ops, max), op, max) <==>
              match op
              case Get(key, now) => !(it.key == key && it.entry.timestamp + it.entry.ttl < now)
              case Delete(key) => it.key != key
              case Clear => false
              case Set(key, e) =>
                (it.key == key && it.entry == e)
                || (it.key != key && it in Evict(Remove(Run(ops, max), key), e.size, max))
  {
    var items := Run(ops, max);
    RunIsBounded(ops, max);
    match op {
      case Get(key, now) => ReadsDropOnlyTheExpired(ops, max, key, now, it);
      case Delete(key) => RemoveKeepsTheRest(items, key);
      case Clear =>
      case Set(key, e) =>
        RemoveKeepsTheRest(items, key);
        EvictDropsShortestPrefix(Remove(items, key), e.size, max);
    }
  }

  // ---------------------------------------------------------------- the cache object

  class InMemoryCacheManager {
    const maxMemoryBytes: nat
    var cache: seq<Item>
    var currentSize: nat
    var hits: nat
    var misses: nat
    var evictions: nat

    ghost predicate Valid()
      reads this
    {
      Bounded(cache, maxMemoryBytes) && currentSize == Bytes(cache)
    }

    constructor (maxMemoryMb: nat)
      ensures Valid() && cache == [] && maxMemoryBytes == maxMemoryMb * 1024 * 1024
      ensures hits == misses == evictions == 0
    {
      maxMemoryBytes := maxMemoryMb * 1024 * 1024;
      cache, currentSize := [], 0;
      hits, misses, evictions := 0, 0, 0;
    }

    method Get(key: Key, now: int) returns (r: Option<Data>)
      requires Valid()
      modifies this
      ensures Valid() && cache == AfterGet(old(cache), key, now) && r == GetResult(old(cache), key, now)
      ensures hits == old(hits) + (if r.Some? then 1 else 0)
      ensures misses == old(misses) + (if r.None? then 1 else 0)
      ensures evictions == old(evictions)
    {
      GetKeepsBounds(cache, key, now, maxMemoryBytes);
      var found := Lookup(cache, key);
      if found.None? {
        misses := misses + 1;
        return None;
      }
      var entry := found.value;
      if now - entry.timestamp > entry.ttl {
        DeleteLocked(key);
        misses := misses + 1;
        return None;
      }
      RemoveKeepsTheRest(cache, key);
      BytesOfAppend(Remove(cache, key), Item(key, entry));
      cache := Remove(cache, key) + [Item(key, entry)];
      hits := hits + 1;
      return Some(entry.data);
    }

    method Set(key: Key, data: Data, size: nat, ttl: int, now: int)
      requires Valid()
      modifies this
      ensures Valid() && cache == AfterSet(old(cache), key, Entry(data, now, size, ttl), maxMemoryBytes)
      ensures hits == old(hits) && misses == old(misses)
      ensures evictions - old(evictions) == |Remove(old(cache), key)| - (|cache| - 1)
    {
      SetKeepsBounds(cache, key, Entry(data, now, size, ttl), maxMemoryBytes);
      RemoveKeepsTheRest(cache, key);
      if Lookup(cache, key).Some? {
        DeleteLocked(key);
      }
      EvictIfNeeded(size);
      var entry := Entry(data, now, size, ttl);
      BytesOfAppend(cache, Item(key, entry));
      cache := cache + [Item(key, entry)];
      currentSize := currentSize + size;
    }

    method Delete(key: Key)
      requires Valid()
      modifies this
      ensures Valid() && cache == Remove(old(cache), key)
      ensures hits == old(hits) && misses == old(misses) && evictions == old(evictions)
    {
      DeleteLocked(key);
    }

    method Reset()
      modifies this
      ensures Valid() && cache == [] && hits == misses == evictions == 0
    {
      cache, currentSize := [], 0;
      hits, misses, evictions := 0, 0, 0;
    }

    method DeleteLocked(key: Key)
      requires Valid()
      modifies `cache, `currentSize
      ensures Valid() && cache == Remove(old(cache), key)
    {
      DeleteKeepsBounds(cache, key, maxMemoryBytes);
      RemoveKeepsTheRest(cache, key);
      var found := Lookup(cache, key);
      if found.Some? {
        cache := Remove(cache, key);
        currentSize := currentSize - found.value.size;
      }
    }

    method EvictIfNeeded(required: nat)
      requires currentSize == Bytes(cache)
      modifies `cache, `currentSize, `evictions
      ensures cache == Evict(old(cache), required, maxMemoryBytes) && currentSize == Bytes(cache)
      ensures evictions - old(evictions) == |old(cache)| - |cache|
    {
      while currentSize + required > maxMemoryBytes && |cache| > 0
        invariant currentSize == Bytes(cache)
        invariant Evict(cache, required, maxMemoryBytes) == Evict(old(cache), required, maxMemoryBytes)
        invariant evictions - old(evictions) == |old(cache)| - |cache|
        decreases |cache|
      {
        var oldest := cache[0];
        cache := cache[1..];
        currentSize := currentSize - oldest.entry.size;
        evictions := evictions + 1;
      }
    }
  }
}
