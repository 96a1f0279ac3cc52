/** AFAutoPurgingImageCache: byte accounting in 64-bit words and eviction by last access. */
module ImageCache {
  import opened Options
  import opened Words

  type Image = int

  datatype Entry = Entry(image: Image, bytes: Word, accessed: int)

  datatype Store = Store(capacity: Word, preferred: Word, cached: map<string, Entry>, usage: Word)

  /** The sizes of all entries, unbounded. */
  ghost function Total(cached: map<string, Entry>): nat {
    if cached == map[] then 0
    else
      var id :| id in cached;
      cached[id].bytes + Total(cached - {id})
  }

  /** The sizes add up to less than a word. */
  ghost predicate Fits(cached: map<string, Entry>) {
    Total(cached) < 0x1_0000_0000_0000_0000
  }

  lemma {:induction false} TotalWithout(cached: map<string, Entry>, id: string)
    requires id in cached
    ensures Total(cached) == cached[id].bytes + Total(cached - {id})
  {
    var k :| k in cached && Total(cached) == cached[k].bytes + Total(cached - {k});
    if k != id {
      TotalWithout(cached - {k}, id);
      TotalWithout(cached - {id}, k);
      assert cached - {k} - {id} == cached - {id} - {k};
    }
  }

  lemma TotalOfInsert(cached: map<string, Entry>, id: string, e: Entry)
    ensures Total(cached[id := e]) == e.bytes + Total(cached - {id})
  {
    TotalWithout(cached[id := e], id);
    assert cached[id := e] - {id} == cached - {id};
  }

  // ----- the purge, as coded: sort by last access, remove from the front until enough bytes are gone

  ghost predicate Sorted(cached: map<string, Entry>, order: seq<string>) {
    && (forall i, j :: 0 <= i < j < |order| ==> order[i] != order[j])
    && (forall id :: id in order <==> id in cached)
    && (forall i, j :: 0 <= i < j < |order| ==> cached[order[i]].accessed <= cached[order[j]].accessed)
  }

  function SumFirst(cached: map<string, Entry>, order: seq<string>, n: nat): nat
    requires n <= |order| && forall id :: id in order ==> id in cached
  {
    if n == 0 then 0 else SumFirst(cached, order, n - 1) + cached[order[n - 1]].bytes
  }

  /** The counter of bytes removed so far, in the loop's own arithmetic. */
  function BytesPurged(cached: map<string, Entry>, order: seq<string>, n: nat): Word
    requires n <= |order| && forall id :: id in order ==> id in cached
  {
    if n == 0 then 0 else Plus(BytesPurged(cached, order, n - 1), cached[order[n - 1]].bytes)
  }

  function BytesToPurge(s: Store): Word {
    Minus(s.usage, s.preferred)
  }

  /** The loop stops after image `n`: it is the last one, or the first at which enough bytes are counted. */
  ghost predicate StopsAfter(s: Store, order: seq<string>, n: nat)
    requires forall id :: id in order ==> id in s.cached
  {
    && n <= |order| && (order != [] ==> n > 0)
    && (n == |order| || BytesPurged(s.cached, order, n) >= BytesToPurge(s))
    && (forall k :: 0 < k < n ==> BytesPurged(s.cached, order, k) < BytesToPurge(s))
  }

  function First(order: seq<string>, n: nat): set<string>
    requires n <= |order|
  {
    if n == 0 then {} else First(order, n - 1) + {order[n - 1]}
  }

  lemma {:induction false} FirstAre(order: seq<string>, n: nat)
    requires n <= |order|
    ensures forall id :: id in First(order, n) <==> exists i :: 0 <= i < n && order[i] == id
  {
    if n > 0 { FirstAre(order, n - 1); }
  }

  function Without(s: Store, order: seq<string>, n: nat): Store
    requires n <= |order| && forall id :: id in order ==> id in s.cached
  {
    s.(cached := s.cached - First(order, n), usage := Minus(s.usage, BytesPurged(s.cached, order, n)))
  }

  ghost predicate PurgedBy(s: Store, order: seq<string>, n: nat, t: Store) {
    Sorted(s.cached, order) && StopsAfter(s, order, n) && t == Without(s, order, n)
  }

  ghost predicate Purged(s: Store, t: Store) {
    if s.usage <= s.capacity then t == s else exists order, n :: PurgedBy(s, order, n, t)
  }

  // ----- accounting

  /** The usage is the sum of the stored sizes, to the width of the counter. */
  ghost predicate Accounted(s: Store) {
    s.usage == Wrapped(Total(s.cached))
  }

  lemma FirstStep(cached: map<string, Entry>, order: seq<string>, n: nat)
    requires Sorted(cached, order) && 0 < n <= |order|
    ensures order[n - 1] in cached && order[n - 1] !in First(order, n - 1)
    ensures cached - First(order, n) == cached - First(order, n - 1) - {order[n - 1]}
  {
    FirstAre(order, n - 1);
    assert order[n - 1] in order;
  }

  lemma TotalStep(cached: map<string, Entry>, order: seq<string>, n: nat)
    requires Sorted(cached, order) && 0 < n <= |order|
    ensures order[n - 1] in cached
    ensures Total(cached - First(order, n - 1)) == cached[order[n - 1]].bytes + Total(cached - First(order, n))
  {
    FirstStep(cached, order, n);
    TotalWithout(cached - First(order, n - 1), order[n - 1]);
  }

  lemma {:induction false} TotalAfter(cached: map<string, Entry>, order: seq<string>, n: nat)
    requires Sorted(cached, order) && n <= |order|
    ensures Total(cached) == SumFirst(cached, order, n) + Total(cached - First(order, n))
  {
    if n == 0 {
      assert cached - {} == cached;
    } else {
      TotalAfter(cached, order, n - 1);
      TotalStep(cached, order, n);
    }
  }

  lemma {:induction false} BytesPurgedIsSum(cached: map<string, Entry>, order: seq<string>, n: nat)
    requires n <= |order| && forall id :: id in order ==> id in cached
    ensures BytesPurged(cached, order, n) == Wrapped(SumFirst(cached, order, n))
  {
    if n > 0 {
      BytesPurgedIsSum(cached, order, n - 1);
      WrappedSum(SumFirst(cached, order, n - 1), cached[order[n - 1]].bytes);
    }
  }

  lemma WithoutKeepsAccount(s: Store, order: seq<string>, n: nat)
    requires Accounted(s) && Sorted(s.cached, order) && n <= |order|
    ensures Accounted(Without(s, order, n))
    ensures Fits(s.cached) ==>
      s.usage == Total(s.cached) && BytesPurged(s.cached, order, n) == SumFirst(s.cached, order, n) <= s.usage
      && Without(s, order, n).usage == s.usage - SumFirst(s.cached, order, n) == Total(Without(s, order, n).cached)
  {
    TotalAfter(s.cached, order, n);
    BytesPurgedIsSum(s.cached, order, n);
    WrappedSum(Total(s.cached - First(order, n)), SumFirst(s.cached, order, n));
  }

  lemma PurgeKeepsAccount(s: Store, t: Store)
    requires Accounted(s) && Purged(s, t)
    ensures Accounted(t)
  {
    if s.usage > s.capacity {
      var order, n :| PurgedBy(s, order, n, t);
      WithoutKeepsAccount(s, order, n);
    }
  }

  /** Whenever it runs, the purge ends at or below the preferred usage. */
  lemma PurgeReachesPreferred(s: Store, t: Store)
    requires Accounted(s) && Fits(s.cached) && Purged(s, t) && s.usage > s.capacity
    ensures t.usage <= s.preferred && t.usage == Total(t.cached)
  {
    var order, n :| PurgedBy(s, order, n, t);
    WithoutKeepsAccount(s, order, n);
    if n == |order| { EvictsAll(s, order); }
  }

  lemma EvictsAll(s: Store, order: seq<string>)
    requires Sorted(s.cached, order)
    ensures Without(s, order, |order|).cached == map[]
  {
    FirstAre(order, |order|);
    forall id | id in s.cached ensures id in First(order, |order|) {
      assert id in order;
    }
  }

  /** No survivor was last accessed before an evicted image, and survivors are untouched. */
  lemma PurgeEvictsOldest(s: Store, t: Store)
    requires Purged(s, t)
    ensures forall id :: id in t.cached ==> id in s.cached && t.cached[id] == s.cached[id]
    ensures forall gone, kept :: gone in s.cached && gone !in t.cached && kept in t.cached ==>
      s.cached[gone].accessed <= s.cached[kept].accessed
  {
    if s.usage > s.capacity {
      var order, n :| PurgedBy(s, order, n, t);
      FirstAre(order, n);
      forall gone, kept | gone in s.cached && gone !in t.cached && kept in t.cached
        ensures s.cached[gone].accessed <= s.cached[kept].accessed
      {
        var i :| 0 <= i < n && order[i] == gone;
        var j :| 0 <= j < |order| && order[j] == kept;
        assert j >= n;
      }
    }
  }

  lemma OrderNotEmpty(s: Store, order: seq<string>)
    requires Accounted(s) && s.usage > s.capacity && Sorted(s.cached, order)
    ensures order != []
  {
    var id :| id in s.cached;
    assert id in order;
  }

  /**
   * The last image evicted was needed, in that keeping it would exceed the preferred usage, if and
   * only if the preferred usage is below the usage purged from. A preferred usage above it makes
   * the subtraction wrap and evicts everything; an equal one evicts one image for nothing.
   */
  lemma LastEvictionNeededIff(s: Store, order: seq<string>, n: nat, t: Store)
    requires Accounted(s) && Fits(s.cached) && s.usage > s.capacity
    requires PurgedBy(s, order, n, t)
    ensures n > 0
    ensures t.usage + s.cached[order[n - 1]].bytes > s.preferred <==> s.preferred < s.usage
    ensures s.preferred > s.usage ==> t.cached == map[]
    ensures s.preferred == s.usage ==> n == 1
  {
    OrderNotEmpty(s, order);
    WithoutKeepsAccount(s, order, n);
    WithoutKeepsAccount(s, order, n - 1);
    if s.preferred > s.usage {
      EvictsAll(s, order);
    } else if n > 1 {
      assert BytesPurged(s.cached, order, n - 1) < BytesToPurge(s);
    }
  }

  /** The purge removes images if and only if the usage exceeds the capacity: not when it only reaches it. */
  lemma PurgesIff(s: Store, t: Store)
    requires Accounted(s) && Purged(s, t)
    ensures t.cached != s.cached <==> s.usage > s.capacity
  {
    if s.usage > s.capacity {
      var order, n :| PurgedBy(s, order, n, t);
      OrderNotEmpty(s, order);
      FirstAre(order, n);
      assert order[0] in order && order[0] !in t.cached;
    }
  }

  lemma TotalOfOne(id: string, e: Entry)
    ensures Total(map[id := e]) == e.bytes
  {
    TotalOfInsert(map[], id, e);
    var none: map<string, Entry> := map[];
    assert none[id := e] == map[id := e] && none - {id} == none && Total(none) == 0;
  }

  lemma TotalOfTwo(a: string, b: string, e: Entry, f: Entry)
    requires a != b
    ensures Total(map[a := e, b := f]) == e.bytes + f.bytes
  {
    TotalOfInsert(map[a := e], b, f);
    TotalOfOne(a, e);
    assert map[a := e][b := f] == map[a := e, b := f] && map[a := e] - {b} == map[a := e];
  }

  /** A cache filled to its capacity is left as it is. */
  lemma FullIsNotPurged(image: Image, t: Store)
    ensures
      var s := Store(10, 5, map["a" := Entry(image, 10, 0)], 10);
      Accounted(s) && (Purged(s, t) <==> t == s)
  {
    TotalOfOne("a", Entry(image, 10, 0));
  }

  /** Above the capacity of 10 but below the preferred usage of 20, both of two images are purged. */
  lemma PurgedBelowPreferred(image: Image, t: Store)
    ensures
      var s := Store(10, 20, map["a" := Entry(image, 6, 0), "b" := Entry(image, 6, 1)], 12);
      Accounted(s) && (Purged(s, t) <==> t == Store(10, 20, map[], 0))
  {
    var e, f := Entry(image, 6, 0), Entry(image, 6, 1);
    var s := Store(10, 20, map["a" := e, "b" := f], 12);
    assert "a" != "b" by { assert "a"[0] != "b"[0]; }
    TotalOfTwo("a", "b", e, f);
    if Purged(s, t) {
      var order, n :| PurgedBy(s, order, n, t);
      LastEvictionNeededIff(s, order, n, t);
      PurgeReachesPreferred(s, t);
    } else if t == Store(10, 20, map[], 0) {
      BothOldestFirst(s);
    }
  }

  lemma BothOldestFirst(s: Store)
    requires s.usage == 12 && s.preferred == 20 && s.capacity == 10 && s.cached.Keys == {"a", "b"}
    requires s.cached["a"].bytes == 6 && s.cached["b"].bytes == 6
    requires s.cached["a"].accessed <= s.cached["b"].accessed
    ensures Purged(s, s.(cached := map[], usage := 0))
  {
    var order := ["a", "b"];
    assert "a" != "b" by { assert "a"[0] != "b"[0]; }
    assert order[0] == "a" && order[1] == "b";
    assert Sorted(s.cached, order);
    EvictsAll(s, order);
    assert BytesPurged(s.cached, order, 1) == 6 && BytesPurged(s.cached, order, 2) == 12;
    assert StopsAfter(s, order, 2);
    assert PurgedBy(s, order, 2, s.(cached := map[], usage := 0));
  }

  // ----- every run

  /** One block on the synchronization queue; an add is `Insert` and, later, `Purge`. */
  datatype Op =
    | Insert(id: string, image: Image, bytes: Word, now: int)
    | Purge
    | Remove(id: string)
    | Clear
    | Lookup(id: string, now: int)

  ghost predicate Next(s: Store, op: Op, t: Store) {
    match op
    case Insert(id, image, bytes, now) =>
      var before := if id in s.cached then Minus(s.usage, s.cached[id].bytes) else s.usage;
      t == s.(cached := s.cached[id := Entry(image, bytes, now)], usage := Plus(before, bytes))
    case Purge => Purged(s, t)
    case Remove(id) =>
      t == if id in s.cached then s.(cached := s.cached - {id}, usage := Minus(s.usage, s.cached[id].bytes)) else s
    case Clear => t == if s.cached == map[] then s else s.(cached := map[], usage := 0)
    case Lookup(id, now) =>
      t == if id in s.cached then s.(cached := s.cached[id := s.cached[id].(accessed := now)]) else s
  }

  /**
   * The cache without eviction, from the operations alone: under each identifier the last image added
   * and not removed since, with its size and the time it was last added or looked up.
   */
  function Plain(ops: seq<Op>): map<string, Entry> {
    if ops == [] then map[]
    else
      var before := Plain(ops[..|ops| - 1]);
      match ops[|ops| - 1]
      case Insert(id, image, bytes, now) => before[id := Entry(image, bytes, now)]
      case Remove(id) => before - {id}
      case Clear => map[]
      case Lookup(id, now) => if id in before then before[id := before[id].(accessed := now)] else before
      case Purge => before
  }

  ghost predicate Trace(stores: seq<Store>, ops: seq<Op>) {
    && |stores| == |ops| + 1
    && stores[0].cached == map[] && stores[0].usage == 0
    && forall i :: 0 <= i < |ops| ==> Next(stores[i], ops[i], stores[i + 1])
  }

  lemma InsertKeepsAccount(s: Store, id: string, e: Entry, t: Store)
    requires Accounted(s) && t.cached == s.cached[id := e]
    requires t.usage == Plus(if id in s.cached then Minus(s.usage, s.cached[id].bytes) else s.usage, e.bytes)
    ensures Accounted(t)
  {
    TotalOfInsert(s.cached, id, e);
    WrappedSum(Total(s.cached - {id}), e.bytes);
    if id in s.cached {
      TotalWithout(s.cached, id);
      WrappedSum(Total(s.cached - {id}), s.cached[id].bytes);
    } else {
      assert s.cached - {id} == s.cached;
    }
  }

  lemma RemoveKeepsAccount(s: Store, id: string, t: Store)
    requires Accounted(s) && Next(s, Remove(id), t)
    ensures Accounted(t)
  {
    if id in s.cached {
      TotalWithout(s.cached, id);
      WrappedSum(Total(s.cached - {id}), s.cached[id].bytes);
    }
  }

  lemma LookupKeepsAccount(s: Store, id: string, now: int, t: Store)
    requires Accounted(s) && Next(s, Lookup(id, now), t)
    ensures Accounted(t)
  {
    if id in s.cached {
      TotalOfInsert(s.cached, id, s.cached[id].(accessed := now));
      TotalWithout(s.cached, id);
    }
  }

  lemma NextKeepsAccount(s: Store, op: Op, t: Store)
    requires Accounted(s) && Next(s, op, t)
    ensures Accounted(t)
  {
    match op {
      case Insert(id, image, bytes, now) => InsertKeepsAccount(s, id, Entry(image, bytes, now), t);
      case Purge => PurgeKeepsAccount(s, t);
      case Remove(id) => RemoveKeepsAccount(s, id, t);
      case Lookup(id, now) => LookupKeepsAccount(s, id, now, t);
      case Clear =>
    }
  }

  ghost predicate FromPlain(s: Store, ops: seq<Op>) {
    forall id :: id in s.cached ==> id in Plain(ops) && s.cached[id] == Plain(ops)[id]
  }

  lemma NextFromPlain(s: Store, ops: seq<Op>, op: Op, t: Store)
    requires FromPlain(s, ops) && Next(s, op, t)
    ensures FromPlain(t, ops + [op])
  {
    assert (ops + [op])[..|ops|] == ops;
    if op.Purge? { PurgeEvictsOldest(s, t); }
  }

  /**
   * Over every run: the account is right, and what is stored is the last image added under its
   * identifier, with its size and the time of its last use.
   */
  lemma {:induction false} EveryRun(stores: seq<Store>, ops: seq<Op>)
    requires Trace(stores, ops)
    ensures Accounted(stores[|ops|]) && FromPlain(stores[|ops|], ops)
    ensures stores[|ops|].capacity == stores[0].capacity && stores[|ops|].preferred == stores[0].preferred
    decreases |ops|
  {
    if ops != [] {
      var n := |ops| - 1;
      EveryRun(stores[..n + 1], ops[..n]);
      assert Next(stores[n], ops[n], stores[n + 1]);
      NextKeepsAccount(stores[n], ops[n], stores[n + 1]);
      NextFromPlain(stores[n], ops[..n], ops[n], stores[n + 1]);
      assert ops == ops[..n] + [ops[n]];
    }
  }

  /** In every run no image that a purge leaves was last used before one that it evicts. */
  lemma EvictsLeastRecentlyUsed(stores: seq<Store>, ops: seq<Op>, gone: string, kept: string)
    requires Trace(stores, ops) && ops != [] && ops[|ops| - 1].Purge?
    requires gone in stores[|ops| - 1].cached && gone !in stores[|ops|].cached && kept in stores[|ops|].cached
    ensures gone in Plain(ops) && kept in Plain(ops) && Plain(ops)[gone].accessed <= Plain(ops)[kept].accessed
  {
    var n := |ops| - 1;
    EveryRun(stores[..n + 1], ops[..n]);
    assert Next(stores[n], ops[n], stores[n + 1]);
    PurgeEvictsOldest(stores[n], stores[n + 1]);
  }

  /** Purge `k` evicted the image, and none was added under its identifier since. */
  ghost predicate PurgedAt(stores: seq<Store>, ops: seq<Op>, id: string, k: nat)
    requires |stores| == |ops| + 1
  {
    && k < |ops| && ops[k].Purge? && id in stores[k].cached && id !in stores[k + 1].cached
    && forall j :: k < j < |ops| ==> !(ops[j].Insert? && ops[j].id == id)
  }

  /** In every run an image that was added and not removed is stored, or a purge has evicted it since. */
  lemma {:induction false} MissedOnlyWhenPurged(stores: seq<Store>, ops: seq<Op>, id: string)
    requires Trace(stores, ops) && id in Plain(ops) && id !in stores[|ops|].cached
    ensures exists k: nat :: PurgedAt(stores, ops, id, k)
    decreases |ops|
  {
    var n := |ops| - 1;
    assert Next(stores[n], ops[n], stores[n + 1]);
    if id in stores[n].cached {
      assert PurgedAt(stores, ops, id, n);
    } else {
      MissedOnlyWhenPurged(stores[..n + 1], ops[..n], id);
      var k: nat :| PurgedAt(stores[..n + 1], ops[..n], id, k);
      assert PurgedAt(stores, ops, id, k);
    }
  }

  /** In every run, each purge leaves the usage within the capacity when the preferred usage is. */
  lemma WithinCapacityAfterPurge(stores: seq<Store>, ops: seq<Op>)
    requires Trace(stores, ops) && ops != [] && ops[|ops| - 1].Purge?
    requires Fits(stores[|ops| - 1].cached)
    ensures var t := stores[|ops|]; t.preferred <= t.capacity ==> t.usage <= t.capacity
  {
    var n := |ops| - 1;
    EveryRun(stores[..n + 1], ops[..n]);
    assert Next(stores[n], ops[n], stores[n + 1]);
    if stores[n].usage > stores[n].capacity { PurgeReachesPreferred(stores[n], stores[n + 1]); }
  }

  // ----- the object

  class AutoPurgingImageCache {
    var memoryCapacity: Word
    var preferredMemoryUsageAfterPurge: Word
    var cachedImages: map<string, Entry>
    var currentMemoryUsage: Word

    ghost function View(): Store
      reads this
    {
      Store(memoryCapacity, preferredMemoryUsageAfterPurge, cachedImages, currentMemoryUsage)
    }

    constructor (capacity: Word, preferred: Word)
      ensures View() == Store(capacity, preferred, map[], 0) && Accounted(View())
    {
      memoryCapacity, preferredMemoryUsageAfterPurge := capacity, preferred;
      cachedImages, currentMemoryUsage := map[], 0;
    }

    method StoreImage(image: Image, bytes: Word, id: string, now: int)
      modifies this
      ensures Next(old(View()), Insert(id, image, bytes, now), View())
    {
      if id in cachedImages {
        currentMemoryUsage := Minus(currentMemoryUsage, cachedImages[id].bytes);
      }
      cachedImages := cachedImages[id := Entry(image, bytes, now)];
      currentMemoryUsage := Plus(currentMemoryUsage, bytes);
    }

    /** All identifiers, least recently accessed first; ties in any order. */
    method SortByLastAccess() returns (order: seq<string>)
      ensures Sorted(cachedImages, order)
    {
      order := [];
      var left := cachedImages.Keys;
      while left != {}
        invariant left <= cachedImages.Keys
        invariant forall i, j :: 0 <= i < j < |order| ==> order[i] != order[j]
        invariant forall id :: id in cachedImages <==> id in order || id in left
        invariant forall id :: id in order ==> id !in left
        invariant forall i, j :: 0 <= i < j < |order| ==>
          cachedImages[order[i]].accessed <= cachedImages[order[j]].accessed
        invariant forall i, id :: 0 <= i < |order| && id in left ==>
          cachedImages[order[i]].accessed <= cachedImages[id].accessed
        decreases |left|
      {
        OldestExists(cachedImages, left);
        var id :| id in left && forall other :: other in left ==>
          cachedImages[id].accessed <= cachedImages[other].accessed;
        order := order + [id];
        left := left - {id};
      }
    }

    /** The loop of the purge, over the images in order of last access. */
    method Evict(sortedImages: seq<string>, bytesToPurge: Word) returns (bytesPurged: Word, n: nat)
      requires Sorted(cachedImages, sortedImages)
      modifies this`cachedImages
      ensures n <= |sortedImages| && (sortedImages != [] ==> n > 0)
      ensures cachedImages == old(cachedImages) - First(sortedImages, n)
      ensures bytesPurged == BytesPurged(old(cachedImages), sortedImages, n)
      ensures n == |sortedImages| || bytesPurged >= bytesToPurge
      ensures forall k :: 0 < k < n ==> BytesPurged(old(cachedImages), sortedImages, k) < bytesToPurge
    {
      ghost var all := cachedImages;
      bytesPurged, n := 0, 0;
      while n < |sortedImages|
        invariant 0 <= n <= |sortedImages|
        invariant cachedImages == all - First(sortedImages, n)
        invariant bytesPurged == BytesPurged(all, sortedImages, n)
        invariant NotYet(all, sortedImages, n, bytesToPurge)
      {
        var id := sortedImages[n];
        EvictStep(all, sortedImages, n);
        bytesPurged := Plus(bytesPurged, cachedImages[id].bytes);
        cachedImages := cachedImages - {id};
        n := n + 1;
        if bytesPurged >= bytesToPurge { break; }
        NotYetOn(all, sortedImages, n, bytesToPurge);
      }
    }

    method PurgeIfNeeded()
      modifies this
      ensures Next(old(View()), Purge, View())
    {
      if currentMemoryUsage > memoryCapacity {
        ghost var s := View();
        var bytesToPurge := Minus(currentMemoryUsage, preferredMemoryUsageAfterPurge);
        var sortedImages := SortByLastAccess();
        var bytesPurged, n := Evict(sortedImages, bytesToPurge);
        currentMemoryUsage := Minus(currentMemoryUsage, bytesPurged);
        assert PurgedBy(s, sortedImages, n, View());
      }
    }

    /** -addImage:withIdentifier: when nothing else runs between its two blocks. */
    method AddImage(image: Image, bytes: Word, id: string, now: int)
      requires Accounted(View())
      modifies this
      ensures exists mid :: Next(old(View()), Insert(id, image, bytes, now), mid) && Purged(mid, View())
      ensures Accounted(View())
    {
      ghost var s := View();
      StoreImage(image, bytes, id, now);
      ghost var mid := View();
      PurgeIfNeeded();
      NextKeepsAccount(s, Insert(id, image, bytes, now), mid);
      PurgeKeepsAccount(mid, View());
    }

    method RemoveImage(id: string) returns (removed: bool)
      modifies this
      ensures Next(old(View()), Remove(id), View())
      ensures removed <==> id in old(cachedImages)
    {
      removed := id in cachedImages;
      if removed {
        currentMemoryUsage := Minus(currentMemoryUsage, cachedImages[id].bytes);
        cachedImages := cachedImages - {id};
      }
    }

    method RemoveAllImages() returns (removed: bool)
      modifies this
      ensures Next(old(View()), Clear, View())
      ensures removed <==> old(cachedImages) != map[]
    {
      removed := |cachedImages| > 0;
      if removed {
        cachedImages, currentMemoryUsage := map[], 0;
      }
    }

    method ImageWithIdentifier(id: string, now: int) returns (image: Option<Image>)
      modifies this
      ensures Next(old(View()), Lookup(id, now), View())
      ensures image == if id in old(cachedImages) then Some(old(cachedImages)[id].image) else None
    {
      if id in cachedImages {
        image := Some(cachedImages[id].image);
        cachedImages := cachedImages[id := cachedImages[id].(accessed := now)];
      } else {
        image := None;
      }
    }
  }

  /** No image so far was the last that the purge needed. */
  ghost predicate NotYet(all: map<string, Entry>, order: seq<string>, n: nat, bytes: Word)
    requires n <= |order| && forall id :: id in order ==> id in all
  {
    forall k :: 0 < k <= n ==> BytesPurged(all, order, k) < bytes
  }

  lemma NotYetOn(all: map<string, Entry>, order: seq<string>, n: nat, bytes: Word)
    requires 0 < n <= |order| && forall id :: id in order ==> id in all
    requires NotYet(all, order, n - 1, bytes) && BytesPurged(all, order, n) < bytes
    ensures NotYet(all, order, n, bytes)
  {
  }

  /** One turn of the purge's loop. */
  lemma EvictStep(all: map<string, Entry>, order: seq<string>, n: nat)
    requires Sorted(all, order) && n < |order|
    ensures
      var left := all - First(order, n);
      && order[n] in left && all - First(order, n + 1) == left - {order[n]}
      && BytesPurged(all, order, n + 1) == Plus(BytesPurged(all, order, n), left[order[n]].bytes)
  {
    FirstStep(all, order, n + 1);
  }

  lemma {:induction false} OldestExists(cached: map<string, Entry>, ids: set<string>)
    requires ids != {} && ids <= cached.Keys
    ensures exists id :: id in ids && forall other :: other in ids ==> cached[id].accessed <= cached[other].accessed
    decreases |ids|
  {
    var id :| id in ids;
    var rest := ids - {id};
    assert ids == rest + {id};
    if rest != {} {
      OldestExists(cached, rest);
      var oldest :| oldest in rest && forall other :: other in rest ==>
        cached[oldest].accessed <= cached[other].accessed;
      var least := if cached[id].accessed <= cached[oldest].accessed then id else oldest;
      assert least in ids && forall other :: other in ids ==> cached[least].accessed <= cached[other].accessed;
    }
  }
}
