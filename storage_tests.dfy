/**
  The `TestSuite` of src/storage/mod.rs, stated for the reference store. Each test
  becomes a method that builds its own store and returns what the Rust test
  compares, and whose postcondition is that comparison, for every input where the
  test is generic (`TestRandom` takes its items as a parameter instead of drawing
  them from a seeded generator).
 */
module StorageTests {
  import opened Wrappers
  import opened Bytes
  import opened Storage

  const KeyA: Key := [0x61]   // b"a"
  const KeyB: Key := [0x62]   // b"b"
  const KeyBA: Key := [0x62, 0x61]   // b"ba"
  const KeyBB: Key := [0x62, 0x62]   // b"bb"
  const KeyBZ: Key := [0x62, 0x7a]   // b"bz"
  const KeyC: Key := [0x63]   // b"c"

  /** `test_get`: an inserted key is found, a key never inserted is not. */
  method TestGet() returns (present: Option<Value>, absent: Option<Value>)
    ensures present == Some([0x01])
    ensures absent == None
  {
    var s := new MemoryStore();
    s.SetOrInsert(KeyA, [0x01]);
    present := s.Get(KeyA);
    absent := s.Get(KeyB);
  }

  /** `test_delete`: a deleted key is gone, and deleting an absent key changes nothing. */
  method TestDelete() returns (before: Option<Value>, after: Option<Value>, remaining: map<Key, Value>)
    ensures before == Some([0x01])
    ensures after == None
    ensures remaining == map[]
  {
    var s := new MemoryStore();
    s.SetOrInsert(KeyA, [0x01]);
    before := s.Get(KeyA);
    s.Delete(KeyA);
    after := s.Get(KeyA);
    s.Delete(KeyB);
    remaining := s.data;
  }

  /** `test_set`: writing an existing key replaces its value. */
  method TestSet() returns (first: Option<Value>, second: Option<Value>)
    ensures first == Some([0x01])
    ensures second == Some([0x02])
  {
    var s := new MemoryStore();
    s.SetOrInsert(KeyA, [0x01]);
    first := s.Get(KeyA);
    s.SetOrInsert(KeyA, [0x02]);
    second := s.Get(KeyA);
  }

  /** `test_scan`: forward, backward, exclusive, inclusive, open and full ranges. */
  method TestScan() returns (
    forward: seq<(Key, Value)>, backward: seq<(Key, Value)>,
    exclusive: seq<(Key, Value)>, inclusive: seq<(Key, Value)>,
    openEnd: seq<(Key, Value)>, openStart: seq<(Key, Value)>,
    full: seq<(Key, Value)>)
    ensures forward == [(KeyB, [0x02]), (KeyBA, [0x02, 0x01]), (KeyBB, [0x02, 0x02])]
    ensures backward == [(KeyBB, [0x02, 0x02]), (KeyBA, [0x02, 0x01]), (KeyB, [0x02])]
    ensures exclusive == [(KeyB, [0x02]), (KeyBA, [0x02, 0x01])]
    ensures inclusive == [(KeyB, [0x02]), (KeyBA, [0x02, 0x01]), (KeyBB, [0x02, 0x02])]
    ensures openEnd == [(KeyBB, [0x02, 0x02]), (KeyC, [0x03])]
    ensures openStart == [(KeyA, [0x01]), (KeyB, [0x02])]
    ensures full == [(KeyA, [0x01]), (KeyB, [0x02]), (KeyBA, [0x02, 0x01]), (KeyBB, [0x02, 0x02]), (KeyC, [0x03])]
  {
    var s := new MemoryStore();
    s.SetOrInsert(KeyA, [0x01]);
    s.SetOrInsert(KeyB, [0x02]);
    s.SetOrInsert(KeyBA, [0x02, 0x01]);
    s.SetOrInsert(KeyBB, [0x02, 0x02]);
    s.SetOrInsert(KeyC, [0x03]);
    assert s.data == Five();
    ScanHalfOpen();
    ScanBackIsReverse(Five(), Range.From(HalfOpen(KeyB, KeyBZ)));
    ScanExclusiveEnd();
    ScanInclusiveEnd();
    ScanOpenEnd();
    ScanOpenStart();
    ScanFull();
    forward := s.Scan(Range.From(HalfOpen(KeyB, KeyBZ)));
    backward := s.ScanBack(Range.From(HalfOpen(KeyB, KeyBZ)));
    exclusive := s.Scan(Range.From(HalfOpen(KeyB, KeyBB)));
    inclusive := s.Scan(Range.From(Closed(KeyB, KeyBB)));
    openEnd := s.Scan(Range.From(RangeFrom(KeyBB)));
    openStart := s.Scan(Range.From(RangeToInclusive(KeyB)));
    full := s.Scan(Range.From(RangeFull));
  }

  /** The store `test_scan` builds. */
  function Five(): map<Key, Value> {
    map[KeyA := [0x01], KeyB := [0x02], KeyBA := [0x02, 0x01], KeyBB := [0x02, 0x02], KeyC := [0x03]]
  }

  lemma ScanHalfOpen()
    ensures ScanMap(Five(), Range.From(HalfOpen(KeyB, KeyBZ)))
         == [(KeyB, [0x02]), (KeyBA, [0x02, 0x01]), (KeyBB, [0x02, 0x02])]
  {
    FiveKeysOrdered();
    ScanMapIs(Five(), Range.From(HalfOpen(KeyB, KeyBZ)), [(KeyB, [0x02]), (KeyBA, [0x02, 0x01]), (KeyBB, [0x02, 0x02])]);
  }

  lemma ScanExclusiveEnd()
    ensures ScanMap(Five(), Range.From(HalfOpen(KeyB, KeyBB)))
         == [(KeyB, [0x02]), (KeyBA, [0x02, 0x01])]
  {
    FiveKeysOrdered();
    LessIrreflexive(KeyBB);
    ScanMapIs(Five(), Range.From(HalfOpen(KeyB, KeyBB)), [(KeyB, [0x02]), (KeyBA, [0x02, 0x01])]);
  }

  lemma ScanInclusiveEnd()
    ensures ScanMap(Five(), Range.From(Closed(KeyB, KeyBB)))
         == [(KeyB, [0x02]), (KeyBA, [0x02, 0x01]), (KeyBB, [0x02, 0x02])]
  {
    FiveKeysOrdered();
    ScanMapIs(Five(), Range.From(Closed(KeyB, KeyBB)), [(KeyB, [0x02]), (KeyBA, [0x02, 0x01]), (KeyBB, [0x02, 0x02])]);
  }

  lemma ScanOpenEnd()
    ensures ScanMap(Five(), Range.From(RangeFrom(KeyBB)))
         == [(KeyBB, [0x02, 0x02]), (KeyC, [0x03])]
  {
    FiveKeysOrdered();
    ScanMapIs(Five(), Range.From(RangeFrom(KeyBB)), [(KeyBB, [0x02, 0x02]), (KeyC, [0x03])]);
  }

  lemma ScanOpenStart()
    ensures ScanMap(Five(), Range.From(RangeToInclusive(KeyB)))
         == [(KeyA, [0x01]), (KeyB, [0x02])]
  {
    FiveKeysOrdered();
    ScanMapIs(Five(), Range.From(RangeToInclusive(KeyB)), [(KeyA, [0x01]), (KeyB, [0x02])]);
  }

  lemma ScanFull()
    ensures ScanMap(Five(), Range.From(RangeFull))
         == [(KeyA, [0x01]), (KeyB, [0x02]), (KeyBA, [0x02, 0x01]), (KeyBB, [0x02, 0x02]), (KeyC, [0x03])]
  {
    FiveKeysOrdered();
    ScanMapIs(Five(), Range.From(RangeFull), [(KeyA, [0x01]), (KeyB, [0x02]), (KeyBA, [0x02, 0x01]), (KeyBB, [0x02, 0x02]), (KeyC, [0x03])]);
  }

  /** The byte order on the test keys: a < b < ba < bb < bz < c. */
  lemma FiveKeysOrdered()
    ensures Less(KeyA, KeyB) && Less(KeyB, KeyBA) && Less(KeyBA, KeyBB)
    ensures Less(KeyBB, KeyBZ) && Less(KeyBZ, KeyC)
    ensures Less(KeyA, KeyBA) && Less(KeyA, KeyBB) && Less(KeyA, KeyC)
    ensures Less(KeyB, KeyBB) && Less(KeyB, KeyBZ) && Less(KeyB, KeyC)
    ensures Less(KeyBA, KeyBZ) && Less(KeyBA, KeyC) && Less(KeyBB, KeyC)
  {
  }

  // ----- test_random -----

  predicate DistinctKeys(items: seq<(Key, Value)>) {
    forall i, j :: 0 <= i < j < |items| ==> items[i].0 != items[j].0
  }

  predicate Distinct<T(==)>(s: seq<T>) {
    forall i, j :: 0 <= i < j < |s| ==> s[i] != s[j]
  }

  /** The map that inserting `items` in order into an empty store produces. */
  function ToMap(items: seq<(Key, Value)>): map<Key, Value> {
    if items == [] then map[]
    else ToMap(items[..|items| - 1])[items[|items| - 1].0 := items[|items| - 1].1]
  }

  /** The keys of `items`, as deleting them in order removes them. */
  function KeysOf(items: seq<(Key, Value)>): set<Key> {
    if items == [] then {} else KeysOf(items[..|items| - 1]) + {items[|items| - 1].0}
  }

  lemma {:induction false} ToMapKeys(items: seq<(Key, Value)>)
    ensures ToMap(items).Keys == KeysOf(items)
    decreases |items|
  {
    if items != [] {
      ToMapKeys(items[..|items| - 1]);
    }
  }

  /** With distinct keys, the inserted map holds exactly the inserted pairs. */
  lemma {:induction false} ToMapHolds(items: seq<(Key, Value)>)
    requires DistinctKeys(items)
    ensures forall p :: p in items <==> p.0 in ToMap(items) && ToMap(items)[p.0] == p.1
    decreases |items|
  {
    if items != [] {
      var init := items[..|items| - 1];
      var last := items[|items| - 1];
      ToMapHolds(init);
      assert items == init + [last];
      assert forall p :: p in init ==> p.0 != last.0;
    }
  }

  /** A duplicate-free sequence holds each of its members exactly once. */
  lemma {:induction false} DistinctCount<T>(s: seq<T>, x: T)
    requires Distinct(s)
    ensures multiset(s)[x] == if x in s then 1 else 0
    decreases |s|
  {
    if s != [] {
      assert s == [s[0]] + s[1..];
      assert s[0] !in s[1..];
      DistinctCount(s[1..], x);
    }
  }

  /** Two duplicate-free sequences with the same members are permutations of each other. */
  lemma SameMembersPermutation<T>(a: seq<T>, b: seq<T>)
    requires Distinct(a) && Distinct(b)
    requires forall x :: x in a <==> x in b
    ensures multiset(a) == multiset(b)
  {
    forall x ensures multiset(a)[x] == multiset(b)[x] {
      DistinctCount(a, x);
      DistinctCount(b, x);
    }
  }

  lemma AscendingDistinct(s: seq<(Key, Value)>)
    requires KeysAscending(s)
    ensures Distinct(s)
  {
    forall i, j | 0 <= i < j < |s| ensures s[i] != s[j] {
      LessIrreflexive(s[i].0);
    }
  }

  /**
    `test_random`: insert items with distinct keys, read each back, scan the whole
    key space in both directions and compare with the items sorted by key, then
    delete every key and find the store empty.
   */
  method TestRandom(items: seq<(Key, Value)>) returns (
    fetched: seq<Option<Value>>, forward: seq<(Key, Value)>, backward: seq<(Key, Value)>,
    cleared: seq<Option<Value>>, rest: seq<(Key, Value)>)
    requires DistinctKeys(items)
    ensures |fetched| == |items|
    ensures forall i :: 0 <= i < |items| ==> fetched[i] == Some(items[i].1)
    ensures KeysAscending(forward) && multiset(forward) == multiset(items)
    ensures backward == Reverse(forward)
    ensures |cleared| == |items|
    ensures forall i :: 0 <= i < |items| ==> cleared[i] == None
    ensures rest == []
  {
    var s := new MemoryStore();
    InsertAll(s, items);
    var m := s.data;
    fetched := FetchAll(s, items);
    var full := Range.From(RangeFull);
    forward := s.Scan(full);
    FullScanSortsItems(items);
    ScanBackIsReverse(m, full);
    backward := s.ScanBack(full);
    cleared := DeleteAll(s, items);
    ToMapKeys(items);
    assert s.data == map[];
    rest := s.Scan(full);
    EmptyStoreScansEmpty(full);
  }

  /** Inserts the items in order. */
  method InsertAll(s: MemoryStore, items: seq<(Key, Value)>)
    modifies s
    ensures s.data == old(s.data) + ToMap(items)
  {
    for i := 0 to |items|
      invariant s.data == old(s.data) + ToMap(items[..i])
    {
      assert items[..i + 1][..i] == items[..i];
      s.SetOrInsert(items[i].0, items[i].1);
    }
    assert items[..|items|] == items;
  }

  /** Reads every item's key back; with distinct keys each read finds the item's value. */
  method FetchAll(s: MemoryStore, items: seq<(Key, Value)>) returns (fetched: seq<Option<Value>>)
    requires DistinctKeys(items) && s.data == ToMap(items)
    ensures |fetched| == |items|
    ensures forall i :: 0 <= i < |items| ==> fetched[i] == Some(items[i].1)
  {
    fetched := [];
    for i := 0 to |items|
      invariant |fetched| == i
      invariant forall j :: 0 <= j < i ==> fetched[j] == Some(items[j].1)
    {
      var v := s.Get(items[i].0);
      assert v == Some(items[i].1) by {
        ToMapHolds(items);
        assert items[i] in items;
      }
      fetched := fetched + [v];
    }
  }

  /** Deletes every item's key, reading each back after its deletion. */
  method DeleteAll(s: MemoryStore, items: seq<(Key, Value)>) returns (cleared: seq<Option<Value>>)
    modifies s
    ensures s.data == old(s.data) - KeysOf(items)
    ensures |cleared| == |items|
    ensures forall i :: 0 <= i < |items| ==> cleared[i] == None
  {
    cleared := [];
    for i := 0 to |items|
      invariant s.data == old(s.data) - KeysOf(items[..i])
      invariant |cleared| == i
      invariant forall j :: 0 <= j < i ==> cleared[j] == None
    {
      assert items[..i + 1][..i] == items[..i];
      s.Delete(items[i].0);
      var v := s.Get(items[i].0);
      cleared := cleared + [v];
    }
    assert items[..|items|] == items;
  }

  /** A full scan of the inserted items is those items sorted by key. */
  lemma FullScanSortsItems(items: seq<(Key, Value)>)
    requires DistinctKeys(items)
    ensures KeysAscending(ScanMap(ToMap(items), Range.From(RangeFull)))
    ensures multiset(ScanMap(ToMap(items), Range.From(RangeFull))) == multiset(items)
  {
    var full := Range.From(RangeFull);
    var fwd := ScanMap(ToMap(items), full);
    ToMapHolds(items);
    assert forall p :: p in fwd <==> p in items by {
      forall p ensures p in fwd <==> p in items {
        assert full.Contains(p.0);
      }
    }
    AscendingDistinct(fwd);
    SameMembersPermutation(fwd, items);
  }

  /** Once every key is deleted, a scan over any range is empty. */
  lemma EmptyStoreScansEmpty(range: Range)
    ensures ScanMap(map[], range) == []
  {
    ScanMapIs(map[], range, []);
  }

}
