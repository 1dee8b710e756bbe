/**
  The ordered key/value store contract of src/storage/mod.rs: the `Store` trait
  (upsert, get, delete, ordered range scan in both directions, flush) and the owned
  `Range` wrapper built from any Rust range expression.

  No engine is part of this model, so the trait is modelled by a reference store,
  `MemoryStore`, whose whole state is one map from keys to values. A forward scan is
  the sorted, bound-filtered list of its pairs (`ScanMap`); a backward scan is defined
  independently, by always taking the greatest remaining key (`ScanMapBack`), and is
  proved to be the reverse of the forward scan.
 */
module Storage {
  import opened Wrappers
  import opened Bytes

  /** `std::ops::Bound<Vec<u8>>`. */
  datatype Bound = Included(key: Key) | Excluded(key: Key) | Unbounded

  /** Does `key` lie on the permitted side of a start bound? */
  predicate AboveStart(b: Bound, key: Key) {
    match b
    case Included(s) => LessEq(s, key)
    case Excluded(s) => Less(s, key)
    case Unbounded => true
  }

  /** Does `key` lie on the permitted side of an end bound? */
  predicate BelowEnd(b: Bound, key: Key) {
    match b
    case Included(e) => LessEq(key, e)
    case Excluded(e) => Less(key, e)
    case Unbounded => true
  }

  /**
    The Rust range expressions over `Vec<u8>` that implement `RangeBounds`, with the
    bounds the standard library gives each: `..`, `s..`, `..e`, `..=e`, `s..e`,
    `s..=e`, and a pair of `Bound`s.
   */
  datatype RangeExpr =
    | RangeFull
    | RangeFrom(start: Key)
    | RangeTo(end: Key)
    | RangeToInclusive(end: Key)
    | HalfOpen(start: Key, end: Key)
    | Closed(start: Key, end: Key)
    | BoundPair(lo: Bound, hi: Bound)
  {
    function StartBound(): Bound {
      match this
      case RangeFull => Unbounded
      case RangeFrom(s) => Included(s)
      case RangeTo(_) => Unbounded
      case RangeToInclusive(_) => Unbounded
      case HalfOpen(s, _) => Included(s)
      case Closed(s, _) => Included(s)
      case BoundPair(lo, _) => lo
    }

    function EndBound(): Bound {
      match this
      case RangeFull => Unbounded
      case RangeFrom(_) => Unbounded
      case RangeTo(e) => Excluded(e)
      case RangeToInclusive(e) => Included(e)
      case HalfOpen(_, e) => Excluded(e)
      case Closed(_, e) => Included(e)
      case BoundPair(_, hi) => hi
    }
  }

  /** The scan range wrapper: an owned start and end bound. */
  datatype Range = Range(start: Bound, end: Bound) {

    /** `Range::from`: copies the kind and key of both bounds of any range expression. */
    static function From(range: RangeExpr): (r: Range)
      ensures r.StartBound() == range.StartBound()
      ensures r.EndBound() == range.EndBound()
    {
      Range(
        match range.StartBound()
        case Included(v) => Included(v)
        case Excluded(v) => Excluded(v)
        case Unbounded => Unbounded,
        match range.EndBound()
        case Included(v) => Included(v)
        case Excluded(v) => Excluded(v)
        case Unbounded => Unbounded)
    }

    /** `RangeBounds::start_bound` for `Range`. */
    function StartBound(): Bound {
      match start
      case Included(v) => Included(v)
      case Excluded(v) => Excluded(v)
      case Unbounded => Unbounded
    }

    /** `RangeBounds::end_bound` for `Range`. */
    function EndBound(): Bound {
      match end
      case Included(v) => Included(v)
      case Excluded(v) => Excluded(v)
      case Unbounded => Unbounded
    }

    /** Whether a key satisfies both bounds (`RangeBounds::contains`). */
    predicate Contains(key: Key) {
      AboveStart(StartBound(), key) && BelowEnd(EndBound(), key)
    }
  }

  /** `Range` is itself a `RangeBounds`: rebuilding it from its own bounds gives it back. */
  lemma RangeRoundTrip(r: Range)
    ensures Range.From(BoundPair(r.StartBound(), r.EndBound())) == r
    ensures r.StartBound() == r.start && r.EndBound() == r.end
  {
  }

  /** The three kinds of bound, at the bound's own key and for every key. */
  lemma BoundSemantics(s: Key, e: Key, k: Key)
    ensures !Range(Included(s), Excluded(e)).Contains(e)
    ensures LessEq(s, e) ==> Range(Included(s), Included(e)).Contains(e)
    ensures !Range(Excluded(s), Included(e)).Contains(s)
    ensures Range(Unbounded, Unbounded).Contains(k)
    ensures Range(Unbounded, Included(e)).Contains(k) <==> LessEq(k, e)
    ensures Range(Included(s), Unbounded).Contains(k) <==> LessEq(s, k)
  {
    LessIrreflexive(e);
    LessIrreflexive(s);
  }

  // ----- ordered key sequences -----

  predicate StrictlyAscending(ks: seq<Key>) {
    forall i, j :: 0 <= i < j < |ks| ==> Less(ks[i], ks[j])
  }

  predicate StrictlyDescending(ks: seq<Key>) {
    forall i, j :: 0 <= i < j < |ks| ==> Less(ks[j], ks[i])
  }

  /** Pairs in strictly ascending key order (so no key occurs twice). */
  predicate KeysAscending(ps: seq<(Key, Value)>) {
    forall i, j :: 0 <= i < j < |ps| ==> Less(ps[i].0, ps[j].0)
  }

  /** Pairs in strictly descending key order. */
  predicate KeysDescending(ps: seq<(Key, Value)>) {
    forall i, j :: 0 <= i < j < |ps| ==> Less(ps[j].0, ps[i].0)
  }

  predicate IsLeast(k: Key, ks: set<Key>) {
    k in ks && forall j :: j in ks ==> LessEq(k, j)
  }

  predicate IsGreatest(k: Key, ks: set<Key>) {
    k in ks && forall j :: j in ks ==> LessEq(j, k)
  }

  /** Every non-empty finite set of keys has a least element. */
  lemma {:induction false} LeastExists(ks: set<Key>)
    requires ks != {}
    ensures exists k :: IsLeast(k, ks)
    decreases |ks|
  {
    var x :| x in ks;
    var rest := ks - {x};
    if rest == {} {
      assert ks == {x};
      assert IsLeast(x, ks);
    } else {
      LeastExists(rest);
      var y :| IsLeast(y, rest);
      LessTotal(x, y);
      if Less(x, y) {
        forall j | j in ks ensures LessEq(x, j) {
          if j != x && j != y {
            assert j in rest;
            LessTransitive(x, y, j);
          }
        }
        assert IsLeast(x, ks);
      } else {
        assert IsLeast(y, ks);
      }
    }
  }

  /** Every non-empty finite set of keys has a greatest element. */
  lemma {:induction false} GreatestExists(ks: set<Key>)
    requires ks != {}
    ensures exists k :: IsGreatest(k, ks)
    decreases |ks|
  {
    var x :| x in ks;
    var rest := ks - {x};
    if rest == {} {
      assert ks == {x};
      assert IsGreatest(x, ks);
    } else {
      GreatestExists(rest);
      var y :| IsGreatest(y, rest);
      LessTotal(x, y);
      if Less(y, x) {
        forall j | j in ks ensures LessEq(j, x) {
          if j != x && j != y {
            assert j in rest;
            LessTransitive(j, y, x);
          }
        }
        assert IsGreatest(x, ks);
      } else {
        assert IsGreatest(y, ks);
      }
    }
  }

  lemma ExtremesUnique(ks: set<Key>)
    ensures forall a, b :: IsLeast(a, ks) && IsLeast(b, ks) ==> a == b
    ensures forall a, b :: IsGreatest(a, ks) && IsGreatest(b, ks) ==> a == b
  {
    forall a, b | a in ks && b in ks
      ensures Less(a, b) ==> !Less(b, a)
    {
      LessAsymmetric(a, b);
    }
  }

  /** The keys of a set in ascending order, least first. */
  function SortedKeys(ks: set<Key>): (r: seq<Key>)
    ensures StrictlyAscending(r)
    ensures forall k :: k in r <==> k in ks
    decreases |ks|
  {
    if ks == {} then []
    else
      LeastExists(ks);
      ExtremesUnique(ks);
      var k :| IsLeast(k, ks);
      var rest := SortedKeys(ks - {k});
      assert forall i :: 0 <= i < |rest| ==> Less(k, rest[i]) by {
        forall i | 0 <= i < |rest| ensures Less(k, rest[i]) {
          assert rest[i] in ks - {k};
        }
      }
      [k] + rest
  }

  /** The keys of a set in descending order, greatest first. */
  function DescendingKeys(ks: set<Key>): (r: seq<Key>)
    ensures StrictlyDescending(r)
    ensures forall k :: k in r <==> k in ks
    decreases |ks|
  {
    if ks == {} then []
    else
      GreatestExists(ks);
      ExtremesUnique(ks);
      var k :| IsGreatest(k, ks);
      var rest := DescendingKeys(ks - {k});
      assert forall i :: 0 <= i < |rest| ==> Less(rest[i], k) by {
        forall i | 0 <= i < |rest| ensures Less(rest[i], k) {
          assert rest[i] in ks - {k};
        }
      }
      [k] + rest
  }

  // ----- the store's logical state: a map -----

  /** `get`: the value stored under `key`, if any. */
  function Lookup(m: map<Key, Value>, key: Key): (r: Option<Value>)
    ensures r.Some? <==> key in m
    ensures r.Some? ==> r.value == m[key]
  {
    if key in m then Some(m[key]) else None
  }

  /** A pair is selected by a scan of `m` over `range`: it is stored and its key is in range. */
  predicate Selected(m: map<Key, Value>, range: Range, p: (Key, Value)) {
    p.0 in m && m[p.0] == p.1 && range.Contains(p.0)
  }

  /** The keys of `m` that satisfy both bounds of `range`. */
  function KeysIn(m: map<Key, Value>, range: Range): set<Key> {
    set k | k in m && range.Contains(k)
  }

  /** Forward `scan`: every stored pair within the bounds, in ascending key order. */
  function ScanMap(m: map<Key, Value>, range: Range): (r: seq<(Key, Value)>)
    ensures KeysAscending(r)
    ensures forall p :: p in r <==> Selected(m, range, p)
  {
    var ks := SortedKeys(KeysIn(m, range));
    assert forall i :: 0 <= i < |ks| ==> ks[i] in KeysIn(m, range);
    var r := seq(|ks|, i requires 0 <= i < |ks| => (ks[i], m[ks[i]]));
    assert forall p :: p in r ==> Selected(m, range, p) by {
      forall p | p in r ensures Selected(m, range, p) {
        var i :| 0 <= i < |r| && r[i] == p;
        assert ks[i] in ks;
      }
    }
    assert forall p :: Selected(m, range, p) ==> p in r by {
      forall p | Selected(m, range, p) ensures p in r {
        assert p.0 in KeysIn(m, range);
        var i :| 0 <= i < |ks| && ks[i] == p.0;
        assert r[i] == p;
      }
    }
    r
  }

  /**
    Backward `scan` (`.rev()` on the double-ended iterator): every stored pair
    within the bounds, greatest key first.
   */
  function ScanMapBack(m: map<Key, Value>, range: Range): (r: seq<(Key, Value)>)
    ensures KeysDescending(r)
    ensures forall p :: p in r <==> Selected(m, range, p)
  {
    var ks := DescendingKeys(KeysIn(m, range));
    assert forall i :: 0 <= i < |ks| ==> ks[i] in KeysIn(m, range);
    var r := seq(|ks|, i requires 0 <= i < |ks| => (ks[i], m[ks[i]]));
    assert forall p :: p in r ==> Selected(m, range, p) by {
      forall p | p in r ensures Selected(m, range, p) {
        var i :| 0 <= i < |r| && r[i] == p;
        assert ks[i] in ks;
      }
    }
    assert forall p :: Selected(m, range, p) ==> p in r by {
      forall p | Selected(m, range, p) ensures p in r {
        assert p.0 in KeysIn(m, range);
        var i :| 0 <= i < |ks| && ks[i] == p.0;
        assert r[i] == p;
      }
    }
    r
  }

  // ----- reversal -----

  function Reverse<T>(s: seq<T>): (r: seq<T>)
    ensures |r| == |s|
    ensures forall i :: 0 <= i < |s| ==> r[i] == s[|s| - 1 - i]
  {
    if s == [] then [] else [s[|s| - 1]] + Reverse(s[..|s| - 1])
  }

  lemma ReverseMembers<T>(s: seq<T>)
    ensures forall x :: x in Reverse(s) <==> x in s
  {
    var r := Reverse(s);
    forall x | x in s ensures x in r {
      var i :| 0 <= i < |s| && s[i] == x;
      assert r[|s| - 1 - i] == x;
    }
  }

  lemma ReverseDescending(s: seq<(Key, Value)>)
    requires KeysDescending(s)
    ensures KeysAscending(Reverse(s))
  {
  }

  // ----- a sorted scan is determined by its members -----

  lemma HeadNotInTail(a: seq<(Key, Value)>)
    requires KeysAscending(a) && a != []
    ensures a[0] !in a[1..]
  {
    if a[0] in a[1..] {
      var k :| 0 <= k < |a| - 1 && a[1..][k] == a[0];
      assert Less(a[0].0, a[k + 1].0);
      LessIrreflexive(a[0].0);
    }
  }

  /** Two ascending pair sequences with the same members are the same sequence. */
  lemma {:induction false} AscendingDetermined(a: seq<(Key, Value)>, b: seq<(Key, Value)>)
    requires KeysAscending(a) && KeysAscending(b)
    requires forall p :: p in a <==> p in b
    ensures a == b
    decreases |a|
  {
    EmptyTogether(a, b);
    if a != [] {
      assert a[0] in a && a[0] in b;
      assert b[0] in b && b[0] in a;
      var j :| 0 <= j < |b| && b[j] == a[0];
      var i :| 0 <= i < |a| && a[i] == b[0];
      if i > 0 && j > 0 {
        LessAsymmetric(a[0].0, b[0].0);
      }
      assert a[0] == b[0];
      HeadNotInTail(a);
      HeadNotInTail(b);
      forall p ensures p in a[1..] <==> p in b[1..] {
        assert p in a[1..] <==> p in a && p != a[0] by {
          assert a == [a[0]] + a[1..];
        }
        assert p in b[1..] <==> p in b && p != b[0] by {
          assert b == [b[0]] + b[1..];
        }
      }
      AscendingDetermined(a[1..], b[1..]);
      assert a == [a[0]] + a[1..] && b == [b[0]] + b[1..];
    }
  }

  lemma EmptyTogether<T>(a: seq<T>, b: seq<T>)
    requires forall p :: p in a <==> p in b
    ensures a == [] <==> b == []
  {
    if a != [] {
      assert a[0] in a;
    }
    if b != [] {
      assert b[0] in b;
    }
  }

  /** A forward scan equals any ascending list holding exactly the in-range pairs. */
  lemma ScanMapIs(m: map<Key, Value>, range: Range, expected: seq<(Key, Value)>)
    requires KeysAscending(expected)
    requires forall p :: p in expected <==> Selected(m, range, p)
    ensures ScanMap(m, range) == expected
  {
    AscendingDetermined(ScanMap(m, range), expected);
  }

  /** The reversal law: scanning backwards yields the forward scan reversed. */
  lemma ScanBackIsReverse(m: map<Key, Value>, range: Range)
    ensures ScanMapBack(m, range) == Reverse(ScanMap(m, range))
  {
    var fwd := ScanMap(m, range);
    var back := ScanMapBack(m, range);
    ReverseDescending(back);
    ReverseMembers(back);
    AscendingDetermined(Reverse(back), fwd);
    assert Reverse(Reverse(back)) == back;
  }

  // ----- the reference store -----

  /** A `Store` whose whole state is the map of its key/value pairs. */
  class MemoryStore {
    var data: map<Key, Value>

    constructor ()
      ensures data == map[]
    {
      data := map[];
    }

    /** `set_or_insert`: sets a value for a key, replacing the existing value if any. */
    method SetOrInsert(key: Key, value: Value)
      modifies this
      ensures data == old(data)[key := value]
      ensures Get(key) == Some(value)
      ensures forall k :: k != key ==> Get(k) == old(Get(k))
    {
      data := data[key := value];
    }

    /** `get`: the value for a key, if it exists. */
    function Get(key: Key): (r: Option<Value>)
      reads this
      ensures r.Some? <==> key in data
      ensures r.Some? ==> r.value == data[key]
    {
      Lookup(data, key)
    }

    /** `delete`: removes a key, doing nothing if it does not exist. */
    method Delete(key: Key)
      modifies this
      ensures data == old(data) - {key}
      ensures Get(key) == None
      ensures forall k :: k != key ==> Get(k) == old(Get(k))
      ensures key !in old(data) ==> data == old(data)
    {
      data := data - {key};
    }

    /** `scan`, consumed forwards. */
    function Scan(range: Range): (r: seq<(Key, Value)>)
      reads this
      ensures KeysAscending(r)
      ensures forall p :: p in r <==> Selected(data, range, p)
    {
      ScanMap(data, range)
    }

    /** `scan`, consumed backwards. */
    function ScanBack(range: Range): (r: seq<(Key, Value)>)
      reads this
      ensures KeysDescending(r)
      ensures forall p :: p in r <==> Selected(data, range, p)
      ensures r == Reverse(Scan(range))
    {
      ScanBackIsReverse(data, range);
      ScanMapBack(data, range)
    }

    /** `flush`: durability is not modelled, so the logical contents stay as they are. */
    method Flush()
      modifies this
      ensures data == old(data)
    {
    }
  }

}
