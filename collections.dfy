/** The array idioms the store is built from, over a key function that reads
    a record's id: `find` by id, `map` that merges into the records with an id,
    and `filter` that drops them. */
module Collections {
  import opened Types

  /** Index of the first record whose key is `id` (`findIndex`), if any. */
  function FirstIndex<T>(s: seq<T>, key: T -> string, id: string): (r: Option<nat>)
    ensures r.Some? ==> r.value < |s| && key(s[r.value]) == id
    ensures r.Some? ==> forall j :: 0 <= j < r.value ==> key(s[j]) != id
    ensures r.None? <==> forall j :: 0 <= j < |s| ==> key(s[j]) != id
    decreases |s|
  {
    if s == [] then None
    else if key(s[0]) == id then Some(0)
    else match FirstIndex(s[1..], key, id)
      case None => None
      case Some(k) => Some(k + 1)
  }

  /** `find`: the first record whose key is `id`. */
  function FindFirst<T>(s: seq<T>, key: T -> string, id: string): (r: Option<T>)
    ensures r.Some? <==> exists j :: 0 <= j < |s| && key(s[j]) == id
    ensures r.Some? ==> r.value in s && key(r.value) == id
  {
    match FirstIndex(s, key, id)
    case None => None
    case Some(k) => Some(s[k])
  }

  /** `s.map(x => key(x) === id ? f(x) : x)`. */
  function MapWhere<T>(s: seq<T>, key: T -> string, id: string, f: T -> T): (r: seq<T>)
    ensures |r| == |s|
  {
    seq(|s|, i requires 0 <= i < |s| => if key(s[i]) == id then f(s[i]) else s[i])
  }

  /** `s.filter(x => key(x) !== id)`. */
  function FilterOut<T>(s: seq<T>, key: T -> string, id: string): (r: seq<T>)
    ensures |r| <= |s|
    ensures forall x :: x in r ==> x in s && key(x) != id
    decreases |s|
  {
    if s == [] then []
    else if key(s[0]) == id then FilterOut(s[1..], key, id)
    else [s[0]] + FilterOut(s[1..], key, id)
  }

  /** A merge by id keeps every position: the records with the id are
      replaced by their merge, every other record is left as it was. */
  lemma MapWhereKeepsPositions<T>(s: seq<T>, key: T -> string, id: string, f: T -> T, i: int)
    requires 0 <= i < |s|
    ensures key(s[i]) == id ==> MapWhere(s, key, id, f)[i] == f(s[i])
    ensures key(s[i]) != id ==> MapWhere(s, key, id, f)[i] == s[i]
  {
  }

  /** A merge by an id no record carries changes nothing. */
  lemma MapWhereUnknownId<T>(s: seq<T>, key: T -> string, id: string, f: T -> T)
    requires FirstIndex(s, key, id).None?
    ensures MapWhere(s, key, id, f) == s
  {
  }

  /** A merge that does not move a record off the id keeps the first match
      where it was. */
  lemma MapWhereFirstIndex<T>(s: seq<T>, key: T -> string, id: string, f: T -> T)
    requires forall x :: key(x) == id ==> key(f(x)) == id
    ensures FirstIndex(MapWhere(s, key, id, f), key, id) == FirstIndex(s, key, id)
  {
    var r := MapWhere(s, key, id, f);
    assert forall j :: 0 <= j < |s| ==> (key(r[j]) == id <==> key(s[j]) == id);
    match FirstIndex(s, key, id)
    case None =>
    case Some(k) =>
      assert key(r[k]) == id;
  }

  /** After a merge that keeps the id, `find` by that id sees the merge of
      the record it saw before, and still nothing when there was none. */
  lemma MapWhereFindFirst<T>(s: seq<T>, key: T -> string, id: string, f: T -> T)
    requires forall x :: key(x) == id ==> key(f(x)) == id
    ensures FindFirst(MapWhere(s, key, id, f), key, id) ==
      match FindFirst(s, key, id)
      case None => None
      case Some(x) => Some(f(x))
  {
    MapWhereFirstIndex(s, key, id, f);
  }

  /** The distinct elements of `s`, in order of first appearance. */
  function Distinct<T(==,!new)>(s: seq<T>): (r: seq<T>)
    ensures |r| <= |s|
    ensures forall x :: x in r <==> x in s
    ensures forall i, j :: 0 <= i < j < |r| ==> r[i] != r[j]
    decreases |s|
  {
    if s == [] then []
    else
      var prefix := Distinct(s[..|s| - 1]);
      assert forall x :: x in s <==> x in s[..|s| - 1] || x == s[|s| - 1] by {
        assert s == s[..|s| - 1] + [s[|s| - 1]];
      }
      if s[|s| - 1] in prefix then prefix else prefix + [s[|s| - 1]]
  }

  /** The position of the first occurrence of `x` in `s`. */
  function FirstAt<T(==)>(s: seq<T>, x: T): (r: nat)
    requires x in s
    ensures r < |s| && s[r] == x
    ensures forall j :: 0 <= j < r ==> s[j] != x
    decreases |s|
  {
    var p := s[..|s| - 1];
    assert s == p + [s[|s| - 1]];
    if x in p then FirstAt(p, x) else |s| - 1
  }

  /** The distinct elements come in the order of their first appearance. */
  lemma {:induction false} DistinctInFirstAppearanceOrder<T(!new)>(s: seq<T>, k: int, l: int)
    requires 0 <= k < l < |Distinct(s)|
    ensures FirstAt(s, Distinct(s)[k]) < FirstAt(s, Distinct(s)[l])
    decreases |s|
  {
    var p := s[..|s| - 1];
    var x := s[|s| - 1];
    var dp := Distinct(p);
    assert s == p + [x];
    assert forall y :: y in p ==> FirstAt(s, y) == FirstAt(p, y) by {
      assert s[..|s| - 1] == p;
    }
    if x in dp {
      DistinctInFirstAppearanceOrder(p, k, l);
    } else if l < |dp| {
      DistinctInFirstAppearanceOrder(p, k, l);
    } else {
      assert Distinct(s)[k] == dp[k] && dp[k] in p;
      assert x !in p;
      assert FirstAt(s, Distinct(s)[k]) == FirstAt(p, dp[k]) < |p|;
    }
  }

  /** `s.filter(p)`: the elements `p` accepts, in order. */
  function Filter<T(==,!new)>(s: seq<T>, p: T -> bool): (r: seq<T>)
    ensures |r| <= |s|
    ensures forall x :: x in r <==> x in s && p(x)
    decreases |s|
  {
    if s == [] then []
    else
      var q := s[..|s| - 1];
      var x := s[|s| - 1];
      assert s == q + [x];
      Filter(q, p) + (if p(x) then [x] else [])
  }

  /** Filtering a concatenation filters each part, so the kept elements stay
      in order. */
  lemma {:induction false} FilterAppend<T(!new)>(a: seq<T>, b: seq<T>, p: T -> bool)
    ensures Filter(a + b, p) == Filter(a, p) + Filter(b, p)
    decreases |b|
  {
    if b == [] {
      assert a + b == a;
    } else {
      var b' := b[..|b| - 1];
      assert (a + b)[..|a + b| - 1] == a + b';
      assert (a + b)[|a + b| - 1] == b[|b| - 1];
      FilterAppend(a, b', p);
    }
  }

  /** A sequence without repeats is its own distinct elements. */
  lemma {:induction false} DistinctOfDistinct<T(!new)>(s: seq<T>)
    requires forall i, j :: 0 <= i < j < |s| ==> s[i] != s[j]
    ensures Distinct(s) == s
    decreases |s|
  {
    if s != [] {
      var p := s[..|s| - 1];
      DistinctOfDistinct(p);
      assert s[|s| - 1] !in p by {
        forall i | 0 <= i < |p| ensures p[i] != s[|s| - 1] {
          assert p[i] == s[i];
        }
      }
      assert p + [s[|s| - 1]] == s;
    }
  }

  /** `s.filter(p).length`. */
  function Count<T>(s: seq<T>, p: T -> bool): (n: nat)
    ensures n <= |s|
    ensures n == 0 <==> forall i :: 0 <= i < |s| ==> !p(s[i])
    ensures n == |s| <==> forall i :: 0 <= i < |s| ==> p(s[i])
    decreases |s|
  {
    if s == [] then 0
    else
      var q := s[..|s| - 1];
      assert forall i :: 0 <= i < |q| ==> q[i] == s[i];
      Count(q, p) + (if p(s[|s| - 1]) then 1 else 0)
  }

  /** `s.flatMap(f)`: the pieces `f` gives of each element, in order. */
  function FlatMap<T, U>(s: seq<T>, f: T -> seq<U>): seq<U>
    decreases |s|
  {
    if s == [] then [] else FlatMap(s[..|s| - 1], f) + f(s[|s| - 1])
  }

  /** Flattening a concatenation flattens each part. */
  lemma {:induction false} FlatMapAppend<T, U>(a: seq<T>, b: seq<T>, f: T -> seq<U>)
    ensures FlatMap(a + b, f) == FlatMap(a, f) + FlatMap(b, f)
    decreases |b|
  {
    if b == [] {
      assert a + b == a;
    } else {
      var b', x := b[..|b| - 1], b[|b| - 1];
      assert (a + b)[..|a + b| - 1] == a + b';
      assert (a + b)[|a + b| - 1] == x;
      FlatMapAppend(a, b', f);
      var fa, fb, fx := FlatMap(a, f), FlatMap(b', f), f(x);
      assert (fa + fb) + fx == fa + (fb + fx);
    }
  }

  /** The results `f` gives, in order, of the elements it accepts. */
  function FilterMap<T, U>(s: seq<T>, f: T -> Option<U>): (r: seq<U>)
    ensures |r| <= |s|
    decreases |s|
  {
    if s == [] then []
    else
      var rest := FilterMap(s[..|s| - 1], f);
      match f(s[|s| - 1])
      case None => rest
      case Some(y) => rest + [y]
  }

  /** A result is kept exactly when some element gives it. */
  lemma {:induction false} FilterMapMembership<T, U>(s: seq<T>, f: T -> Option<U>, y: U)
    ensures y in FilterMap(s, f) <==> exists i :: 0 <= i < |s| && f(s[i]) == Some(y)
    decreases |s|
  {
    if s != [] {
      var p := s[..|s| - 1];
      FilterMapMembership(p, f, y);
      if exists i :: 0 <= i < |s| && f(s[i]) == Some(y) {
        var i :| 0 <= i < |s| && f(s[i]) == Some(y);
        if i < |p| {
          assert p[i] == s[i];
        }
      }
      if exists i :: 0 <= i < |p| && f(p[i]) == Some(y) {
        var i :| 0 <= i < |p| && f(p[i]) == Some(y);
        assert s[i] == p[i];
      }
    }
  }

  /** Two elements that both give a result give both, in order. */
  lemma FilterMapPair<T, U>(a: T, b: T, f: T -> Option<U>)
    requires f(a).Some? && f(b).Some?
    ensures FilterMap([a, b], f) == [f(a).value, f(b).value]
  {
    var s := [a, b];
    assert s[..1] == [a] && [a][..0] == [];
    assert FilterMap([a], f) == [f(a).value];
  }

  /** Filtering a concatenation filters each part. */
  lemma {:induction false} FilterMapAppend<T, U>(a: seq<T>, b: seq<T>, f: T -> Option<U>)
    ensures FilterMap(a + b, f) == FilterMap(a, f) + FilterMap(b, f)
    decreases |b|
  {
    if b == [] {
      assert a + b == a;
    } else {
      var b' := b[..|b| - 1];
      assert (a + b)[..|a + b| - 1] == a + b';
      assert (a + b)[|a + b| - 1] == b[|b| - 1];
      FilterMapAppend(a, b', f);
    }
  }

  /** Dropping the records with an id keeps exactly the other records. */
  lemma {:induction false} FilterOutMembership<T>(s: seq<T>, key: T -> string, id: string, x: T)
    ensures x in FilterOut(s, key, id) <==> x in s && key(x) != id
    decreases |s|
  {
    if s != [] {
      FilterOutMembership(s[1..], key, id, x);
      assert x in s <==> x == s[0] || x in s[1..];
    }
  }

  /** Dropping an id nobody carries is the identity. */
  lemma {:induction false} FilterOutUnknownId<T>(s: seq<T>, key: T -> string, id: string)
    requires forall j :: 0 <= j < |s| ==> key(s[j]) != id
    ensures FilterOut(s, key, id) == s
    decreases |s|
  {
    if s != [] {
      FilterOutUnknownId(s[1..], key, id);
    }
  }

  /** Dropping is done record by record, so it keeps the order of the rest. */
  lemma {:induction false} FilterOutAppend<T>(a: seq<T>, b: seq<T>, key: T -> string, id: string)
    ensures FilterOut(a + b, key, id) == FilterOut(a, key, id) + FilterOut(b, key, id)
    decreases |a|
  {
    if a == [] {
      assert a + b == b;
    } else {
      assert (a + b)[1..] == a[1..] + b;
      FilterOutAppend(a[1..], b, key, id);
    }
  }

  /** Dropping twice is dropping once. */
  lemma {:induction false} FilterOutIdempotent<T>(s: seq<T>, key: T -> string, id: string)
    ensures FilterOut(FilterOut(s, key, id), key, id) == FilterOut(s, key, id)
    decreases |s|
  {
    if s != [] {
      FilterOutIdempotent(s[1..], key, id);
    }
  }
}
