/**
 The order of ids, and lists sorted by it. A hash map is iterated in an unknown order, so a
 list collected from one is any enumeration of its keys; sorting makes it canonical.
 */
module Ordering {
  import opened Types

  /** Strict lexicographic order. */
  predicate Less(a: string, b: string) {
    b != "" && (a == "" || a[0] < b[0] || (a[0] == b[0] && Less(a[1..], b[1..])))
  }

  /** The first position, if any, at which two strings differ or one of them ends. */
  ghost predicate FirstDifference(a: string, b: string, i: nat) {
    && i <= |a| && i <= |b| && a[..i] == b[..i]
    && (i == |a| || i == |b| || a[i] != b[i])
  }

  /** Less means: at the first difference, the one ends and the other does not, or has the smaller character. */
  lemma {:induction false} LessIsLexicographic(a: string, b: string, i: nat)
    requires FirstDifference(a, b, i)
    ensures Less(a, b) <==> i < |b| && (i == |a| || a[i] < b[i])
  {
    if i > 0 {
      assert a[0] == a[..i][0] == b[0];
      assert a[1..][..i - 1] == a[..i][1..] && b[1..][..i - 1] == b[..i][1..];
      LessIsLexicographic(a[1..], b[1..], i - 1);
    }
  }

  lemma {:induction false} LessIrreflexive(a: string)
    ensures !Less(a, a)
  {
    if a != "" {
      LessIrreflexive(a[1..]);
    }
  }

  lemma {:induction false} LessTransitive(a: string, b: string, c: string)
    requires Less(a, b) && Less(b, c)
    ensures Less(a, c)
  {
    if a != "" && a[0] == b[0] == c[0] {
      LessTransitive(a[1..], b[1..], c[1..]);
    }
  }

  lemma {:induction false} LessTotal(a: string, b: string)
    ensures Less(a, b) || a == b || Less(b, a)
  {
    if a != "" && b != "" && a[0] == b[0] {
      LessTotal(a[1..], b[1..]);
      assert a == [a[0]] + a[1..] && b == [b[0]] + b[1..];
    }
  }

  /** Strictly ascending by key, hence without two equal keys. */
  ghost predicate Ascending<T(!new)>(xs: seq<T>, key: T -> string) {
    forall i, j :: 0 <= i < j < |xs| ==> Less(key(xs[i]), key(xs[j]))
  }

  ghost function Elements<T>(xs: seq<T>): set<T> {
    set x | x in xs
  }

  /** One of the orders in which a hash map's iterator may yield `keys`. */
  ghost predicate Enumerates<T(!new)>(xs: seq<T>, keys: set<T>) {
    && Elements(xs) == keys
    && forall i, j :: 0 <= i < j < |xs| ==> xs[i] != xs[j]
  }

  ghost predicate DistinctKeys<T(!new)>(xs: seq<T>, key: T -> string) {
    forall i, j :: 0 <= i < j < |xs| ==> key(xs[i]) != key(xs[j])
  }

  function Insert<T>(xs: seq<T>, x: T, key: T -> string): (r: seq<T>)
    ensures multiset(r) == multiset(xs) + multiset{x}
  {
    if xs == [] then [x]
    else if Less(key(x), key(xs[0])) then [x] + xs
    else assert xs == [xs[0]] + xs[1..]; [xs[0]] + Insert(xs[1..], x, key)
  }

  /** The sorted list the standard library's sort leaves behind. */
  function SortBy<T>(xs: seq<T>, key: T -> string): (r: seq<T>)
    ensures multiset(r) == multiset(xs)
  {
    if xs == [] then []
    else assert xs == [xs[0]] + xs[1..]; Insert(SortBy(xs[1..], key), xs[0], key)
  }

  lemma {:induction false} InsertAscending<T(!new)>(xs: seq<T>, x: T, key: T -> string)
    requires Ascending(xs, key)
    requires forall y | y in xs :: key(y) != key(x)
    ensures Ascending(Insert(xs, x, key), key)
  {
    if xs == [] {
    } else if Less(key(x), key(xs[0])) {
      forall j | 0 <= j < |xs| ensures Less(key(x), key(xs[j])) {
        if j > 0 {
          LessTransitive(key(x), key(xs[0]), key(xs[j]));
        }
      }
    } else {
      LessTotal(key(x), key(xs[0]));
      InsertAscending(xs[1..], x, key);
      var r := Insert(xs[1..], x, key);
      forall j | 0 <= j < |r| ensures Less(key(xs[0]), key(r[j])) {
        assert r[j] in multiset(r);
        assert r[j] == x || r[j] in xs[1..];
      }
    }
  }

  lemma {:induction false} SortByAscending<T(!new)>(xs: seq<T>, key: T -> string)
    requires DistinctKeys(xs, key)
    ensures Ascending(SortBy(xs, key), key)
    ensures Elements(SortBy(xs, key)) == Elements(xs)
    ensures |SortBy(xs, key)| == |xs|
  {
    var r := SortBy(xs, key);
    assert forall x :: x in r <==> x in multiset(r);
    assert forall x :: x in xs <==> x in multiset(xs);
    assert |multiset(r)| == |r| && |multiset(xs)| == |xs|;
    if xs != [] {
      SortByAscending(xs[1..], key);
      var tail := SortBy(xs[1..], key);
      forall y | y in tail ensures key(y) != key(xs[0]) {
        assert y in Elements(tail);
        var i :| 0 <= i < |xs[1..]| && xs[1..][i] == y;
        assert xs[i + 1] == y;
      }
      InsertAscending(tail, xs[0], key);
    }
  }

  /** An ascending list is determined by its elements. */
  lemma {:induction false} AscendingUnique<T(!new)>(a: seq<T>, b: seq<T>, key: T -> string)
    requires Ascending(a, key) && Ascending(b, key)
    requires forall x :: x in a <==> x in b
    ensures a == b
  {
    assert b != [] ==> b[0] in b;
    if a != [] {
      assert a[0] in b;
      var j :| 0 <= j < |b| && b[j] == a[0];
      assert b[0] in b;
      var i :| 0 <= i < |a| && a[i] == b[0];
      LessIrreflexive(key(a[0]));
      if i > 0 && j > 0 {
        LessTransitive(key(a[0]), key(b[0]), key(a[0]));
      }
      forall x ensures x in a[1..] <==> x in b[1..] {
        HeadNotInTail(a, key);
        HeadNotInTail(b, key);
      }
      AscendingUnique(a[1..], b[1..], key);
    }
  }

  lemma HeadNotInTail<T(!new)>(a: seq<T>, key: T -> string)
    requires a != [] && Ascending(a, key)
    ensures a[0] !in a[1..]
    ensures forall x :: x in a <==> x == a[0] || x in a[1..]
  {
    if a[0] in a[1..] {
      var i :| 0 <= i < |a[1..]| && a[1..][i] == a[0];
      LessIrreflexive(key(a[i + 1]));
    }
  }

  function Self(id: Id): string { id }

  /** The keys of a map in canonical order. */
  ghost function SortedKeys(keys: set<Id>): (r: seq<Id>)
    ensures Elements(r) == keys && |r| == |keys|
    decreases |keys|
  {
    if keys == {} then []
    else
      var k :| k in keys;
      var rest := SortedKeys(keys - {k});
      InsertKeepsElements(rest, k);
      Insert(rest, k, Self)
  }

  lemma {:induction false} SortedKeysAscend(keys: set<Id>)
    ensures Ascending(SortedKeys(keys), Self)
    decreases |keys|
  {
    if keys != {} {
      var k :| k in keys && SortedKeys(keys) == Insert(SortedKeys(keys - {k}), k, Self);
      var rest := SortedKeys(keys - {k});
      SortedKeysAscend(keys - {k});
      forall y | y in rest ensures Self(y) != Self(k) {
        assert y in Elements(rest);
      }
      InsertAscending(rest, k, Self);
    }
  }

  lemma SortedKeysDiffer(keys: set<Id>)
    ensures forall i, j :: 0 <= i < j < |keys| ==> SortedKeys(keys)[i] != SortedKeys(keys)[j]
  {
    SortedKeysAscend(keys);
    var ids := SortedKeys(keys);
    forall i, j | 0 <= i < j < |ids| ensures ids[i] != ids[j] {
      assert Less(Self(ids[i]), Self(ids[j]));
      LessIrreflexive(ids[i]);
    }
  }

  lemma InsertKeepsElements(xs: seq<Id>, x: Id)
    ensures Elements(Insert(xs, x, Self)) == Elements(xs) + {x}
    ensures |Insert(xs, x, Self)| == |xs| + 1
  {
    var r := Insert(xs, x, Self);
    assert forall y :: y in r <==> y in multiset(r);
    assert forall y :: y in xs <==> y in multiset(xs);
    assert |multiset(r)| == |r| && |multiset(xs)| == |xs|;
  }

  /** Whatever order the iterator used, sorting the records of a map gives the canonical list. */
  lemma SortIsCanonical<T(!new)>(
    order: seq<Id>, keys: set<Id>, xs: seq<T>, entry: Id -> T, key: T -> string, want: seq<T>)
    requires Enumerates(order, keys)
    requires |xs| == |order| && forall i :: 0 <= i < |order| ==> xs[i] == entry(order[i])
    requires forall id | id in keys :: key(entry(id)) == id
    requires |want| == |keys| && forall i :: 0 <= i < |keys| ==> want[i] == entry(SortedKeys(keys)[i])
    ensures SortBy(xs, key) == want
  {
    var ids := SortedKeys(keys);
    SortedKeysAscend(keys);
    assert forall i | 0 <= i < |order| :: order[i] in Elements(order);
    assert forall i | 0 <= i < |ids| :: ids[i] in Elements(ids);
    SortByAscending(xs, key);
    var got := SortBy(xs, key);
    assert Ascending(want, key) by {
      forall i, j | 0 <= i < j < |want| ensures Less(key(want[i]), key(want[j])) {
        assert Less(Self(ids[i]), Self(ids[j]));
      }
    }
    forall x ensures x in got <==> x in want {
      assert x in got <==> x in Elements(got);
      if x in got {
        var i :| 0 <= i < |xs| && xs[i] == x;
        assert order[i] in Elements(ids);
        var j :| 0 <= j < |ids| && ids[j] == order[i];
        assert want[j] == x;
      }
      if x in want {
        var j :| 0 <= j < |want| && want[j] == x;
        assert ids[j] in Elements(order);
        var i :| 0 <= i < |order| && order[i] == ids[j];
        assert xs[i] == x;
        assert x in Elements(xs);
      }
    }
    AscendingUnique(got, want, key);
  }

  ghost predicate Mentions<T(!new)>(xs: seq<T>, key: T -> string, id: Id) {
    exists x :: x in xs && key(x) == id
  }

  /** Strictly ascending, with exactly one entry for each of `keys` and no other. */
  ghost predicate Canonical<T(!new)>(xs: seq<T>, key: T -> string, keys: set<Id>) {
    && Ascending(xs, key)
    && (forall id :: id in keys ==> Mentions(xs, key, id))
    && (forall x :: x in xs ==> key(x) in keys)
  }

  lemma SortedListAscends<T(!new)>(keys: set<Id>, xs: seq<T>, key: T -> string)
    requires |xs| == |keys| && forall i :: 0 <= i < |keys| ==> key(xs[i]) == SortedKeys(keys)[i]
    ensures Ascending(xs, key)
  {
    var ids := SortedKeys(keys);
    SortedKeysAscend(keys);
    forall i, j | 0 <= i < j < |xs| ensures Less(key(xs[i]), key(xs[j])) {
      assert Less(Self(ids[i]), Self(ids[j]));
    }
  }

  lemma SortedListIsCanonical<T(!new)>(keys: set<Id>, xs: seq<T>, key: T -> string)
    requires |xs| == |keys| && forall i :: 0 <= i < |keys| ==> key(xs[i]) == SortedKeys(keys)[i]
    ensures Canonical(xs, key, keys)
  {
    var ids := SortedKeys(keys);
    SortedListAscends(keys, xs, key);
    forall id | id in keys ensures Mentions(xs, key, id) {
      assert id in Elements(ids);
      var i :| 0 <= i < |ids| && ids[i] == id;
      assert xs[i] in xs;
    }
    forall x | x in xs ensures key(x) in keys {
      var i :| 0 <= i < |xs| && xs[i] == x;
      assert ids[i] in Elements(ids);
    }
  }

  /** An enumeration of a map's keys has as many entries as the map. */
  lemma {:induction false} EnumerationLength<T(!new)>(xs: seq<T>, keys: set<T>)
    requires Enumerates(xs, keys)
    ensures |xs| == |keys|
  {
    if xs == [] {
      assert keys == {};
    } else {
      var rest := xs[..|xs| - 1];
      var last := xs[|xs| - 1];
      assert xs == rest + [last];
      assert Elements(rest) == keys - {last} by {
        assert Elements(xs) == Elements(rest) + {last};
        assert last !in rest;
      }
      EnumerationLength(rest, keys - {last});
    }
  }
}
