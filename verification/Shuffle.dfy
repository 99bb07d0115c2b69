/** The in-place shuffle used to deal colours and stages, driven by the generator's picks. */
module Shuffle {
  import opened Types

  ghost predicate Distinct<T(!new)>(s: seq<T>) {
    forall i, j :: 0 <= i < j < |s| ==> s[i] != s[j]
  }

  /** One pick per position: at position `i` the generator answers below `i + 1`. */
  predicate ValidPicks(picks: seq<nat>, n: nat) {
    |picks| == n && forall i | 0 <= i < n :: picks[i] <= i
  }

  function Swap<T>(s: seq<T>, i: nat, j: nat): (r: seq<T>)
    requires i < |s| && j < |s|
    ensures |r| == |s|
  {
    s[i := s[j]][j := s[i]]
  }

  /** What is left to do once every position above `i` has been fixed. */
  function ShuffleFrom<T>(s: seq<T>, i: nat, picks: seq<nat>): (r: seq<T>)
    requires ValidPicks(picks, |s|) && (i < |s| || i == 0)
    ensures |r| == |s|
    decreases i
  {
    if i == 0 then s else ShuffleFrom(Swap(s, i, picks[i]), i - 1, picks)
  }

  function Shuffled<T>(s: seq<T>, picks: seq<nat>): (r: seq<T>)
    requires ValidPicks(picks, |s|)
    ensures |r| == |s|
  {
    ShuffleFrom(s, if |s| == 0 then 0 else |s| - 1, picks)
  }

  lemma SwapPermutes<T(!new)>(s: seq<T>, i: nat, j: nat)
    requires i < |s| && j < |s|
    ensures multiset(Swap(s, i, j)) == multiset(s)
    ensures Distinct(s) ==> Distinct(Swap(s, i, j))
  {
  }

  lemma {:induction false} ShuffleFromPermutes<T(!new)>(s: seq<T>, i: nat, picks: seq<nat>)
    requires ValidPicks(picks, |s|) && (i < |s| || i == 0)
    ensures multiset(ShuffleFrom(s, i, picks)) == multiset(s)
    ensures Distinct(s) ==> Distinct(ShuffleFrom(s, i, picks))
    decreases i
  {
    if i > 0 {
      SwapPermutes(s, i, picks[i]);
      ShuffleFromPermutes(Swap(s, i, picks[i]), i - 1, picks);
    }
  }

  /** Whatever the picks, a shuffle only rearranges its input. */
  lemma ShufflePermutes<T(!new)>(s: seq<T>, picks: seq<nat>)
    requires ValidPicks(picks, |s|)
    ensures multiset(Shuffled(s, picks)) == multiset(s)
    ensures Distinct(s) ==> Distinct(Shuffled(s, picks))
    ensures forall x :: x in Shuffled(s, picks) <==> x in s
  {
    ShuffleFromPermutes(s, if |s| == 0 then 0 else |s| - 1, picks);
    assert forall x :: x in Shuffled(s, picks) <==> x in multiset(Shuffled(s, picks));
    assert forall x :: x in s <==> x in multiset(s);
  }

  /** Positions above `i` are never touched again. */
  lemma {:induction false} ShuffleFromFixes<T>(s: seq<T>, i: nat, picks: seq<nat>, k: nat)
    requires ValidPicks(picks, |s|) && (i < |s| || i == 0) && i < k < |s|
    ensures ShuffleFrom(s, i, picks)[k] == s[k]
    decreases i
  {
    if i > 0 {
      ShuffleFromFixes(Swap(s, i, picks[i]), i - 1, picks, k);
    }
  }

  /** Different picks deal differently. */
  lemma {:induction false} ShuffleFromInjective<T(!new)>(s: seq<T>, i: nat, p: seq<nat>, q: seq<nat>, k: nat)
    requires ValidPicks(p, |s|) && ValidPicks(q, |s|) && Distinct(s)
    requires 0 < k <= i < |s| && p[k] != q[k]
    ensures ShuffleFrom(s, i, p) != ShuffleFrom(s, i, q)
    decreases i
  {
    if p[i] != q[i] {
      ShuffleFromFixes(Swap(s, i, p[i]), i - 1, p, i);
      ShuffleFromFixes(Swap(s, i, q[i]), i - 1, q, i);
    } else {
      ShuffleFromInjective(Swap(s, i, p[i]), i - 1, p, q, k);
    }
  }

  /** The shuffle looks only at the picks for the positions it still has to fill. */
  lemma {:induction false} ShuffleFromLocal<T>(s: seq<T>, i: nat, p: seq<nat>, q: seq<nat>)
    requires ValidPicks(p, |s|) && ValidPicks(q, |s|) && (i < |s| || i == 0)
    requires forall k :: 0 < k <= i && k < |s| ==> p[k] == q[k]
    ensures ShuffleFrom(s, i, p) == ShuffleFrom(s, i, q)
    decreases i
  {
    if i > 0 {
      ShuffleFromLocal(Swap(s, i, p[i]), i - 1, p, q);
    }
  }

  /** What belongs at position `i` is still among the positions up to `i`. */
  lemma StillToPlace<T>(s: seq<T>, target: seq<T>, i: nat) returns (j: nat)
    requires multiset(s) == multiset(target) && i < |s| == |target|
    requires s[i + 1..] == target[i + 1..]
    ensures j <= i && s[j] == target[i]
  {
    var open, done := s[..i + 1], s[i + 1..];
    assert s == open + done && target == target[..i + 1] + done;
    SameRest(open, target[..i + 1], done);
    assert target[..i + 1][i] in multiset(target[..i + 1]);
    j :| 0 <= j < |open| && open[j] == target[i];
  }

  lemma SameRest<T>(a: seq<T>, b: seq<T>, rest: seq<T>)
    requires multiset(a + rest) == multiset(b + rest)
    ensures multiset(a) == multiset(b)
  {
    assert multiset(a) + multiset(rest) == multiset(b) + multiset(rest);
    forall x ensures multiset(a)[x] == multiset(b)[x] {
      assert (multiset(a) + multiset(rest))[x] == (multiset(b) + multiset(rest))[x];
    }
  }

  lemma SwapPlaces<T>(s: seq<T>, target: seq<T>, i: nat, j: nat)
    requires j <= i < |s| == |target| && s[j] == target[i] && s[i + 1..] == target[i + 1..]
    ensures Swap(s, i, j)[i..] == target[i..]
  {
    var next := Swap(s, i, j);
    assert next[i + 1..] == s[i + 1..];
    assert next[i..] == [next[i]] + next[i + 1..] && target[i..] == [target[i]] + target[i + 1..];
  }

  lemma {:induction false} ShuffleFromReaches<T(!new)>(s: seq<T>, i: nat, target: seq<T>) returns (picks: seq<nat>)
    requires multiset(s) == multiset(target) && i < |s| == |target|
    requires s[i + 1..] == target[i + 1..]
    ensures ValidPicks(picks, |s|) && ShuffleFrom(s, i, picks) == target
    decreases i
  {
    var j := StillToPlace(s, target, i);
    if i == 0 {
      picks := seq(|s|, _ => 0);
      assert s == [s[0]] + s[1..] && target == [target[0]] + target[1..];
    } else {
      var next := Swap(s, i, j);
      SwapPermutes(s, i, j);
      SwapPlaces(s, target, i, j);
      var rest := ShuffleFromReaches(next, i - 1, target);
      picks := rest[i := j];
      ShuffleFromLocal(next, i - 1, picks, rest);
    }
  }

  /**
   Every arrangement is dealt by exactly one sequence of picks, so uniform and independent picks
   make all arrangements equally likely.
   */
  lemma EachArrangementHasItsPicks<T(!new)>(s: seq<T>, target: seq<T>) returns (picks: seq<nat>)
    requires Distinct(s) && multiset(target) == multiset(s)
    ensures ValidPicks(picks, |s|) && Shuffled(s, picks) == target
    ensures forall q :: ValidPicks(q, |s|) && Shuffled(s, q) == target ==> q == picks
  {
    assert |s| == |multiset(s)| && |target| == |multiset(target)|;
    if s == [] {
      picks := [];
    } else {
      picks := ShuffleFromReaches(s, |s| - 1, target);
      forall q | ValidPicks(q, |s|) && Shuffled(s, q) == target ensures q == picks {
        forall k | 0 <= k < |s| ensures q[k] == picks[k] {
          if k > 0 && q[k] != picks[k] {
            ShuffleFromInjective(s, |s| - 1, q, picks, k);
          }
        }
      }
    }
  }

  /** The library's loop, from the last position down to the second. */
  method ShuffleInPlace<T>(a: array<T>, picks: seq<nat>)
    requires ValidPicks(picks, a.Length)
    modifies a
    ensures a[..] == Shuffled(old(a[..]), picks)
  {
    if a.Length == 0 { return; }
    var i := a.Length - 1;
    while i > 0
      invariant 0 <= i < a.Length
      invariant ShuffleFrom(a[..], i, picks) == Shuffled(old(a[..]), picks)
    {
      ghost var before := a[..];
      var j := picks[i];
      a[i], a[j] := a[j], a[i];
      assert a[..] == Swap(before, i, j);
      i := i - 1;
    }
  }

  /** The array holding 0, 1, .., n - 1. */
  function Range(n: nat): (r: seq<u8>)
    requires n <= 256
    ensures |r| == n && Distinct(r) && forall x :: x in r <==> 0 <= x < n
  {
    var r := seq(n, i requires 0 <= i < n => i as u8);
    CountsUp(n, r);
    r
  }

  lemma CountsUp(n: nat, r: seq<u8>)
    requires |r| == n <= 256 && forall i :: 0 <= i < n ==> r[i] == i
    ensures Distinct(r) && forall x :: x in r <==> 0 <= x < n
  {
    forall x: u8 | x < n ensures x in r {
      assert r[x] == x;
    }
  }
}
