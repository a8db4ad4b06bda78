/** Sequence helpers shared by the game rules: order-preserving filtering,
    JavaScript's `slice(0, n)`, and shuffling driven by injected random draws.

    The game shuffles with `sort(() => Math.random() - 0.5)`. The only thing the
    rules rely on is that the result is SOME permutation of the input, so a
    shuffle here is a total function of a sequence of draws: the k-th draw picks
    (modulo the number left) which remaining element comes next.
    `ShuffleReaches` proves that every permutation arises this way. */
module Choice {
  import opened GameTypes

  /** The elements of `s` that `keep` accepts, in their original order. */
  function Filter<T>(s: seq<T>, keep: T -> bool): (r: seq<T>)
    ensures |r| <= |s|
    ensures forall i :: 0 <= i < |r| ==> r[i] in s && keep(r[i])
    ensures multiset(r) <= multiset(s)
  {
    if |s| == 0 then []
    else
      assert s == [s[0]] + s[1..];
      if keep(s[0]) then [s[0]] + Filter(s[1..], keep)
      else Filter(s[1..], keep)
  }

  /** Nothing that passes is dropped. */
  lemma {:induction false} FilterComplete<T>(s: seq<T>, keep: T -> bool)
    ensures forall i :: 0 <= i < |s| && keep(s[i]) ==> s[i] in Filter(s, keep)
  {
    if |s| > 0 {
      FilterComplete(s[1..], keep);
      forall i | 1 <= i < |s| && keep(s[i])
        ensures s[i] in Filter(s, keep)
      {
        assert s[1..][i - 1] == s[i];
      }
    }
  }

  /** Filtering keeps every passing element as often as it occurs, and no other. */
  lemma {:induction false} FilterCount<T>(s: seq<T>, keep: T -> bool, x: T)
    ensures multiset(Filter(s, keep))[x] == if keep(x) then multiset(s)[x] else 0
  {
    if |s| > 0 {
      FilterCount(s[1..], keep, x);
      assert multiset(s) == multiset{s[0]} + multiset(s[1..]) by {
        assert s == [s[0]] + s[1..];
      }
      if keep(s[0]) {
        assert Filter(s, keep) == [s[0]] + Filter(s[1..], keep);
        assert multiset(Filter(s, keep)) == multiset{s[0]} + multiset(Filter(s[1..], keep));
      } else {
        assert Filter(s, keep) == Filter(s[1..], keep);
      }
    }
  }

  /** Filtering distributes over concatenation: kept elements stay in order. */
  lemma {:induction false} FilterAppend<T>(a: seq<T>, b: seq<T>, keep: T -> bool)
    ensures Filter(a + b, keep) == Filter(a, keep) + Filter(b, keep)
  {
    if |a| == 0 {
      assert a + b == b;
    } else {
      assert (a + b)[1..] == a[1..] + b;
      FilterAppend(a[1..], b, keep);
    }
  }

  /** Filtering keeps exactly the elements that pass, and so keeps everything
      when everything passes. */
  lemma {:induction false} FilterAllKept<T>(s: seq<T>, keep: T -> bool)
    requires forall i :: 0 <= i < |s| ==> keep(s[i])
    ensures Filter(s, keep) == s
  {
    if |s| > 0 {
      FilterAllKept(s[1..], keep);
    }
  }

  /** A non-empty sequence is its front followed by its last element. */
  lemma SplitLast<T>(s: seq<T>)
    requires |s| > 0
    ensures s == s[..|s| - 1] + [s[|s| - 1]]
  {
  }

  /** The end index of JavaScript's `s.slice(0, n)` for a sequence of length `len`:
      a negative `n` counts from the end. */
  function SliceEnd(len: nat, n: int): (e: nat)
    ensures e <= len
    ensures n >= 0 ==> e == if n < len then n else len
    ensures n < 0 ==> e == if len + n > 0 then len + n else 0
  {
    if n >= 0 then (if n < len then n else len)
    else if len + n > 0 then len + n else 0
  }

  function Take<T>(s: seq<T>, n: int): (r: seq<T>)
    ensures |r| == SliceEnd(|s|, n)
    ensures r == s[..|r|]
    ensures multiset(r) <= multiset(s)
  {
    var e := SliceEnd(|s|, n);
    assert s == s[..e] + s[e..];
    s[..e]
  }

  /** The draw at position `k`, or 0 when the injected sequence is shorter. */
  function DrawAt(draws: seq<nat>, k: nat): nat
  {
    if k < |draws| then draws[k] else 0
  }

  /** `s` with the element at `i` taken out. */
  function RemoveAt<T>(s: seq<T>, i: nat): (r: seq<T>)
    requires i < |s|
    ensures |r| == |s| - 1
    ensures multiset(r) + multiset{s[i]} == multiset(s)
  {
    assert s == s[..i] + [s[i]] + s[i+1..];
    s[..i] + s[i+1..]
  }

  /** A random reordering of `s`: each draw picks which remaining element comes next. */
  function Shuffle<T>(s: seq<T>, draws: seq<nat>): (r: seq<T>)
    ensures |r| == |s|
    ensures multiset(r) == multiset(s)
    decreases |s|
  {
    if |s| == 0 then []
    else
      var i := DrawAt(draws, 0) % |s|;
      [s[i]] + Shuffle(RemoveAt(s, i), if |draws| > 0 then draws[1..] else [])
  }

  /** A shuffle holds exactly the elements of its input. */
  lemma ShuffleSameMembers<T>(s: seq<T>, draws: seq<nat>)
    ensures forall x :: x in Shuffle(s, draws) <==> x in s
  {
    forall x
      ensures x in Shuffle(s, draws) <==> x in s
    {
      assert x in Shuffle(s, draws) <==> x in multiset(Shuffle(s, draws));
      assert x in s <==> x in multiset(s);
    }
  }

  lemma SmallMod(i: nat, n: nat)
    requires i < n
    ensures i % n == i
  {
  }

  lemma MultisetCancel<T>(a: multiset<T>, b: multiset<T>, x: T)
    requires a + multiset{x} == b + multiset{x}
    ensures a == b
  {
    forall y ensures a[y] == b[y] {
      assert (a + multiset{x})[y] == (b + multiset{x})[y];
    }
  }

  /** Every permutation of `s` is the shuffle of some sequence of draws, so the
      model leaves the random order completely open. */
  lemma {:induction false} ShuffleReaches<T>(s: seq<T>, r: seq<T>) returns (draws: seq<nat>)
    requires multiset(r) == multiset(s)
    ensures Shuffle(s, draws) == r
    decreases |s|
  {
    assert |r| == |multiset(r)| == |multiset(s)| == |s|;
    if |s| == 0 {
      draws := [];
    } else {
      assert r[0] in multiset(s);
      var i :| 0 <= i < |s| && s[i] == r[0];
      var rest := RemoveAt(s, i);
      assert r == [r[0]] + r[1..];
      assert multiset(r[1..]) + multiset{r[0]} == multiset(r);
      MultisetCancel(multiset(r[1..]), multiset(rest), r[0]);
      var tail := ShuffleReaches(rest, r[1..]);
      draws := [i] + tail;
      assert DrawAt(draws, 0) == i;
      SmallMod(i, |s|);
      assert draws[1..] == tail;
      calc {
        Shuffle(s, draws);
        [s[i]] + Shuffle(rest, tail);
        [r[0]] + r[1..];
      }
    }
  }

  /** The position of the last element of `s` that satisfies `p`, if any. */
  function LastWhere<T>(s: seq<T>, p: T -> bool): (r: Option<nat>)
    ensures r.Some? ==> r.value < |s| && p(s[r.value]) && forall j :: r.value < j < |s| ==> !p(s[j])
    ensures r.None? ==> forall j :: 0 <= j < |s| ==> !p(s[j])
    decreases |s|
  {
    if |s| == 0 then None
    else if p(s[|s| - 1]) then Some(|s| - 1)
    else LastWhere(s[..|s| - 1], p)
  }

  /** No two elements of `s` share a key. */
  ghost predicate DistinctBy<T, K>(s: seq<T>, key: T -> K)
  {
    forall i, j :: 0 <= i < j < |s| ==> key(s[i]) != key(s[j])
  }

  lemma {:induction false} FilterKeepsDistinct<T, K>(s: seq<T>, keep: T -> bool, key: T -> K)
    requires DistinctBy(s, key)
    ensures DistinctBy(Filter(s, keep), key)
  {
    if |s| > 0 {
      FilterKeepsDistinct(s[1..], keep, key);
      var tail := Filter(s[1..], keep);
      forall j | 0 <= j < |tail|
        ensures key(s[0]) != key(tail[j])
      {
        assert tail[j] in s[1..];
        var k :| 0 <= k < |s[1..]| && s[1..][k] == tail[j];
        assert s[k + 1] == tail[j];
      }
    }
  }

  /** The keys of `s` strictly increase along the sequence. */
  ghost predicate IncreasingBy<T>(s: seq<T>, key: T -> int)
  {
    forall i, j :: 0 <= i < j < |s| ==> key(s[i]) < key(s[j])
  }

  lemma {:induction false} FilterKeepsIncreasing<T>(s: seq<T>, keep: T -> bool, key: T -> int)
    requires IncreasingBy(s, key)
    ensures IncreasingBy(Filter(s, keep), key)
  {
    if |s| > 0 {
      FilterKeepsIncreasing(s[1..], keep, key);
      var tail := Filter(s[1..], keep);
      forall j | 0 <= j < |tail|
        ensures key(s[0]) < key(tail[j])
      {
        assert tail[j] in s[1..];
        var k :| 0 <= k < |s[1..]| && s[1..][k] == tail[j];
        assert s[k + 1] == tail[j];
      }
    }
  }

  /** Taking an element out keeps the keys distinct, and none of the rest has its key. */
  lemma RemoveAtKeepsDistinct<T, K>(s: seq<T>, i: nat, key: T -> K)
    requires i < |s| && DistinctBy(s, key)
    ensures DistinctBy(RemoveAt(s, i), key)
    ensures forall k :: 0 <= k < |RemoveAt(s, i)| ==> key(RemoveAt(s, i)[k]) != key(s[i])
  {
    var rest := RemoveAt(s, i);
    assert forall k :: 0 <= k < |rest| ==> rest[k] == if k < i then s[k] else s[k + 1];
  }

  /** A shuffle of `rest` keeps every key of `rest` apart from `key(x)`. */
  lemma KeysApart<T, K>(x: T, rest: seq<T>, tail: seq<T>, key: T -> K)
    requires multiset(tail) == multiset(rest)
    requires forall k :: 0 <= k < |rest| ==> key(rest[k]) != key(x)
    ensures forall j :: 0 <= j < |tail| ==> key(x) != key(tail[j])
  {
    forall j | 0 <= j < |tail|
      ensures key(x) != key(tail[j])
    {
      assert tail[j] in multiset(rest);
      var k :| 0 <= k < |rest| && rest[k] == tail[j];
    }
  }

  /** Putting an element with a new key in front keeps the keys distinct. */
  lemma ConsDistinct<T, K>(x: T, tail: seq<T>, key: T -> K)
    requires DistinctBy(tail, key)
    requires forall j :: 0 <= j < |tail| ==> key(x) != key(tail[j])
    ensures DistinctBy([x] + tail, key)
  {
    var r := [x] + tail;
    forall a, b | 0 <= a < b < |r|
      ensures key(r[a]) != key(r[b])
    {
      assert r[b] == tail[b - 1];
      if a > 0 {
        assert r[a] == tail[a - 1];
      }
    }
  }

  lemma {:induction false} ShuffleKeepsDistinct<T, K>(s: seq<T>, draws: seq<nat>, key: T -> K)
    requires DistinctBy(s, key)
    ensures DistinctBy(Shuffle(s, draws), key)
    decreases |s|
  {
    if |s| > 0 {
      var i := DrawAt(draws, 0) % |s|;
      var rest := RemoveAt(s, i);
      var more := if |draws| > 0 then draws[1..] else [];
      RemoveAtKeepsDistinct(s, i, key);
      ShuffleKeepsDistinct(rest, more, key);
      var tail := Shuffle(rest, more);
      KeysApart(s[i], rest, tail, key);
      ConsDistinct(s[i], tail, key);
      assert Shuffle(s, draws) == [s[i]] + tail;
    }
  }
}
