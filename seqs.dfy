/** Sequence helpers shared by the card parser and the hand detectors
    (list slicing, list comprehensions with a filter, and the key order of
    an insertion-ordered dictionary). */
module Seqs {

  /** How many times x occurs in s. */
  function Occ<T(==)>(s: seq<T>, x: T): nat
  {
    multiset(s)[x]
  }

  predicate NonIncreasing(s: seq<int>)
  {
    forall i, j :: 0 <= i < j < |s| ==> s[i] >= s[j]
  }

  predicate Decreasing(s: seq<int>)
  {
    forall i, j :: 0 <= i < j < |s| ==> s[i] > s[j]
  }

  /** The first k elements of s, or all of s when it is shorter. */
  function Take<T>(s: seq<T>, k: nat): seq<T>
  {
    if k < |s| then s[..k] else s
  }

  /** The elements of s that are not in ex, in their order. */
  function Outside<T(==)>(s: seq<T>, ex: seq<T>): seq<T>
  {
    if s == [] then [] else (if s[0] in ex then [] else [s[0]]) + Outside(s[1..], ex)
  }

  /** The distinct elements of s in order of first appearance: the key order of an
      insertion-ordered dictionary filled from s. */
  function Distinct<T(==)>(s: seq<T>): seq<T>
  {
    if s == [] then [] else [s[0]] + Outside(Distinct(s[1..]), [s[0]])
  }

  /** t holds the k largest elements of pool (all of them if there are fewer),
      largest first. */
  predicate TopOf(t: seq<int>, pool: multiset<int>, k: nat)
  {
    && |t| == (if k < |pool| then k else |pool|)
    && NonIncreasing(t)
    && multiset(t) <= pool
    && forall x, y :: x in pool - multiset(t) && y in t ==> x <= y
  }

  lemma {:induction false} OutsideAppend<T>(a: seq<T>, b: seq<T>, ex: seq<T>)
    ensures Outside(a + b, ex) == Outside(a, ex) + Outside(b, ex)
  {
    if a == [] {
      assert a + b == b;
    } else {
      assert (a + b)[0] == a[0];
      assert (a + b)[1..] == a[1..] + b;
      OutsideAppend(a[1..], b, ex);
    }
  }

  lemma {:induction false} OutsideMembers<T>(s: seq<T>, ex: seq<T>)
    ensures forall x :: x in Outside(s, ex) <==> x in s && x !in ex
  {
    if s != [] {
      OutsideMembers(s[1..], ex);
      assert s == [s[0]] + s[1..];
    }
  }

  lemma {:induction false} OutsideOcc<T>(s: seq<T>, ex: seq<T>, x: T)
    ensures Occ(Outside(s, ex), x) == if x in ex then 0 else Occ(s, x)
  {
    if s != [] {
      OutsideOcc(s[1..], ex, x);
      assert s == [s[0]] + s[1..];
    }
  }

  /** Removing the occurrences of two distinct values shortens s by their counts. */
  lemma {:induction false} OutsidePairLength<T>(s: seq<T>, a: T, b: T)
    requires a != b
    ensures |Outside(s, [a, b])| == |s| - Occ(s, a) - Occ(s, b)
  {
    if s != [] {
      OutsidePairLength(s[1..], a, b);
      assert s == [s[0]] + s[1..];
    }
  }

  lemma ConsNonIncreasing(x: int, t: seq<int>)
    requires NonIncreasing(t) && forall y :: y in t ==> y <= x
    ensures NonIncreasing([x] + t)
  {
    forall i, j | 0 <= i < j < |[x] + t| ensures ([x] + t)[i] >= ([x] + t)[j] {
      assert ([x] + t)[j] == t[j - 1] && t[j - 1] in t;
      if i > 0 { assert ([x] + t)[i] == t[i - 1]; } else { assert ([x] + t)[i] == x; }
    }
  }

  lemma ConsDecreasing(x: int, t: seq<int>)
    requires Decreasing(t) && forall y :: y in t ==> y < x
    ensures Decreasing([x] + t)
  {
    forall i, j | 0 <= i < j < |[x] + t| ensures ([x] + t)[i] > ([x] + t)[j] {
      assert ([x] + t)[j] == t[j - 1] && t[j - 1] in t;
      if i > 0 { assert ([x] + t)[i] == t[i - 1]; } else { assert ([x] + t)[i] == x; }
    }
  }

  lemma {:induction false} OutsideNonIncreasing(s: seq<int>, ex: seq<int>)
    requires NonIncreasing(s)
    ensures NonIncreasing(Outside(s, ex))
  {
    if s != [] {
      OutsideNonIncreasing(s[1..], ex);
      OutsideMembers(s[1..], ex);
      var rest := Outside(s[1..], ex);
      forall y | y in rest ensures y <= s[0] {
        var j :| 0 <= j < |s[1..]| && s[1..][j] == y;
        assert s[j + 1] == y;
      }
      if s[0] !in ex { ConsNonIncreasing(s[0], rest); }
    }
  }

  lemma {:induction false} OutsideDecreasing(s: seq<int>, ex: seq<int>)
    requires Decreasing(s)
    ensures Decreasing(Outside(s, ex))
  {
    if s != [] {
      OutsideDecreasing(s[1..], ex);
      OutsideMembers(s[1..], ex);
      var rest := Outside(s[1..], ex);
      forall y | y in rest ensures y < s[0] {
        var j :| 0 <= j < |s[1..]| && s[1..][j] == y;
        assert s[j + 1] == y;
      }
      if s[0] !in ex { ConsDecreasing(s[0], rest); }
    }
  }

  lemma {:induction false} DistinctMembers<T>(s: seq<T>)
    ensures forall x :: x in Distinct(s) <==> x in s
  {
    if s != [] {
      DistinctMembers(s[1..]);
      OutsideMembers(Distinct(s[1..]), [s[0]]);
      assert s == [s[0]] + s[1..];
    }
  }

  /** Adding an element at the end adds a key only when it is new. */
  lemma {:induction false} DistinctSnoc<T>(s: seq<T>, x: T)
    ensures Distinct(s + [x]) == if x in s then Distinct(s) else Distinct(s) + [x]
  {
    if s == [] {
      assert [x][1..] == [];
    } else {
      assert (s + [x])[1..] == s[1..] + [x];
      assert s == [s[0]] + s[1..];
      DistinctSnoc(s[1..], x);
      if x in s[1..] {
      } else {
        OutsideAppend(Distinct(s[1..]), [x], [s[0]]);
      }
    }
  }

  /** The keys of a dictionary filled from a non-increasing sequence come out strictly decreasing. */
  lemma {:induction false} DistinctDecreasing(s: seq<int>)
    requires NonIncreasing(s)
    ensures Decreasing(Distinct(s))
  {
    if s != [] {
      DistinctDecreasing(s[1..]);
      OutsideDecreasing(Distinct(s[1..]), [s[0]]);
      DistinctMembers(s[1..]);
      OutsideMembers(Distinct(s[1..]), [s[0]]);
      var rest := Outside(Distinct(s[1..]), [s[0]]);
      forall y | y in rest ensures y < s[0] {
        var j :| 0 <= j < |s[1..]| && s[1..][j] == y;
        assert y != s[0];
        assert s[j + 1] == y;
      }
      ConsDecreasing(s[0], rest);
    }
  }

  /** Slicing off the first k elements of a non-increasing sequence keeps its k largest. */
  lemma TakeTop(s: seq<int>, k: nat)
    requires NonIncreasing(s)
    ensures TopOf(Take(s, k), multiset(s), k)
  {
    var n := if k < |s| then k else |s|;
    var t := s[..n];
    assert Take(s, k) == t;
    assert s == t + s[n..];
    assert multiset(s) == multiset(t) + multiset(s[n..]);
    assert multiset(s) - multiset(t) == multiset(s[n..]);
    forall x, y | x in multiset(s) - multiset(t) && y in t ensures x <= y {
      assert x in s[n..];
      PrefixAbove(s, n, x, y);
    }
  }

  lemma PrefixAbove(s: seq<int>, n: nat, x: int, y: int)
    requires NonIncreasing(s) && n <= |s|
    requires x in s[n..] && y in s[..n]
    ensures x <= y
  {
    var i :| 0 <= i < |s[n..]| && s[n..][i] == x;
    var j :| 0 <= j < n && s[..n][j] == y;
    assert s[n + i] == x && s[j] == y;
  }

  /** Filtering two sequences with the same elements leaves sequences with the same elements. */
  lemma OutsideMultiset<T>(a: seq<T>, b: seq<T>, ex: seq<T>)
    requires multiset(a) == multiset(b)
    ensures multiset(Outside(a, ex)) == multiset(Outside(b, ex))
  {
    forall x ensures Occ(Outside(a, ex), x) == Occ(Outside(b, ex), x) {
      OutsideOcc(a, ex, x);
      OutsideOcc(b, ex, x);
      assert Occ(a, x) == Occ(b, x);
    }
    OccExt(Outside(a, ex), Outside(b, ex));
  }

  lemma OccExt<T>(a: seq<T>, b: seq<T>)
    requires forall x :: Occ(a, x) == Occ(b, x)
    ensures multiset(a) == multiset(b)
  {
    forall x ensures multiset(a)[x] == multiset(b)[x] {
      assert Occ(a, x) == Occ(b, x);
    }
  }

  /** Sequences with the same elements have the same counts. */
  lemma OccSame<T>(a: seq<T>, b: seq<T>)
    requires multiset(a) == multiset(b)
    ensures forall x :: Occ(a, x) == Occ(b, x)
  {
  }

  lemma TakeMembers<T>(s: seq<T>, k: nat)
    ensures forall x :: x in Take(s, k) ==> x in s
  {
    if k < |s| {
      forall x | x in s[..k] ensures x in s {
        var i :| 0 <= i < k && s[..k][i] == x;
        assert s[i] == x;
      }
    }
  }

  /** Adjacent duplicates removed. */
  function Dedup<T(==)>(s: seq<T>): seq<T>
  {
    if |s| <= 1 then s
    else (if s[0] == s[1] then [] else [s[0]]) + Dedup(s[1..])
  }

  lemma {:induction false} DedupMembers<T>(s: seq<T>)
    ensures forall x :: x in Dedup(s) <==> x in s
  {
    if |s| > 1 {
      DedupMembers(s[1..]);
      assert s == [s[0]] + s[1..];
      assert s[1] in s[1..];
    }
  }

  /** Filtering out values that do not occur changes nothing. */
  lemma {:induction false} OutsideNone<T>(s: seq<T>, ex: seq<T>)
    requires forall x :: x in s ==> x !in ex
    ensures Outside(s, ex) == s
  {
    if s != [] {
      assert s[0] in s;
      forall x | x in s[1..] ensures x !in ex {
        assert x in s;
      }
      OutsideNone(s[1..], ex);
      assert s == [s[0]] + s[1..];
    }
  }

  /** On a non-increasing sequence, keeping first appearances is removing adjacent
      duplicates. */
  lemma {:induction false} DistinctDedup(s: seq<int>)
    requires NonIncreasing(s)
    ensures Distinct(s) == Dedup(s)
  {
    if |s| > 1 {
      var t := s[1..];
      assert NonIncreasing(t);
      DistinctDedup(t);
      var d := Dedup(t);
      assert Distinct(s) == [s[0]] + Outside(d, [s[0]]);
      if s[0] == s[1] {
        assert Dedup(s) == d;
        DedupAgain(t);
      } else {
        assert Dedup(s) == [s[0]] + d;
        TailBelow(s);
        DedupMembers(t);
        OutsideNone(d, [s[0]]);
      }
    }
  }

  lemma TailBelow(s: seq<int>)
    requires NonIncreasing(s) && |s| > 1 && s[0] != s[1]
    ensures forall x :: x in s[1..] ==> x !in [s[0]]
  {
    forall x | x in s[1..] ensures x < s[0] {
      var j :| 0 <= j < |s[1..]| && s[1..][j] == x;
      assert s[j + 1] == x;
    }
  }

  /** Keys that start with x do not contain x again: filtering x out of them and
      putting it back in front gives them back. */
  lemma DedupAgain(t: seq<int>)
    requires t != []
    ensures [t[0]] + Outside(Distinct(t), [t[0]]) == Distinct(t)
  {
    var h := t[0];
    var rest := Outside(Distinct(t[1..]), [h]);
    assert Distinct(t) == [h] + rest;
    OutsideAppend([h], rest, [h]);
    assert Outside([h], [h]) == [] by {
      assert [h][1..] == [];
    }
    OutsideMembers(Distinct(t[1..]), [h]);
    OutsideNone(rest, [h]);
    assert Outside([h] + rest, [h]) == rest;
  }


}
