/** parse_and_count_cards: the parsed cards together with an insertion-ordered
    rank -> count dictionary filled by one pass over them, and the two ways
    the detectors scan that dictionary. */
module Counting {
  import opened Seqs
  import opened Cards

  /** keys and count hold the insertion-ordered dictionary of counts filled from s. */
  ghost predicate CountsOf(keys: seq<int>, count: map<int, nat>, s: seq<int>)
  {
    && keys == Distinct(s)
    && (forall r :: r in count <==> r in s)
    && (forall r :: r in count ==> count[r] == Occ(s, r))
  }

  /** Counting a value already seen: its count goes up by one. */
  lemma CountAgain(keys: seq<int>, count: map<int, nat>, s: seq<int>, r: int)
    requires CountsOf(keys, count, s) && r in count
    ensures CountsOf(keys, count[r := count[r] + 1], s + [r])
  {
    DistinctSnoc(s, r);
    var c := count[r := count[r] + 1];
    assert multiset(s + [r]) == multiset(s) + multiset{r};
    forall x ensures x in c <==> x in s + [r] {
      assert x in s + [r] <==> x in s || x == r;
    }
    forall x | x in c ensures c[x] == Occ(s + [r], x) {
      assert Occ(s + [r], x) == Occ(s, x) + (if x == r then 1 else 0);
    }
  }

  /** Counting a new value: a new key r with count 1. */
  lemma CountNew(keys: seq<int>, count: map<int, nat>, s: seq<int>, r: int)
    requires CountsOf(keys, count, s) && r !in count
    ensures CountsOf(keys + [r], count[r := 1], s + [r])
  {
    DistinctSnoc(s, r);
    var c := count[r := 1];
    assert multiset(s + [r]) == multiset(s) + multiset{r};
    forall x ensures x in c <==> x in s + [r] {
      assert x in s + [r] <==> x in s || x == r;
    }
    forall x | x in c ensures c[x] == Occ(s + [r], x) {
      assert Occ(s + [r], x) == Occ(s, x) + (if x == r then 1 else 0);
    }
  }

  lemma CountsDone(keys: seq<int>, count: map<int, nat>, rs: seq<int>)
    requires CountsOf(keys, count, rs[..|rs|])
    requires NonIncreasing(rs)
    ensures keys == Distinct(rs) && Decreasing(keys)
    ensures forall r :: r in count <==> r in keys
    ensures forall r :: r in count ==> count[r] == Occ(rs, r)
  {
    assert rs[..|rs|] == rs;
    DistinctMembers(rs);
    DistinctDecreasing(rs);
  }

  /** The dictionary is returned as its key order and its key -> count map.
      Since the pass runs over the sorted cards, the keys come out in
      strictly decreasing rank order. */
  method ParseAndCount(cards: seq<Card>) returns (pc: seq<Card>, keys: seq<int>, count: map<int, nat>)
    ensures pc == SortByRank(cards)
    ensures keys == Distinct(Ranks(pc)) && Decreasing(keys)
    ensures forall r :: r in count <==> r in keys
    ensures forall r :: r in count ==> count[r] == Occ(Ranks(pc), r)
  {
    pc := SortByRank(cards);
    ghost var rs := Ranks(pc);
    keys, count := [], map[];
    for i := 0 to |pc|
      invariant CountsOf(keys, count, rs[..i])
    {
      var r := pc[i].rank as int;
      assert rs[..i + 1] == rs[..i] + [r];
      if r in count {
        CountAgain(keys, count, rs[..i], r);
        count := count[r := count[r] + 1];
      } else {
        CountNew(keys, count, rs[..i], r);
        count := count[r := 1];
        keys := keys + [r];
      }
    }
    SortedRanks(cards);
    CountsDone(keys, count, rs);
  }

  /** The first key that occurs at least n times in s. */
  function FirstAtLeast<T(==)>(keys: seq<T>, s: seq<T>, n: int): (r: Option<T>)
    ensures r.None? <==> forall j :: 0 <= j < |keys| ==> Occ(s, keys[j]) < n
    ensures r.Some? ==> exists i :: 0 <= i < |keys| && keys[i] == r.value && Occ(s, keys[i]) >= n
                                   && forall j :: 0 <= j < i ==> Occ(s, keys[j]) < n
  {
    if keys == [] then None
    else if Occ(s, keys[0]) >= n then Some(keys[0])
    else
      var r := FirstAtLeast(keys[1..], s, n);
      assert r.Some? ==> exists i :: 1 <= i < |keys| && keys[i] == r.value && Occ(s, keys[i]) >= n
                                     && forall j :: 0 <= j < i ==> Occ(s, keys[j]) < n by {
        if r.Some? {
          var i :| 0 <= i < |keys[1..]| && keys[1..][i] == r.value && Occ(s, keys[1..][i]) >= n
                   && forall j :: 0 <= j < i ==> Occ(s, keys[1..][j]) < n;
          assert keys[i + 1] == r.value;
          forall j | 0 <= j < i + 1 ensures Occ(s, keys[j]) < n {
            if j > 0 { assert keys[j] == keys[1..][j - 1]; }
          }
        }
      }
      r
  }

  /** Over keys in decreasing order that cover s, the first key occurring at least
      n times is the highest such value. */
  lemma FirstAtLeastHighest(keys: seq<int>, s: seq<int>, n: int)
    requires Decreasing(keys) && n >= 1
    requires forall x :: x in s ==> x in keys
    ensures FirstAtLeast(keys, s, n).None? <==> forall x :: Occ(s, x) < n
    ensures FirstAtLeast(keys, s, n).Some? ==>
              var k := FirstAtLeast(keys, s, n).value;
              Occ(s, k) >= n && forall x :: Occ(s, x) >= n ==> x <= k
  {
    var r := FirstAtLeast(keys, s, n);
    if r.None? {
      forall x ensures Occ(s, x) < n {
        if x in s {
          assert x in keys;
          var j :| 0 <= j < |keys| && keys[j] == x;
        }
      }
    } else {
      var i :| 0 <= i < |keys| && keys[i] == r.value && Occ(s, keys[i]) >= n
               && forall j :: 0 <= j < i ==> Occ(s, keys[j]) < n;
      forall x | Occ(s, x) >= n ensures x <= r.value {
        assert x in multiset(s);
        assert x in keys;
        var j :| 0 <= j < |keys| && keys[j] == x;
        assert j >= i;
      }
    }
  }

  /** The keys that occur exactly c times in s, in key order. */
  function WithCount(keys: seq<int>, s: seq<int>, c: int): seq<int>
  {
    if keys == [] then [] else (if Occ(s, keys[0]) == c then [keys[0]] else []) + WithCount(keys[1..], s, c)
  }

  lemma {:induction false} WithCountAppend(a: seq<int>, b: seq<int>, s: seq<int>, c: int)
    ensures WithCount(a + b, s, c) == WithCount(a, s, c) + WithCount(b, s, c)
  {
    if a == [] {
      assert a + b == b;
    } else {
      var h := if Occ(s, a[0]) == c then [a[0]] else [];
      assert (a + b)[0] == a[0] && (a + b)[1..] == a[1..] + b;
      assert WithCount(a + b, s, c) == h + WithCount(a[1..] + b, s, c);
      WithCountAppend(a[1..], b, s, c);
      assert WithCount(a, s, c) == h + WithCount(a[1..], s, c);
    }
  }

  lemma {:induction false} WithCountMembers(keys: seq<int>, s: seq<int>, c: int)
    ensures forall x :: x in WithCount(keys, s, c) <==> x in keys && Occ(s, x) == c
  {
    if keys != [] {
      WithCountMembers(keys[1..], s, c);
      assert keys == [keys[0]] + keys[1..];
    }
  }

  lemma {:induction false} WithCountDecreasing(keys: seq<int>, s: seq<int>, c: int)
    requires Decreasing(keys)
    ensures Decreasing(WithCount(keys, s, c))
  {
    if keys != [] {
      WithCountDecreasing(keys[1..], s, c);
      WithCountMembers(keys[1..], s, c);
      var rest := WithCount(keys[1..], s, c);
      forall y | y in rest ensures y < keys[0] {
        var j :| 0 <= j < |keys[1..]| && keys[1..][j] == y;
        assert keys[j + 1] == y;
      }
      if Occ(s, keys[0]) == c { ConsDecreasing(keys[0], rest); }
    }
  }

  /** Over keys in decreasing order that cover s, the keys occurring exactly c times
      are all such values, highest first. */
  lemma WithCountHighest(keys: seq<int>, s: seq<int>, c: int)
    requires Decreasing(keys) && c >= 1
    requires forall x :: x in s ==> x in keys
    ensures Decreasing(WithCount(keys, s, c))
    ensures forall x :: x in WithCount(keys, s, c) <==> Occ(s, x) == c
  {
    WithCountDecreasing(keys, s, c);
    WithCountMembers(keys, s, c);
    forall x | Occ(s, x) == c ensures x in keys {
      assert x in multiset(s);
      assert x in s;
    }
  }

  /** The key a scan stopping at the first key with at least n occurrences finds. */
  lemma {:induction false} FirstAtLeastAt<T>(keys: seq<T>, s: seq<T>, n: int, i: nat)
    requires i < |keys| && Occ(s, keys[i]) >= n
    requires forall j :: 0 <= j < i ==> Occ(s, keys[j]) < n
    ensures FirstAtLeast(keys, s, n) == Some(keys[i])
  {
    if i > 0 {
      assert Occ(s, keys[0]) < n;
      forall j | 0 <= j < i - 1 ensures Occ(s, keys[1..][j]) < n {
        assert keys[1..][j] == keys[j + 1];
      }
      FirstAtLeastAt(keys[1..], s, n, i - 1);
    }
  }

  lemma FirstAtLeastNone<T>(keys: seq<T>, s: seq<T>, n: int)
    requires forall j :: 0 <= j < |keys| ==> Occ(s, keys[j]) < n
    ensures FirstAtLeast(keys, s, n) == None
  {
  }

  /** The first element, if any. */
  function Head(s: seq<int>): (r: Option<int>)
    ensures r.None? <==> s == []
    ensures r.Some? ==> r.value == s[0]
  {
    if s == [] then None else Some(s[0])
  }

  lemma HeadAppend(a: seq<int>, b: seq<int>)
    ensures Head(a + b) == if a == [] then Head(b) else Head(a)
  {
    if a == [] { assert a + b == b; } else { assert (a + b)[0] == a[0]; }
  }
}
