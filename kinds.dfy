/** The detectors that work from rank counts: high card, n of a kind, two pairs
    and full house. Each one takes cards (already decoded, in any order), sorts
    them again as parse_cards does, and returns a tie-break key or None. */
module Kinds {
  import opened Seqs
  import opened Cards
  import opened Counting

  /** find_high_card: the ranks of the (up to) five highest cards, highest first. */
  function HighCard(cards: seq<Card>): (r: seq<int>)
    ensures TopOf(r, multiset(Ranks(cards)), 5)
    ensures cards == [] <==> r == []
  {
    SortedRanks(cards);
    TakeTop(Ranks(SortByRank(cards)), 5);
    Take(Ranks(SortByRank(cards)), 5)
  }

  /** find_n_of_a_kind: the first rank in the count dictionary with at least n
      cards, then the highest ranks of the other cards, at most five in all. */
  function NOfAKind(n: int, cards: seq<Card>): Option<seq<int>>
    requires 2 <= n <= 4
  {
    NOfAKindOf(n, Ranks(SortByRank(cards)))
  }

  /** The same, read off the ranks of the sorted cards. */
  function NOfAKindOf(n: int, rs: seq<int>): Option<seq<int>>
    requires 2 <= n <= 4
  {
    match FirstAtLeast(Distinct(rs), rs, n)
    case None => None
    case Some(k) => Some([k] + Take(Outside(rs, [k]), 5 - n))
  }

  method FindNOfAKind(n: int, cards: seq<Card>) returns (r: Option<seq<int>>)
    requires 2 <= n <= 4
    ensures r == NOfAKind(n, cards)
  {
    var pc, keys, count := ParseAndCount(cards);
    for i := 0 to |keys|
      invariant forall j :: 0 <= j < i ==> Occ(Ranks(pc), keys[j]) < n
    {
      var key := keys[i];
      if count[key] >= n {
        FirstAtLeastAt(keys, Ranks(pc), n, i);
        return Some([key] + Take(Outside(Ranks(pc), [key]), 5 - n));
      }
    }
    return None;
  }

  /** n of a kind is found exactly when some rank has n cards; the key starts with
      the highest such rank and goes on with the highest 5 - n of the other cards. */
  lemma NOfAKindSpec(n: int, cards: seq<Card>)
    requires 2 <= n <= 4
    ensures NOfAKind(n, cards).None? <==> forall r :: Occ(Ranks(cards), r) < n
    ensures NOfAKind(n, cards).Some? ==>
              var v := NOfAKind(n, cards).value;
              && |v| >= 1
              && Occ(Ranks(cards), v[0]) >= n
              && (forall r :: Occ(Ranks(cards), r) >= n ==> r <= v[0])
              && v[0] !in v[1..]
              && TopOf(v[1..], multiset(Outside(Ranks(cards), [v[0]])), 5 - n)
  {
    SortedRanks(cards);
    NOfAKindOfSpec(n, Ranks(SortByRank(cards)), Ranks(cards));
  }

  lemma NOfAKindOfSpec(n: int, rs: seq<int>, ranks: seq<int>)
    requires 2 <= n <= 4
    requires NonIncreasing(rs) && multiset(rs) == multiset(ranks)
    ensures NOfAKindOf(n, rs).None? <==> forall r :: Occ(ranks, r) < n
    ensures NOfAKindOf(n, rs).Some? ==>
              var v := NOfAKindOf(n, rs).value;
              && |v| >= 1
              && Occ(ranks, v[0]) >= n
              && (forall r :: Occ(ranks, r) >= n ==> r <= v[0])
              && v[0] !in v[1..]
              && TopOf(v[1..], multiset(Outside(ranks, [v[0]])), 5 - n)
  {
    OccSame(rs, ranks);
    DistinctMembers(rs);
    DistinctDecreasing(rs);
    FirstAtLeastHighest(Distinct(rs), rs, n);
    if NOfAKindOf(n, rs).Some? {
      NOfAKindKickers(n, rs, ranks);
    }
  }

  lemma NOfAKindKickers(n: int, rs: seq<int>, ranks: seq<int>)
    requires 2 <= n <= 4
    requires NonIncreasing(rs) && multiset(rs) == multiset(ranks)
    requires NOfAKindOf(n, rs).Some?
    ensures var v := NOfAKindOf(n, rs).value;
            && |v| >= 1
            && v[0] == FirstAtLeast(Distinct(rs), rs, n).value
            && v[0] !in v[1..]
            && TopOf(v[1..], multiset(Outside(ranks, [v[0]])), 5 - n)
  {
    var k := FirstAtLeast(Distinct(rs), rs, n).value;
    var v := NOfAKindOf(n, rs).value;
    var rest := Outside(rs, [k]);
    OutsideNonIncreasing(rs, [k]);
    TakeTop(rest, 5 - n);
    OutsideMultiset(rs, ranks, [k]);
    OutsideMembers(rs, [k]);
    assert v[1..] == Take(rest, 5 - n);
    TakeMembers(rest, 5 - n);
  }

  /** find_two_pairs: the first two ranks of the count dictionary with exactly two
      cards, then at most one kicker, the highest card of any other rank. */
  function TwoPairs(cards: seq<Card>): Option<seq<int>>
  {
    TwoPairsOf(Ranks(SortByRank(cards)))
  }

  function TwoPairsOf(rs: seq<int>): Option<seq<int>>
  {
    var pairs := Take(WithCount(Distinct(rs), rs, 2), 2);
    if |pairs| < 2 then None else Some(pairs + Take(Outside(rs, pairs), 1))
  }

  method FindTwoPairs(cards: seq<Card>) returns (r: Option<seq<int>>)
    ensures r == TwoPairs(cards)
  {
    var pc, keys, count := ParseAndCount(cards);
    ghost var rs := Ranks(pc);
    var pairs: seq<int> := [];
    for i := 0 to |keys|
      invariant pairs == WithCount(keys[..i], rs, 2) && |pairs| < 2
    {
      var rank := keys[i];
      WithCountStep(keys, rs, 2, i);
      if count[rank] == 2 {
        pairs := pairs + [rank];
      }
      if |pairs| == 2 {
        TakeWithCount(keys, rs, 2, i + 1);
        break;
      }
    }
    WithCountWhole(keys, rs, 2);
    if |pairs| < 2 {
      return None;
    }
    return Some(pairs + Take(Outside(Ranks(pc), pairs), 1));
  }

  lemma WithCountStep(keys: seq<int>, s: seq<int>, c: int, i: nat)
    requires i < |keys|
    ensures WithCount(keys[..i + 1], s, c) ==
              WithCount(keys[..i], s, c) + (if Occ(s, keys[i]) == c then [keys[i]] else [])
  {
    assert keys[..i + 1] == keys[..i] + [keys[i]];
    WithCountAppend(keys[..i], [keys[i]], s, c);
  }

  /** Stopping the scan once two keys are found does not change the first two. */
  lemma TakeWithCount(keys: seq<int>, s: seq<int>, c: int, i: nat)
    requires i <= |keys| && |WithCount(keys[..i], s, c)| == 2
    ensures Take(WithCount(keys, s, c), 2) == WithCount(keys[..i], s, c)
  {
    assert keys[..i] + keys[i..] == keys;
    WithCountAppend(keys[..i], keys[i..], s, c);
  }

  lemma WithCountWhole(keys: seq<int>, s: seq<int>, c: int)
    ensures WithCount(keys[..|keys|], s, c) == WithCount(keys, s, c)
  {
    assert keys[..|keys|] == keys;
  }

  /** Two pairs are found exactly when two different ranks have exactly two cards
      each; the key holds the two highest such ranks, highest first, then the
      highest remaining card, which is missing only when the hand has four cards. */
  lemma TwoPairsSpec(cards: seq<Card>)
    ensures TwoPairs(cards).None? <==>
              forall a, b :: Occ(Ranks(cards), a) == 2 && Occ(Ranks(cards), b) == 2 ==> a == b
    ensures TwoPairs(cards).Some? ==>
              var v := TwoPairs(cards).value;
              && 2 <= |v| <= 3
              && v[0] > v[1]
              && Occ(Ranks(cards), v[0]) == 2 && Occ(Ranks(cards), v[1]) == 2
              && (forall r :: Occ(Ranks(cards), r) == 2 ==> r == v[0] || r <= v[1])
              && (forall r :: Occ(Ranks(cards), r) == 2 ==> r <= v[0])
              && TopOf(v[2..], multiset(Outside(Ranks(cards), v[..2])), 1)
              && (|v| == 2 <==> |cards| == 4)
  {
    SortedRanks(cards);
    TwoPairsOfSpec(Ranks(SortByRank(cards)), Ranks(cards));
  }

  lemma TwoPairsOfSpec(rs: seq<int>, ranks: seq<int>)
    requires NonIncreasing(rs) && multiset(rs) == multiset(ranks)
    ensures TwoPairsOf(rs).None? <==>
              forall a, b :: Occ(ranks, a) == 2 && Occ(ranks, b) == 2 ==> a == b
    ensures TwoPairsOf(rs).Some? ==>
              var v := TwoPairsOf(rs).value;
              && 2 <= |v| <= 3
              && v[0] > v[1]
              && Occ(ranks, v[0]) == 2 && Occ(ranks, v[1]) == 2
              && (forall r :: Occ(ranks, r) == 2 ==> r == v[0] || r <= v[1])
              && (forall r :: Occ(ranks, r) == 2 ==> r <= v[0])
              && TopOf(v[2..], multiset(Outside(ranks, v[..2])), 1)
              && (|v| == 2 <==> |ranks| == 4)
  {
    OccSame(rs, ranks);
    var w := WithCount(Distinct(rs), rs, 2);
    PairsHighest(rs);
    if |w| < 2 {
      forall a, b | Occ(ranks, a) == 2 && Occ(ranks, b) == 2 ensures a == b {
        assert a in w && b in w;
      }
    } else {
      assert w[0] in w && w[1] in w;
      forall r | Occ(ranks, r) == 2 ensures (r == w[0] || r <= w[1]) && r <= w[0] {
        var j :| 0 <= j < |w| && w[j] == r;
      }
      TwoPairsKicker(rs, ranks);
    }
  }

  /** The ranks with exactly two cards, highest first. */
  lemma PairsHighest(rs: seq<int>)
    requires NonIncreasing(rs)
    ensures Decreasing(WithCount(Distinct(rs), rs, 2))
    ensures forall x :: x in WithCount(Distinct(rs), rs, 2) <==> Occ(rs, x) == 2
  {
    DistinctMembers(rs);
    DistinctDecreasing(rs);
    WithCountHighest(Distinct(rs), rs, 2);
  }

  lemma TwoPairsKicker(rs: seq<int>, ranks: seq<int>)
    requires NonIncreasing(rs) && multiset(rs) == multiset(ranks)
    requires |WithCount(Distinct(rs), rs, 2)| >= 2
    requires Decreasing(WithCount(Distinct(rs), rs, 2))
    ensures TwoPairsOf(rs).Some?
    ensures var v := TwoPairsOf(rs).value;
            var w := WithCount(Distinct(rs), rs, 2);
            && 2 <= |v| <= 3
            && v[0] == w[0] && v[1] == w[1]
            && TopOf(v[2..], multiset(Outside(ranks, v[..2])), 1)
            && (|v| == 2 <==> |ranks| == 4)
  {
    var w := WithCount(Distinct(rs), rs, 2);
    var pairs := w[..2];
    var rest := Outside(rs, pairs);
    var v := TwoPairsOf(rs).value;
    assert Take(w, 2) == pairs;
    assert v == pairs + Take(rest, 1);
    assert v[..2] == pairs && v[2..] == Take(rest, 1);
    KickerTop(rs, ranks, pairs);
    WithCountMembers(Distinct(rs), rs, 2);
    assert w[0] in w && w[1] in w;
    KickerLength(rs, ranks, w[0], w[1]);
    assert pairs == [w[0], w[1]];
  }

  lemma KickerTop(rs: seq<int>, ranks: seq<int>, pairs: seq<int>)
    requires NonIncreasing(rs) && multiset(rs) == multiset(ranks)
    ensures TopOf(Take(Outside(rs, pairs), 1), multiset(Outside(ranks, pairs)), 1)
  {
    OutsideNonIncreasing(rs, pairs);
    TakeTop(Outside(rs, pairs), 1);
    OutsideMultiset(rs, ranks, pairs);
  }

  lemma KickerLength(rs: seq<int>, ranks: seq<int>, a: int, b: int)
    requires multiset(rs) == multiset(ranks) && a != b
    requires Occ(rs, a) == 2 && Occ(rs, b) == 2
    ensures |Take(Outside(rs, [a, b]), 1)| <= 1
    ensures Take(Outside(rs, [a, b]), 1) == [] <==> |ranks| == 4
  {
    OutsidePairLength(rs, a, b);
    assert |rs| == |ranks| by { assert |multiset(rs)| == |multiset(ranks)|; }
  }

  /** The ranks that can serve as the pair of a full house whose triple is t:
      exactly two cards, or exactly three cards and not t itself. */
  function PairCandidates(keys: seq<int>, s: seq<int>, t: int): seq<int>
  {
    if keys == [] then []
    else (if Pairable(s, t, keys[0]) then [keys[0]] else []) + PairCandidates(keys[1..], s, t)
  }

  predicate Pairable(s: seq<int>, t: int, k: int)
  {
    Occ(s, k) == 2 || (Occ(s, k) == 3 && k != t)
  }

  lemma {:induction false} PairCandidatesAppend(a: seq<int>, b: seq<int>, s: seq<int>, t: int)
    ensures PairCandidates(a + b, s, t) == PairCandidates(a, s, t) + PairCandidates(b, s, t)
  {
    if a == [] {
      assert a + b == b;
    } else {
      assert (a + b)[0] == a[0] && (a + b)[1..] == a[1..] + b;
      PairCandidatesAppend(a[1..], b, s, t);
    }
  }

  lemma {:induction false} PairCandidatesMembers(keys: seq<int>, s: seq<int>, t: int)
    ensures forall x :: x in PairCandidates(keys, s, t) <==> x in keys && Pairable(s, t, x)
  {
    if keys != [] {
      PairCandidatesMembers(keys[1..], s, t);
      assert keys == [keys[0]] + keys[1..];
    }
  }

  lemma {:induction false} PairCandidatesDecreasing(keys: seq<int>, s: seq<int>, t: int)
    requires Decreasing(keys)
    ensures Decreasing(PairCandidates(keys, s, t))
  {
    if keys != [] {
      PairCandidatesDecreasing(keys[1..], s, t);
      PairCandidatesMembers(keys[1..], s, t);
      var rest := PairCandidates(keys[1..], s, t);
      forall y | y in rest ensures y < keys[0] {
        var j :| 0 <= j < |keys[1..]| && keys[1..][j] == y;
        assert keys[j + 1] == y;
      }
      ConsDecreasing(keys[0], rest);
    }
  }

  /** find_full_house: the first rank of the count dictionary with exactly three
      cards is the triple; the pair is the first rank after it with two cards or
      with three. */
  function FullHouse(cards: seq<Card>): Option<seq<int>>
  {
    FullHouseOf(Ranks(SortByRank(cards)))
  }

  function FullHouseOf(rs: seq<int>): Option<seq<int>>
  {
    var keys := Distinct(rs);
    match Head(WithCount(keys, rs, 3))
    case None => None
    case Some(t) =>
      match Head(PairCandidates(keys, rs, t))
      case None => None
      case Some(p) => Some([t, p])
  }

  /** One step of the full house scan: the key at i extends the triples and the
      pair candidates seen so far. */
  lemma FullHouseStep(keys: seq<int>, s: seq<int>, t: int, i: nat)
    requires i < |keys|
    ensures WithCount(keys[..i + 1], s, 3) ==
              WithCount(keys[..i], s, 3) + (if Occ(s, keys[i]) == 3 then [keys[i]] else [])
    ensures PairCandidates(keys[..i + 1], s, t) ==
              PairCandidates(keys[..i], s, t) + (if Pairable(s, t, keys[i]) then [keys[i]] else [])
  {
    assert keys[..i + 1] == keys[..i] + [keys[i]];
    WithCountAppend(keys[..i], [keys[i]], s, 3);
    PairCandidatesAppend(keys[..i], [keys[i]], s, t);
  }

  /** A key with three cards is the eventual triple exactly when no earlier key has three. */
  lemma TripleAt(keys: seq<int>, s: seq<int>, i: nat)
    requires Decreasing(keys) && i < |keys| && Occ(s, keys[i]) == 3
    ensures WithCount(keys, s, 3) != []
    ensures WithCount(keys, s, 3)[0] == keys[i] <==> WithCount(keys[..i], s, 3) == []
  {
    var k := keys[i];
    assert keys == keys[..i] + [k] + keys[i + 1..];
    WithCountAppend(keys[..i] + [k], keys[i + 1..], s, 3);
    WithCountAppend(keys[..i], [k], s, 3);
    WithCountMembers(keys[..i], s, 3);
    var w := WithCount(keys[..i], s, 3);
    if w != [] {
      assert w[0] in keys[..i];
      var j :| 0 <= j < i && keys[j] == w[0];
      assert keys[j] > k;
    }
  }

  method FindFullHouse(cards: seq<Card>) returns (r: Option<seq<int>>)
    ensures r == FullHouse(cards)
  {
    var pc, keys, count := ParseAndCount(cards);
    ghost var rs := Ranks(pc);
    ghost var t := if WithCount(keys, rs, 3) == [] then 0 else WithCount(keys, rs, 3)[0];
    var triple: Option<int>, pair: Option<int> := None, None;
    for i := 0 to |keys|
      invariant triple == Head(WithCount(keys[..i], rs, 3))
      invariant pair == Head(PairCandidates(keys[..i], rs, t))
    {
      var rank := keys[i];
      FullHouseStep(keys, rs, t, i);
      if Occ(rs, rank) == 3 {
        TripleAt(keys, rs, i);
      }
      HeadAppend(WithCount(keys[..i], rs, 3), if Occ(rs, rank) == 3 then [rank] else []);
      HeadAppend(PairCandidates(keys[..i], rs, t),
                 if Pairable(rs, t, rank) then [rank] else []);
      if count[rank] == 2 && pair.None? {
        pair := Some(rank);
      }
      if count[rank] == 3 {
        if triple.None? {
          triple := Some(rank);
        } else if pair.None? {
          pair := Some(rank);
        }
      }
    }
    assert keys[..|keys|] == keys;
    if triple.Some? && pair.Some? {
      return Some([triple.value, pair.value]);
    }
    return None;
  }

  /** A rank that can pair with the triple t: two cards, or three cards and lower than t. */
  predicate PairFor(s: seq<int>, t: int, p: int)
  {
    Occ(s, p) == 2 || (Occ(s, p) == 3 && p < t)
  }

  /** A full house is found exactly when some rank has three cards and some rank
      can pair with it; the key is the highest such triple and the highest rank
      that can pair with it. Ranks with four cards take no part. */
  lemma FullHouseSpec(cards: seq<Card>)
    ensures FullHouse(cards).None? <==>
              forall t, p :: !(Occ(Ranks(cards), t) == 3 && PairFor(Ranks(cards), t, p))
    ensures FullHouse(cards).Some? ==>
              var v := FullHouse(cards).value;
              && |v| == 2
              && Occ(Ranks(cards), v[0]) == 3
              && (forall r :: Occ(Ranks(cards), r) == 3 ==> r <= v[0])
              && PairFor(Ranks(cards), v[0], v[1])
              && (forall p :: PairFor(Ranks(cards), v[0], p) ==> p <= v[1])
  {
    SortedRanks(cards);
    FullHouseOfSpec(Ranks(SortByRank(cards)), Ranks(cards));
  }

  lemma FullHouseOfSpec(rs: seq<int>, ranks: seq<int>)
    requires NonIncreasing(rs) && multiset(rs) == multiset(ranks)
    ensures FullHouseOf(rs).None? <==>
              forall t, p :: !(Occ(ranks, t) == 3 && PairFor(ranks, t, p))
    ensures FullHouseOf(rs).Some? ==>
              var v := FullHouseOf(rs).value;
              && |v| == 2
              && Occ(ranks, v[0]) == 3
              && (forall r :: Occ(ranks, r) == 3 ==> r <= v[0])
              && PairFor(ranks, v[0], v[1])
              && (forall p :: PairFor(ranks, v[0], p) ==> p <= v[1])
  {
    OccSame(rs, ranks);
    forall t, p ensures PairFor(ranks, t, p) == PairFor(rs, t, p) {}
    var keys := Distinct(rs);
    DistinctMembers(rs);
    DistinctDecreasing(rs);
    var w3 := WithCount(keys, rs, 3);
    WithCountHighest(keys, rs, 3);
    if w3 != [] {
      var t := w3[0];
      assert t in w3;
      forall r | Occ(rs, r) == 3 ensures r <= t {
        var j :| 0 <= j < |w3| && w3[j] == r;
      }
      FullHousePair(keys, rs, t);
      var pcs := PairCandidates(keys, rs, t);
      if pcs == [] {
        forall t', p | Occ(rs, t') == 3 ensures !PairFor(rs, t', p) {
          assert !PairFor(rs, t, p);
        }
      }
    }
  }

  /** Once t is the highest triple, the first pair candidate is the highest rank
      that can pair with t. */
  lemma FullHousePair(keys: seq<int>, s: seq<int>, t: int)
    requires Decreasing(keys) && forall x :: x in s ==> x in keys
    requires Occ(s, t) == 3 && forall r :: Occ(s, r) == 3 ==> r <= t
    ensures PairCandidates(keys, s, t) == [] <==> forall p :: !PairFor(s, t, p)
    ensures PairCandidates(keys, s, t) != [] ==>
              var p := PairCandidates(keys, s, t)[0];
              PairFor(s, t, p) && forall q :: PairFor(s, t, q) ==> q <= p
  {
    var pcs := PairCandidates(keys, s, t);
    PairCandidatesMembers(keys, s, t);
    PairCandidatesDecreasing(keys, s, t);
    forall p ensures p in pcs <==> PairFor(s, t, p) {
      if Occ(s, p) == 2 || Occ(s, p) == 3 {
        assert p in multiset(s);
        assert p in s;
      }
    }
    if pcs != [] {
      assert pcs[0] in pcs;
      forall q | PairFor(s, t, q) ensures q <= pcs[0] {
        var j :| 0 <= j < |pcs| && pcs[j] == q;
      }
    }
  }
}
