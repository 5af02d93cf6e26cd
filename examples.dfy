/** The hands of the unit tests and of the ranking test, with the results the
    tests expect. Each example takes a hand h given as equal, element by element,
    to the decoded tokens of the test; Same is proved to be plain sequence
    equality (SameEq). The facts about a hand are gathered in small steps, from
    its decoded cards (its ranks and suits, unsorted) and from its sorted order,
    and each detector's result follows from the general lemmas of the detectors. */
module Examples {
  import opened Seqs
  import opened Cards
  import opened Counting
  import opened Kinds
  import opened Straights
  import opened Ranking

  /** Equality of two hands, card by card. */
  predicate Same(a: seq<Card>, b: seq<Card>)
    decreases |a|
  {
    if a == [] then b == [] else b != [] && a[0] == b[0] && Same(a[1..], b[1..])
  }

  lemma {:induction false} SameEq(a: seq<Card>, b: seq<Card>)
    ensures Same(a, b) <==> a == b
    decreases |a|
  {
    if a != [] && b != [] {
      SameEq(a[1..], b[1..]);
      assert a == [a[0]] + a[1..];
      assert b == [b[0]] + b[1..];
    }
  }

  /** Rank r can be used in a straight of a hand with ranks rs (an ace also counts as 1). */
  predicate PresentIn(rs: seq<int>, r: int)
  {
    r in rs || (r == 1 && 14 in rs)
  }

  /** A hand with ranks rs holds a straight topped by t. */
  predicate TopIn(rs: seq<int>, t: int)
  {
    PresentIn(rs, t) && PresentIn(rs, t - 1) && PresentIn(rs, t - 2) && PresentIn(rs, t - 3)
    && PresentIn(rs, t - 4)
  }

  lemma TopsIn(h: seq<Card>, rs: seq<int>)
    requires Ranks(h) == rs
    ensures forall t :: IsStraightTop(h, t) <==> TopIn(rs, t)
  {
  }

  // Sorting a hand one card at a time.

  lemma SortCons(c: Card, s: seq<Card>)
    ensures SortByRank([c] + s) == Insert(c, SortByRank(s))
  {
    assert ([c] + s)[1..] == s;
  }

  /** Insert places c after the j cards of higher rank at the front of s. */
  lemma {:induction false} InsertAt(c: Card, s: seq<Card>, j: nat)
    requires j <= |s| && (forall i :: 0 <= i < j ==> s[i].rank > c.rank)
    requires j < |s| ==> s[j].rank <= c.rank
    ensures Insert(c, s) == s[..j] + [c] + s[j..]
    decreases j
  {
    if j > 0 {
      InsertAt(c, s[1..], j - 1);
      assert s[1..][..j - 1] == s[1..j];
      assert s == [s[0]] + s[1..];
    }
  }

  /** If s sorts to t, then c followed by s sorts to t with c placed after the j
      cards of higher rank. */
  lemma SortStep(c: Card, s: seq<Card>, t: seq<Card>, j: nat, u: seq<Card>)
    requires SortByRank(s) == t
    requires j <= |t| && (forall i :: 0 <= i < j ==> t[i].rank > c.rank)
    requires j < |t| ==> t[j].rank <= c.rank
    requires u == t[..j] + [c] + t[j..]
    ensures SortByRank([c] + s) == u
  {
    SortCons(c, s);
    InsertAt(c, t, j);
  }

  // Detectors that find nothing.

  /** No suit has five cards: neither a straight flush nor a flush. */
  lemma NoSuitOfFive(h: seq<Card>, ss: seq<char>)
    requires |h| <= 9 && SuitsOf(h) == ss && forall u :: Occ(ss, u) < 5
    ensures StraightFlush(h) == None && Flush(h) == None
  {
    StraightFlushSmallHand(h);
    FlushSpec(h);
  }

  /** The cards of the one suit with five cards or more hold no straight. */
  lemma NoStraightInSuit(h: seq<Card>, ss: seq<char>, u: char, ru: seq<int>)
    requires |h| <= 9 && SuitsOf(h) == ss && Occ(ss, u) >= 5
    requires Ranks(OfSuit(h, u)) == ru && forall t :: !TopIn(ru, t)
    ensures StraightFlush(h) == None
  {
    NineCardsOneSuit(h, u);
    StraightFlushOneSuit(h, u);
    StraightSpec(OfSuit(h, u));
    TopsIn(OfSuit(h, u), ru);
  }

  /** Every rank has fewer than c <= n cards: no n of a kind. */
  lemma KindNone(n: int, h: seq<Card>, rs: seq<int>, c: int)
    requires 2 <= n <= 4 && c <= n && Ranks(h) == rs && forall r :: Occ(rs, r) < c
    ensures NOfAKind(n, h) == None
  {
    NOfAKindSpec(n, h);
  }

  /** No rank has three cards: no full house. */
  lemma NoTriple(h: seq<Card>, rs: seq<int>, c: int)
    requires c <= 3 && Ranks(h) == rs && forall r :: Occ(rs, r) < c
    ensures FullHouse(h) == None
  {
    FullHouseSpec(h);
  }

  /** No rank with three cards has a rank to pair with: no full house. */
  lemma NoPairForTriple(h: seq<Card>, rs: seq<int>)
    requires Ranks(h) == rs && forall t, p :: !(Occ(rs, t) == 3 && PairFor(rs, t, p))
    ensures FullHouse(h) == None
  {
    FullHouseSpec(h);
  }

  /** No rank has two cards: no two pairs. */
  lemma NoPair(h: seq<Card>, rs: seq<int>, c: int)
    requires c <= 2 && Ranks(h) == rs && forall r :: Occ(rs, r) < c
    ensures TwoPairs(h) == None
  {
    TwoPairsSpec(h);
  }

  /** At most one rank has exactly two cards: no two pairs. */
  lemma OnePairOnly(h: seq<Card>, rs: seq<int>)
    requires Ranks(h) == rs && forall a, b :: Occ(rs, a) == 2 && Occ(rs, b) == 2 ==> a == b
    ensures TwoPairs(h) == None
  {
    TwoPairsSpec(h);
  }

  lemma NoStraight(h: seq<Card>, rs: seq<int>)
    requires |h| > 0 && Ranks(h) == rs && forall t :: !TopIn(rs, t)
    ensures Straight(h) == None
  {
    StraightSpec(h);
    TopsIn(h, rs);
  }

  // Detectors that find something.

  /** The one suit with five cards or more holds straights topped by t and by
      nothing higher. */
  lemma StraightFlushIs(h: seq<Card>, ss: seq<char>, u: char, ru: seq<int>, t: int)
    requires |h| <= 9 && SuitsOf(h) == ss && Occ(ss, u) >= 5 && Ranks(OfSuit(h, u)) == ru
    requires TopIn(ru, t) && forall t' :: t' > t ==> !TopIn(ru, t')
    ensures StraightFlush(h) == Some(t)
  {
    NineCardsOneSuit(h, u);
    StraightFlushOneSuit(h, u);
    StraightIs(OfSuit(h, u), ru, t);
  }

  /** The ranks rs, in descending order, have distinct values keys; keys[i] is the
      first with n cards or more, and v is it followed by the 5 - n highest other
      ranks. */
  predicate KindFacts(n: int, rs: seq<int>, keys: seq<int>, i: nat, v: seq<int>)
  {
    2 <= n <= 4 && Dedup(rs) == keys && i < |keys| && Occ(rs, keys[i]) >= n &&
    (forall j :: 0 <= j < i ==> Occ(rs, keys[j]) < n) &&
    [keys[i]] + Take(Outside(rs, [keys[i]]), 5 - n) == v
  }

  lemma KindIs(n: int, h: seq<Card>, keys: seq<int>, i: nat, v: seq<int>)
    requires KindFacts(n, Ranks(SortByRank(h)), keys, i, v)
    ensures 2 <= n <= 4 && NOfAKind(n, h) == Some(v)
  {
    var rs := Ranks(SortByRank(h));
    SortedRanks(h);
    DistinctDedup(rs);
    FirstAtLeastAt(keys, rs, n, i);
  }

  /** t is the highest rank with three cards and q the highest rank that can pair
      with it. */
  lemma FullHouseIs(h: seq<Card>, rs: seq<int>, t: int, q: int)
    requires Ranks(h) == rs && Occ(rs, t) == 3 && (forall r :: Occ(rs, r) == 3 ==> r <= t)
    requires PairFor(rs, t, q) && forall p :: PairFor(rs, t, p) ==> p <= q
    ensures FullHouse(h) == Some([t, q])
  {
    FullHouseSpec(h);
    assert FullHouse(h).Some?;
    var v := FullHouse(h).value;
    assert v[0] == t;
    assert v[1] == q;
    assert v == [t, q];
  }

  /** Suits[j] is the first suit of the list with five cards, and ru the ranks of
      its cards in the sorted hand p. */
  lemma FlushIs(h: seq<Card>, p: seq<Card>, ss: seq<char>, j: nat, ru: seq<int>)
    requires Same(SortByRank(h), p) && SuitsOf(p) == ss && j < 4 && Occ(ss, Suits[j]) >= 5
    requires forall i :: 0 <= i < j ==> Occ(ss, Suits[i]) < 5
    requires Ranks(OfSuit(p, Suits[j])) == ru
    ensures Flush(h) == Some(Take(ru, 5))
  {
    SameEq(SortByRank(h), p);
    FirstAtLeastAt(Suits, ss, 5, j);
  }

  /** The hand holds a straight topped by t and none topped higher. */
  lemma StraightIs(h: seq<Card>, rs: seq<int>, t: int)
    requires |h| > 0 && Ranks(h) == rs && TopIn(rs, t) && forall t' :: t' > t ==> !TopIn(rs, t')
    ensures Straight(h) == Some(t)
  {
    StraightSpec(h);
    TopsIn(h, rs);
  }

  /** The one element k holds of the k largest of o, for k = 1, is its maximum c. */
  lemma TopOne(k: seq<int>, o: seq<int>, c: int)
    requires |k| == 1 && TopOf(k, multiset(o), 1) && c in o && forall x :: x in o ==> x <= c
    ensures k == [c]
  {
    assert k == [k[0]];
    assert k[0] in multiset(k);
    assert k[0] in o;
    assert multiset(k) == multiset{k[0]} && k[0] in k;
    assert c == k[0] || c in multiset(o) - multiset(k);
    assert c <= k[0];
  }

  lemma Prefix2(v: seq<int>, a: int, b: int)
    requires |v| >= 2 && v[0] == a && v[1] == b
    ensures v[..2] == [a, b] && (|v| == 2 ==> v == [a, b])
  {
  }

  lemma Three(v: seq<int>, a: int, b: int, c: int)
    requires |v| == 3 && v[..2] == [a, b] && v[2..] == [c]
    ensures v == [a, b, c]
  {
    assert v == v[..2] + v[2..];
  }

  /** a > b are the two highest pairs: they open the key of two pairs. */
  lemma TwoPairsFirst(h: seq<Card>, rs: seq<int>, a: int, b: int)
    requires Ranks(h) == rs && Occ(rs, a) == 2 && Occ(rs, b) == 2 && a > b
    requires forall r :: Occ(rs, r) == 2 ==> r == a || r <= b
    ensures TwoPairs(h).Some? && 2 <= |TwoPairs(h).value| <= 3
    ensures TwoPairs(h).value[0] == a && TwoPairs(h).value[1] == b
    ensures |TwoPairs(h).value| == 2 <==> |h| == 4
    ensures TopOf(TwoPairs(h).value[2..], multiset(Outside(rs, TwoPairs(h).value[..2])), 1)
  {
    TwoPairsSpec(h);
  }

  lemma HighestOutside(rs: seq<int>, a: int, b: int, c: int)
    requires c in rs && c != a && c != b && forall x :: x in rs && x != a && x != b ==> x <= c
    ensures c in Outside(rs, [a, b]) && forall x :: x in Outside(rs, [a, b]) ==> x <= c
  {
    OutsideMembers(rs, [a, b]);
  }

  /** a and b are the two highest pairs, and c the highest rank of the other cards. */
  lemma TwoPairsIs(h: seq<Card>, rs: seq<int>, a: int, b: int, c: int)
    requires Ranks(h) == rs && |h| != 4 && Occ(rs, a) == 2 && Occ(rs, b) == 2 && a > b
    requires forall r :: Occ(rs, r) == 2 ==> r == a || r <= b
    requires c in rs && c != a && c != b && forall x :: x in rs && x != a && x != b ==> x <= c
    ensures TwoPairs(h) == Some([a, b, c])
  {
    TwoPairsFirst(h, rs, a, b);
    var v := TwoPairs(h).value;
    Prefix2(v, a, b);
    var o := Outside(rs, [a, b]);
    HighestOutside(rs, a, b, c);
    TopOne(v[2..], o, c);
    Three(v, a, b, c);
  }

  /** A hand of four cards made of two pairs a > b. */
  lemma TwoPairsOfFour(h: seq<Card>, rs: seq<int>, a: int, b: int)
    requires Ranks(h) == rs && |h| == 4 && Occ(rs, a) == 2 && Occ(rs, b) == 2 && a > b
    requires forall r :: Occ(rs, r) == 2 ==> r == a || r == b
    ensures TwoPairs(h) == Some([a, b])
  {
    TwoPairsFirst(h, rs, a, b);
    Prefix2(TwoPairs(h).value, a, b);
  }

  /** In a hand already in descending order, the suit of the first card decides
      the straight flush when it has five cards. */
  lemma FirstSuitDecides(h: seq<Card>, u: char)
    requires Descending(h) && h != [] && h[0].suit == u && |OfSuit(h, u)| >= 5
    ensures StraightFlush(h) == Straight(OfSuit(h, u))
  {
    var ss := SuitsOf(h);
    SortByRankFixed(h);
    OfSuitLength(h, u);
    assert ss[0] == u;
    FirstAtLeastAt(Distinct(ss), ss, 5, 0);
  }

  lemma DecodeAllAppend(a: seq<string>, b: seq<string>)
    requires ValidTokens(a) && ValidTokens(b)
    ensures ValidTokens(a + b) && DecodeAll(a + b) == DecodeAll(a) + DecodeAll(b)
  {
    assert ValidTokens(a + b) by {
      forall i | 0 <= i < |a + b| ensures ValidToken((a + b)[i]) {
        if i < |a| {
          assert (a + b)[i] == a[i];
        } else {
          assert (a + b)[i] == b[i - |a|];
        }
      }
    }
    var l, r := DecodeAll(a + b), DecodeAll(a) + DecodeAll(b);
    forall i | 0 <= i < |l| ensures l[i] == r[i] {
      if i < |a| {
        assert (a + b)[i] == a[i];
      } else {
        assert (a + b)[i] == b[i - |a|];
      }
    }
  }

  lemma {:induction false} OfSuitAppend(a: seq<Card>, b: seq<Card>, u: char)
    ensures OfSuit(a + b, u) == OfSuit(a, u) + OfSuit(b, u)
  {
    if a != [] {
      OfSuitAppend(a[1..], b, u);
      assert (a + b)[1..] == a[1..] + b;
    } else {
      assert a + b == b;
    }
  }

  lemma {:induction false} OfSuitAll(s: seq<Card>, u: char)
    requires forall i :: 0 <= i < |s| ==> s[i].suit == u
    ensures OfSuit(s, u) == s
  {
    if s != [] {
      OfSuitAll(s[1..], u);
    }
  }

  lemma {:induction false} OfSuitNone(s: seq<Card>, u: char)
    requires forall i :: 0 <= i < |s| ==> s[i].suit != u
    ensures OfSuit(s, u) == []
  {
    if s != [] {
      OfSuitNone(s[1..], u);
    }
  }

  /** A hand made of cards of suit u followed by cards of suit w. */
  lemma TwoSuits(a: seq<Card>, b: seq<Card>, u: char, w: char)
    requires u != w && |a| == |b|
    requires forall i :: 0 <= i < |a| ==> a[i].suit == u && b[i].suit == w
    ensures OfSuit(a + b, u) == a && OfSuit(a + b, w) == b
  {
    OfSuitAppend(a, b, u);
    OfSuitAppend(a, b, w);
    OfSuitAll(a, u);
    OfSuitNone(b, u);
    OfSuitNone(a, w);
    OfSuitAll(b, w);
  }

  /** The expected result of the unit test of find_high_card on no cards
      (ranking.py:145-146). */
  lemma HighCardEmpty()
    ensures HighCard([]) == []
  {
  }

  /** The hand, sorted, has ranks rs. */
  lemma HighCardIs(h: seq<Card>, rs: seq<int>)
    requires Ranks(SortByRank(h)) == rs
    ensures HighCard(h) == Take(rs, 5)
  {
  }

  // HighCardLessThanFive, ranking.py:148

  lemma HighCardLessThanFiveDecoded2()
    ensures ValidTokens(["As"]) && DecodeAll(["As"]) == [Card(14, 's')]
  {
  }

  lemma HighCardLessThanFiveDecoded1()
    ensures ValidTokens(["Jh", "As"]) && DecodeAll(["Jh", "As"]) == [Card(11, 'h'), Card(14, 's')]
  {
    HighCardLessThanFiveDecoded2();
  }

  lemma HighCardLessThanFiveDecoded()
    ensures ValidTokens(["5d", "Jh", "As"]) && DecodeAll(["5d", "Jh", "As"]) == [Card(5, 'd'), Card(11, 'h'), Card(14, 's')]
  {
    HighCardLessThanFiveDecoded1();
  }

  lemma HighCardLessThanFiveSort2()
    ensures SortByRank([Card(14, 's')]) == [Card(14, 's')]
  {
  }

  lemma HighCardLessThanFiveSort1()
    ensures SortByRank([Card(11, 'h'), Card(14, 's')]) == [Card(14, 's'), Card(11, 'h')]
  {
    HighCardLessThanFiveSort2();
    SortStep(Card(11, 'h'), [Card(14, 's')], [Card(14, 's')], 1, [Card(14, 's'), Card(11, 'h')]);
    assert [Card(11, 'h'), Card(14, 's')] == [Card(11, 'h')] + [Card(14, 's')];
  }

  lemma HighCardLessThanFiveSort0()
    ensures SortByRank([Card(5, 'd'), Card(11, 'h'), Card(14, 's')]) == [Card(14, 's'), Card(11, 'h'), Card(5, 'd')]
  {
    HighCardLessThanFiveSort1();
    SortStep(Card(5, 'd'), [Card(11, 'h'), Card(14, 's')], [Card(14, 's'), Card(11, 'h')], 2, [Card(14, 's'), Card(11, 'h'), Card(5, 'd')]);
    assert [Card(5, 'd'), Card(11, 'h'), Card(14, 's')] == [Card(5, 'd')] + [Card(11, 'h'), Card(14, 's')];
  }

  lemma HighCardLessThanFiveSorted(h: seq<Card>)
    requires Same(h, [Card(5, 'd'), Card(11, 'h'), Card(14, 's')])
    ensures Same(SortByRank(h), [Card(14, 's'), Card(11, 'h'), Card(5, 'd')])
  {
    SameEq(h, [Card(5, 'd'), Card(11, 'h'), Card(14, 's')]);
    HighCardLessThanFiveSort0();
    SameEq(SortByRank(h), [Card(14, 's'), Card(11, 'h'), Card(5, 'd')]);
  }

  lemma HighCardLessThanFiveSortedRanks(h: seq<Card>)
    requires Same(h, [Card(5, 'd'), Card(11, 'h'), Card(14, 's')])
    ensures Ranks(SortByRank(h)) == [14, 11, 5]
  {
    HighCardLessThanFiveSorted(h);
    SameEq(SortByRank(h), [Card(14, 's'), Card(11, 'h'), Card(5, 'd')]);
    HighCardLessThanFiveFact2();
  }

  lemma HighCardLessThanFiveFact1()
    ensures Take([14, 11, 5], 5) == [14, 11, 5]
  {
  }

  lemma HighCardLessThanFiveFact2()
    ensures Ranks([Card(14, 's'), Card(11, 'h'), Card(5, 'd')]) == [14, 11, 5]
  {
  }

  lemma HighCardLessThanFiveLength(h: seq<Card>)
    requires Same(h, [Card(5, 'd'), Card(11, 'h'), Card(14, 's')])
    ensures |h| == 3
  {
    SameEq(h, [Card(5, 'd'), Card(11, 'h'), Card(14, 's')]);
  }

  lemma HighCardLessThanFiveResult(h: seq<Card>)
    requires Same(h, [Card(5, 'd'), Card(11, 'h'), Card(14, 's')])
    ensures HighCard(h) == [14, 11, 5]
  {
    HighCardLessThanFiveFact1();
    HighCardLessThanFiveSortedRanks(h);
    HighCardIs(h, [14, 11, 5]);
  }

  /** The expected result of the unit test HighCardLessThanFive. */
  lemma HighCardLessThanFive(h: seq<Card>)
    requires Same(h, DecodeAll(["5d", "Jh", "As"]))
    ensures HighCard(h) == [14, 11, 5] && HighCard(SortByRank(h)) == [14, 11, 5]
  {
    HighCardLessThanFiveDecoded();
    HighCardLessThanFiveResult(h);
    HighCardLessThanFiveLength(h);
    DetectorsSorted(h);
  }

  // HighCardMoreThanFive, ranking.py:152

  lemma HighCardMoreThanFiveDecoded6()
    ensures ValidTokens(["4d"]) && DecodeAll(["4d"]) == [Card(4, 'd')]
  {
  }

  lemma HighCardMoreThanFiveDecoded5()
    ensures ValidTokens(["2d", "4d"]) && DecodeAll(["2d", "4d"]) == [Card(2, 'd'), Card(4, 'd')]
  {
    HighCardMoreThanFiveDecoded6();
  }

  lemma HighCardMoreThanFiveDecoded4()
    ensures ValidTokens(["2c", "2d", "4d"]) && DecodeAll(["2c", "2d", "4d"]) == [Card(2, 'c'), Card(2, 'd'), Card(4, 'd')]
  {
    HighCardMoreThanFiveDecoded5();
  }

  lemma HighCardMoreThanFiveDecoded3()
    ensures ValidTokens(["10c", "2c", "2d", "4d"]) && DecodeAll(["10c", "2c", "2d", "4d"]) == [Card(10, 'c'), Card(2, 'c'), Card(2, 'd'), Card(4, 'd')]
  {
    HighCardMoreThanFiveDecoded4();
  }

  lemma HighCardMoreThanFiveDecoded2()
    ensures ValidTokens(["As", "10c", "2c", "2d", "4d"]) && DecodeAll(["As", "10c", "2c", "2d", "4d"]) == [Card(14, 's'), Card(10, 'c'), Card(2, 'c'), Card(2, 'd'), Card(4, 'd')]
  {
    HighCardMoreThanFiveDecoded3();
  }

  lemma HighCardMoreThanFiveDecoded1()
    ensures ValidTokens(["Jh", "As", "10c", "2c", "2d", "4d"]) && DecodeAll(["Jh", "As", "10c", "2c", "2d", "4d"]) == [Card(11, 'h'), Card(14, 's'), Card(10, 'c'), Card(2, 'c'), Card(2, 'd'), Card(4, 'd')]
  {
    HighCardMoreThanFiveDecoded2();
  }

  lemma HighCardMoreThanFiveDecoded()
    ensures ValidTokens(["5d", "Jh", "As", "10c", "2c", "2d", "4d"]) && DecodeAll(["5d", "Jh", "As", "10c", "2c", "2d", "4d"]) == [Card(5, 'd'), Card(11, 'h'), Card(14, 's'), Card(10, 'c'), Card(2, 'c'), Card(2, 'd'), Card(4, 'd')]
  {
    HighCardMoreThanFiveDecoded1();
  }

  lemma HighCardMoreThanFiveSort6()
    ensures SortByRank([Card(4, 'd')]) == [Card(4, 'd')]
  {
  }

  lemma HighCardMoreThanFiveSort5()
    ensures SortByRank([Card(2, 'd'), Card(4, 'd')]) == [Card(4, 'd'), Card(2, 'd')]
  {
    HighCardMoreThanFiveSort6();
    SortStep(Card(2, 'd'), [Card(4, 'd')], [Card(4, 'd')], 1, [Card(4, 'd'), Card(2, 'd')]);
    assert [Card(2, 'd'), Card(4, 'd')] == [Card(2, 'd')] + [Card(4, 'd')];
  }

  lemma HighCardMoreThanFiveSort4()
    ensures SortByRank([Card(2, 'c'), Card(2, 'd'), Card(4, 'd')]) == [Card(4, 'd'), Card(2, 'c'), Card(2, 'd')]
  {
    HighCardMoreThanFiveSort5();
    SortStep(Card(2, 'c'), [Card(2, 'd'), Card(4, 'd')], [Card(4, 'd'), Card(2, 'd')], 1, [Card(4, 'd'), Card(2, 'c'), Card(2, 'd')]);
    assert [Card(2, 'c'), Card(2, 'd'), Card(4, 'd')] == [Card(2, 'c')] + [Card(2, 'd'), Card(4, 'd')];
  }

  lemma HighCardMoreThanFiveSort3()
    ensures SortByRank([Card(10, 'c'), Card(2, 'c'), Card(2, 'd'), Card(4, 'd')]) == [Card(10, 'c'), Card(4, 'd'), Card(2, 'c'), Card(2, 'd')]
  {
    HighCardMoreThanFiveSort4();
    SortStep(Card(10, 'c'), [Card(2, 'c'), Card(2, 'd'), Card(4, 'd')], [Card(4, 'd'), Card(2, 'c'), Card(2, 'd')], 0, [Card(10, 'c'), Card(4, 'd'), Card(2, 'c'), Card(2, 'd')]);
    assert [Card(10, 'c'), Card(2, 'c'), Card(2, 'd'), Card(4, 'd')] == [Card(10, 'c')] + [Card(2, 'c'), Card(2, 'd'), Card(4, 'd')];
  }

  lemma HighCardMoreThanFiveSort2()
    ensures SortByRank([Card(14, 's'), Card(10, 'c'), Card(2, 'c'), Card(2, 'd'), Card(4, 'd')]) == [Card(14, 's'), Card(10, 'c'), Card(4, 'd'), Card(2, 'c'), Card(2, 'd')]
  {
    HighCardMoreThanFiveSort3();
    SortStep(Card(14, 's'), [Card(10, 'c'), Card(2, 'c'), Card(2, 'd'), Card(4, 'd')], [Card(10, 'c'), Card(4, 'd'), Card(2, 'c'), Card(2, 'd')], 0, [Card(14, 's'), Card(10, 'c'), Card(4, 'd'), Card(2, 'c'), Card(2, 'd')]);
    assert [Card(14, 's'), Card(10, 'c'), Card(2, 'c'), Card(2, 'd'), Card(4, 'd')] == [Card(14, 's')] + [Card(10, 'c'), Card(2, 'c'), Card(2, 'd'), Card(4, 'd')];
  }

  lemma HighCardMoreThanFiveSort1()
    ensures SortByRank([Card(11, 'h'), Card(14, 's'), Card(10, 'c'), Card(2, 'c'), Card(2, 'd'), Card(4, 'd')]) == [Card(14, 's'), Card(11, 'h'), Card(10, 'c'), Card(4, 'd'), Card(2, 'c'), Card(2, 'd')]
  {
    HighCardMoreThanFiveSort2();
    SortStep(Card(11, 'h'), [Card(14, 's'), Card(10, 'c'), Card(2, 'c'), Card(2, 'd'), Card(4, 'd')], [Card(14, 's'), Card(10, 'c'), Card(4, 'd'), Card(2, 'c'), Card(2, 'd')], 1, [Card(14, 's'), Card(11, 'h'), Card(10, 'c'), Card(4, 'd'), Card(2, 'c'), Card(2, 'd')]);
    assert [Card(11, 'h'), Card(14, 's'), Card(10, 'c'), Card(2, 'c'), Card(2, 'd'), Card(4, 'd')] == [Card(11, 'h')] + [Card(14, 's'), Card(10, 'c'), Card(2, 'c'), Card(2, 'd'), Card(4, 'd')];
  }

  lemma HighCardMoreThanFiveSort0()
    ensures SortByRank([Card(5, 'd'), Card(11, 'h'), Card(14, 's'), Card(10, 'c'), Card(2, 'c'), Card(2, 'd'), Card(4, 'd')]) == [Card(14, 's'), Card(11, 'h'), Card(10, 'c'), Card(5, 'd'), Card(4, 'd'), Card(2, 'c'), Card(2, 'd')]
  {
    HighCardMoreThanFiveSort1();
    SortStep(Card(5, 'd'), [Card(11, 'h'), Card(14, 's'), Card(10, 'c'), Card(2, 'c'), Card(2, 'd'), Card(4, 'd')], [Card(14, 's'), Card(11, 'h'), Card(10, 'c'), Card(4, 'd'), Card(2, 'c'), Card(2, 'd')], 3, [Card(14, 's'), Card(11, 'h'), Card(10, 'c'), Card(5, 'd'), Card(4, 'd'), Card(2, 'c'), Card(2, 'd')]);
    assert [Card(5, 'd'), Card(11, 'h'), Card(14, 's'), Card(10, 'c'), Card(2, 'c'), Card(2, 'd'), Card(4, 'd')] == [Card(5, 'd')] + [Card(11, 'h'), Card(14, 's'), Card(10, 'c'), Card(2, 'c'), Card(2, 'd'), Card(4, 'd')];
  }

  lemma HighCardMoreThanFiveSorted(h: seq<Card>)
    requires Same(h, [Card(5, 'd'), Card(11, 'h'), Card(14, 's'), Card(10, 'c'), Card(2, 'c'), Card(2, 'd'), Card(4, 'd')])
    ensures Same(SortByRank(h), [Card(14, 's'), Card(11, 'h'), Card(10, 'c'), Card(5, 'd'), Card(4, 'd'), Card(2, 'c'), Card(2, 'd')])
  {
    SameEq(h, [Card(5, 'd'), Card(11, 'h'), Card(14, 's'), Card(10, 'c'), Card(2, 'c'), Card(2, 'd'), Card(4, 'd')]);
    HighCardMoreThanFiveSort0();
    SameEq(SortByRank(h), [Card(14, 's'), Card(11, 'h'), Card(10, 'c'), Card(5, 'd'), Card(4, 'd'), Card(2, 'c'), Card(2, 'd')]);
  }

  lemma HighCardMoreThanFiveSortedRanks(h: seq<Card>)
    requires Same(h, [Card(5, 'd'), Card(11, 'h'), Card(14, 's'), Card(10, 'c'), Card(2, 'c'), Card(2, 'd'), Card(4, 'd')])
    ensures Ranks(SortByRank(h)) == [14, 11, 10, 5, 4, 2, 2]
  {
    HighCardMoreThanFiveSorted(h);
    SameEq(SortByRank(h), [Card(14, 's'), Card(11, 'h'), Card(10, 'c'), Card(5, 'd'), Card(4, 'd'), Card(2, 'c'), Card(2, 'd')]);
    HighCardMoreThanFiveFact2();
  }

  lemma HighCardMoreThanFiveFact1()
    ensures Take([14, 11, 10, 5, 4, 2, 2], 5) == [14, 11, 10, 5, 4]
  {
  }

  lemma HighCardMoreThanFiveFact2()
    ensures Ranks([Card(14, 's'), Card(11, 'h'), Card(10, 'c'), Card(5, 'd'), Card(4, 'd'), Card(2, 'c'), Card(2, 'd')]) == [14, 11, 10, 5, 4, 2, 2]
  {
  }

  lemma HighCardMoreThanFiveLength(h: seq<Card>)
    requires Same(h, [Card(5, 'd'), Card(11, 'h'), Card(14, 's'), Card(10, 'c'), Card(2, 'c'), Card(2, 'd'), Card(4, 'd')])
    ensures |h| == 7
  {
    SameEq(h, [Card(5, 'd'), Card(11, 'h'), Card(14, 's'), Card(10, 'c'), Card(2, 'c'), Card(2, 'd'), Card(4, 'd')]);
  }

  lemma HighCardMoreThanFiveResult(h: seq<Card>)
    requires Same(h, [Card(5, 'd'), Card(11, 'h'), Card(14, 's'), Card(10, 'c'), Card(2, 'c'), Card(2, 'd'), Card(4, 'd')])
    ensures HighCard(h) == [14, 11, 10, 5, 4]
  {
    HighCardMoreThanFiveFact1();
    HighCardMoreThanFiveSortedRanks(h);
    HighCardIs(h, [14, 11, 10, 5, 4, 2, 2]);
  }

  /** The expected result of the unit test HighCardMoreThanFive. */
  lemma HighCardMoreThanFive(h: seq<Card>)
    requires Same(h, DecodeAll(["5d", "Jh", "As", "10c", "2c", "2d", "4d"]))
    ensures HighCard(h) == [14, 11, 10, 5, 4] && HighCard(SortByRank(h)) == [14, 11, 10, 5, 4]
  {
    HighCardMoreThanFiveDecoded();
    HighCardMoreThanFiveResult(h);
    HighCardMoreThanFiveLength(h);
    DetectorsSorted(h);
  }

  // KindNotFound, ranking.py:158

  lemma KindNotFoundDecoded6()
    ensures ValidTokens(["4d"]) && DecodeAll(["4d"]) == [Card(4, 'd')]
  {
  }

  lemma KindNotFoundDecoded5()
    ensures ValidTokens(["3d", "4d"]) && DecodeAll(["3d", "4d"]) == [Card(3, 'd'), Card(4, 'd')]
  {
    KindNotFoundDecoded6();
  }

  lemma KindNotFoundDecoded4()
    ensures ValidTokens(["2c", "3d", "4d"]) && DecodeAll(["2c", "3d", "4d"]) == [Card(2, 'c'), Card(3, 'd'), Card(4, 'd')]
  {
    KindNotFoundDecoded5();
  }

  lemma KindNotFoundDecoded3()
    ensures ValidTokens(["10c", "2c", "3d", "4d"]) && DecodeAll(["10c", "2c", "3d", "4d"]) == [Card(10, 'c'), Card(2, 'c'), Card(3, 'd'), Card(4, 'd')]
  {
    KindNotFoundDecoded4();
  }

  lemma KindNotFoundDecoded2()
    ensures ValidTokens(["As", "10c", "2c", "3d", "4d"]) && DecodeAll(["As", "10c", "2c", "3d", "4d"]) == [Card(14, 's'), Card(10, 'c'), Card(2, 'c'), Card(3, 'd'), Card(4, 'd')]
  {
    KindNotFoundDecoded3();
  }

  lemma KindNotFoundDecoded1()
    ensures ValidTokens(["Jh", "As", "10c", "2c", "3d", "4d"]) && DecodeAll(["Jh", "As", "10c", "2c", "3d", "4d"]) == [Card(11, 'h'), Card(14, 's'), Card(10, 'c'), Card(2, 'c'), Card(3, 'd'), Card(4, 'd')]
  {
    KindNotFoundDecoded2();
  }

  lemma KindNotFoundDecoded()
    ensures ValidTokens(["5d", "Jh", "As", "10c", "2c", "3d", "4d"]) && DecodeAll(["5d", "Jh", "As", "10c", "2c", "3d", "4d"]) == [Card(5, 'd'), Card(11, 'h'), Card(14, 's'), Card(10, 'c'), Card(2, 'c'), Card(3, 'd'), Card(4, 'd')]
  {
    KindNotFoundDecoded1();
  }

  lemma KindNotFoundCards(h: seq<Card>)
    requires Same(h, [Card(5, 'd'), Card(11, 'h'), Card(14, 's'), Card(10, 'c'), Card(2, 'c'), Card(3, 'd'), Card(4, 'd')])
    ensures |h| == 7 && Ranks(h) == [5, 11, 14, 10, 2, 3, 4] && SuitsOf(h) == ['d', 'h', 's', 'c', 'c', 'd', 'd']
  {
    SameEq(h, [Card(5, 'd'), Card(11, 'h'), Card(14, 's'), Card(10, 'c'), Card(2, 'c'), Card(3, 'd'), Card(4, 'd')]);
    KindNotFoundFact2();
    KindNotFoundFact3();
  }

  lemma KindNotFoundFact1()
    ensures forall r :: Occ([5, 11, 14, 10, 2, 3, 4], r) < 2
  {
  }

  lemma KindNotFoundFact2()
    ensures Ranks([Card(5, 'd'), Card(11, 'h'), Card(14, 's'), Card(10, 'c'), Card(2, 'c'), Card(3, 'd'), Card(4, 'd')]) == [5, 11, 14, 10, 2, 3, 4]
  {
  }

  lemma KindNotFoundFact3()
    ensures SuitsOf([Card(5, 'd'), Card(11, 'h'), Card(14, 's'), Card(10, 'c'), Card(2, 'c'), Card(3, 'd'), Card(4, 'd')]) == ['d', 'h', 's', 'c', 'c', 'd', 'd']
  {
  }

  lemma KindNotFoundLength(h: seq<Card>)
    requires Same(h, [Card(5, 'd'), Card(11, 'h'), Card(14, 's'), Card(10, 'c'), Card(2, 'c'), Card(3, 'd'), Card(4, 'd')])
    ensures |h| == 7
  {
    SameEq(h, [Card(5, 'd'), Card(11, 'h'), Card(14, 's'), Card(10, 'c'), Card(2, 'c'), Card(3, 'd'), Card(4, 'd')]);
  }

  lemma KindNotFoundResult(h: seq<Card>)
    requires Same(h, [Card(5, 'd'), Card(11, 'h'), Card(14, 's'), Card(10, 'c'), Card(2, 'c'), Card(3, 'd'), Card(4, 'd')])
    ensures NOfAKind(2, h) == None
  {
    KindNotFoundCards(h);
    KindNotFoundFact1();
    KindNone(2, h, [5, 11, 14, 10, 2, 3, 4], 2);
  }

  /** The expected result of the unit test KindNotFound. */
  lemma KindNotFound(h: seq<Card>)
    requires Same(h, DecodeAll(["5d", "Jh", "As", "10c", "2c", "3d", "4d"]))
    ensures NOfAKind(2, h) == None && NOfAKind(2, SortByRank(h)) == None
  {
    KindNotFoundDecoded();
    KindNotFoundResult(h);
    KindNotFoundLength(h);
    DetectorsSorted(h);
  }

  // KindOneResult, ranking.py:162

  lemma KindOneResultDecoded6()
    ensures ValidTokens(["4d"]) && DecodeAll(["4d"]) == [Card(4, 'd')]
  {
  }

  lemma KindOneResultDecoded5()
    ensures ValidTokens(["2d", "4d"]) && DecodeAll(["2d", "4d"]) == [Card(2, 'd'), Card(4, 'd')]
  {
    KindOneResultDecoded6();
  }

  lemma KindOneResultDecoded4()
    ensures ValidTokens(["2c", "2d", "4d"]) && DecodeAll(["2c", "2d", "4d"]) == [Card(2, 'c'), Card(2, 'd'), Card(4, 'd')]
  {
    KindOneResultDecoded5();
  }

  lemma KindOneResultDecoded3()
    ensures ValidTokens(["10c", "2c", "2d", "4d"]) && DecodeAll(["10c", "2c", "2d", "4d"]) == [Card(10, 'c'), Card(2, 'c'), Card(2, 'd'), Card(4, 'd')]
  {
    KindOneResultDecoded4();
  }

  lemma KindOneResultDecoded2()
    ensures ValidTokens(["As", "10c", "2c", "2d", "4d"]) && DecodeAll(["As", "10c", "2c", "2d", "4d"]) == [Card(14, 's'), Card(10, 'c'), Card(2, 'c'), Card(2, 'd'), Card(4, 'd')]
  {
    KindOneResultDecoded3();
  }

  lemma KindOneResultDecoded1()
    ensures ValidTokens(["Jh", "As", "10c", "2c", "2d", "4d"]) && DecodeAll(["Jh", "As", "10c", "2c", "2d", "4d"]) == [Card(11, 'h'), Card(14, 's'), Card(10, 'c'), Card(2, 'c'), Card(2, 'd'), Card(4, 'd')]
  {
    KindOneResultDecoded2();
  }

  lemma KindOneResultDecoded()
    ensures ValidTokens(["5d", "Jh", "As", "10c", "2c", "2d", "4d"]) && DecodeAll(["5d", "Jh", "As", "10c", "2c", "2d", "4d"]) == [Card(5, 'd'), Card(11, 'h'), Card(14, 's'), Card(10, 'c'), Card(2, 'c'), Card(2, 'd'), Card(4, 'd')]
  {
    KindOneResultDecoded1();
  }

  lemma KindOneResultSort6()
    ensures SortByRank([Card(4, 'd')]) == [Card(4, 'd')]
  {
  }

  lemma KindOneResultSort5()
    ensures SortByRank([Card(2, 'd'), Card(4, 'd')]) == [Card(4, 'd'), Card(2, 'd')]
  {
    KindOneResultSort6();
    SortStep(Card(2, 'd'), [Card(4, 'd')], [Card(4, 'd')], 1, [Card(4, 'd'), Card(2, 'd')]);
    assert [Card(2, 'd'), Card(4, 'd')] == [Card(2, 'd')] + [Card(4, 'd')];
  }

  lemma KindOneResultSort4()
    ensures SortByRank([Card(2, 'c'), Card(2, 'd'), Card(4, 'd')]) == [Card(4, 'd'), Card(2, 'c'), Card(2, 'd')]
  {
    KindOneResultSort5();
    SortStep(Card(2, 'c'), [Card(2, 'd'), Card(4, 'd')], [Card(4, 'd'), Card(2, 'd')], 1, [Card(4, 'd'), Card(2, 'c'), Card(2, 'd')]);
    assert [Card(2, 'c'), Card(2, 'd'), Card(4, 'd')] == [Card(2, 'c')] + [Card(2, 'd'), Card(4, 'd')];
  }

  lemma KindOneResultSort3()
    ensures SortByRank([Card(10, 'c'), Card(2, 'c'), Card(2, 'd'), Card(4, 'd')]) == [Card(10, 'c'), Card(4, 'd'), Card(2, 'c'), Card(2, 'd')]
  {
    KindOneResultSort4();
    SortStep(Card(10, 'c'), [Card(2, 'c'), Card(2, 'd'), Card(4, 'd')], [Card(4, 'd'), Card(2, 'c'), Card(2, 'd')], 0, [Card(10, 'c'), Card(4, 'd'), Card(2, 'c'), Card(2, 'd')]);
    assert [Card(10, 'c'), Card(2, 'c'), Card(2, 'd'), Card(4, 'd')] == [Card(10, 'c')] + [Card(2, 'c'), Card(2, 'd'), Card(4, 'd')];
  }

  lemma KindOneResultSort2()
    ensures SortByRank([Card(14, 's'), Card(10, 'c'), Card(2, 'c'), Card(2, 'd'), Card(4, 'd')]) == [Card(14, 's'), Card(10, 'c'), Card(4, 'd'), Card(2, 'c'), Card(2, 'd')]
  {
    KindOneResultSort3();
    SortStep(Card(14, 's'), [Card(10, 'c'), Card(2, 'c'), Card(2, 'd'), Card(4, 'd')], [Card(10, 'c'), Card(4, 'd'), Card(2, 'c'), Card(2, 'd')], 0, [Card(14, 's'), Card(10, 'c'), Card(4, 'd'), Card(2, 'c'), Card(2, 'd')]);
    assert [Card(14, 's'), Card(10, 'c'), Card(2, 'c'), Card(2, 'd'), Card(4, 'd')] == [Card(14, 's')] + [Card(10, 'c'), Card(2, 'c'), Card(2, 'd'), Card(4, 'd')];
  }

  lemma KindOneResultSort1()
    ensures SortByRank([Card(11, 'h'), Card(14, 's'), Card(10, 'c'), Card(2, 'c'), Card(2, 'd'), Card(4, 'd')]) == [Card(14, 's'), Card(11, 'h'), Card(10, 'c'), Card(4, 'd'), Card(2, 'c'), Card(2, 'd')]
  {
    KindOneResultSort2();
    SortStep(Card(11, 'h'), [Card(14, 's'), Card(10, 'c'), Card(2, 'c'), Card(2, 'd'), Card(4, 'd')], [Card(14, 's'), Card(10, 'c'), Card(4, 'd'), Card(2, 'c'), Card(2, 'd')], 1, [Card(14, 's'), Card(11, 'h'), Card(10, 'c'), Card(4, 'd'), Card(2, 'c'), Card(2, 'd')]);
    assert [Card(11, 'h'), Card(14, 's'), Card(10, 'c'), Card(2, 'c'), Card(2, 'd'), Card(4, 'd')] == [Card(11, 'h')] + [Card(14, 's'), Card(10, 'c'), Card(2, 'c'), Card(2, 'd'), Card(4, 'd')];
  }

  lemma KindOneResultSort0()
    ensures SortByRank([Card(5, 'd'), Card(11, 'h'), Card(14, 's'), Card(10, 'c'), Card(2, 'c'), Card(2, 'd'), Card(4, 'd')]) == [Card(14, 's'), Card(11, 'h'), Card(10, 'c'), Card(5, 'd'), Card(4, 'd'), Card(2, 'c'), Card(2, 'd')]
  {
    KindOneResultSort1();
    SortStep(Card(5, 'd'), [Card(11, 'h'), Card(14, 's'), Card(10, 'c'), Card(2, 'c'), Card(2, 'd'), Card(4, 'd')], [Card(14, 's'), Card(11, 'h'), Card(10, 'c'), Card(4, 'd'), Card(2, 'c'), Card(2, 'd')], 3, [Card(14, 's'), Card(11, 'h'), Card(10, 'c'), Card(5, 'd'), Card(4, 'd'), Card(2, 'c'), Card(2, 'd')]);
    assert [Card(5, 'd'), Card(11, 'h'), Card(14, 's'), Card(10, 'c'), Card(2, 'c'), Card(2, 'd'), Card(4, 'd')] == [Card(5, 'd')] + [Card(11, 'h'), Card(14, 's'), Card(10, 'c'), Card(2, 'c'), Card(2, 'd'), Card(4, 'd')];
  }

  lemma KindOneResultSorted(h: seq<Card>)
    requires Same(h, [Card(5, 'd'), Card(11, 'h'), Card(14, 's'), Card(10, 'c'), Card(2, 'c'), Card(2, 'd'), Card(4, 'd')])
    ensures Same(SortByRank(h), [Card(14, 's'), Card(11, 'h'), Card(10, 'c'), Card(5, 'd'), Card(4, 'd'), Card(2, 'c'), Card(2, 'd')])
  {
    SameEq(h, [Card(5, 'd'), Card(11, 'h'), Card(14, 's'), Card(10, 'c'), Card(2, 'c'), Card(2, 'd'), Card(4, 'd')]);
    KindOneResultSort0();
    SameEq(SortByRank(h), [Card(14, 's'), Card(11, 'h'), Card(10, 'c'), Card(5, 'd'), Card(4, 'd'), Card(2, 'c'), Card(2, 'd')]);
  }

  lemma KindOneResultSortedRanks(h: seq<Card>)
    requires Same(h, [Card(5, 'd'), Card(11, 'h'), Card(14, 's'), Card(10, 'c'), Card(2, 'c'), Card(2, 'd'), Card(4, 'd')])
    ensures Ranks(SortByRank(h)) == [14, 11, 10, 5, 4, 2, 2]
  {
    KindOneResultSorted(h);
    SameEq(SortByRank(h), [Card(14, 's'), Card(11, 'h'), Card(10, 'c'), Card(5, 'd'), Card(4, 'd'), Card(2, 'c'), Card(2, 'd')]);
    KindOneResultFact6();
  }

  lemma KindOneResultFact1()
    ensures Dedup([14, 11, 10, 5, 4, 2, 2]) == [14, 11, 10, 5, 4, 2]
  {
  }

  lemma KindOneResultFact2()
    ensures Occ([14, 11, 10, 5, 4, 2, 2], 2) >= 2
  {
  }

  lemma KindOneResultFact3()
    ensures forall j :: 0 <= j < 5 ==> Occ([14, 11, 10, 5, 4, 2, 2], [14, 11, 10, 5, 4, 2][j]) < 2
  {
  }

  lemma KindOneResultFact4()
    ensures [2] + Take(Outside([14, 11, 10, 5, 4, 2, 2], [2]), 3) == [2, 14, 11, 10]
  {
  }

  lemma KindOneResultFact5()
    ensures KindFacts(2, [14, 11, 10, 5, 4, 2, 2], [14, 11, 10, 5, 4, 2], 5, [2, 14, 11, 10])
  {
    KindOneResultFact1();
    KindOneResultFact2();
    KindOneResultFact3();
    KindOneResultFact4();
  }

  lemma KindOneResultFact6()
    ensures Ranks([Card(14, 's'), Card(11, 'h'), Card(10, 'c'), Card(5, 'd'), Card(4, 'd'), Card(2, 'c'), Card(2, 'd')]) == [14, 11, 10, 5, 4, 2, 2]
  {
  }

  lemma KindOneResultLength(h: seq<Card>)
    requires Same(h, [Card(5, 'd'), Card(11, 'h'), Card(14, 's'), Card(10, 'c'), Card(2, 'c'), Card(2, 'd'), Card(4, 'd')])
    ensures |h| == 7
  {
    SameEq(h, [Card(5, 'd'), Card(11, 'h'), Card(14, 's'), Card(10, 'c'), Card(2, 'c'), Card(2, 'd'), Card(4, 'd')]);
  }

  lemma KindOneResultResult(h: seq<Card>)
    requires Same(h, [Card(5, 'd'), Card(11, 'h'), Card(14, 's'), Card(10, 'c'), Card(2, 'c'), Card(2, 'd'), Card(4, 'd')])
    ensures NOfAKind(2, h) == Some([2, 14, 11, 10])
  {
    KindOneResultFact5();
    KindOneResultSortedRanks(h);
    KindIs(2, h, [14, 11, 10, 5, 4, 2], 5, [2, 14, 11, 10]);
  }

  /** The expected result of the unit test KindOneResult. */
  lemma KindOneResult(h: seq<Card>)
    requires Same(h, DecodeAll(["5d", "Jh", "As", "10c", "2c", "2d", "4d"]))
    ensures NOfAKind(2, h) == Some([2, 14, 11, 10]) && NOfAKind(2, SortByRank(h)) == Some([2, 14, 11, 10])
  {
    KindOneResultDecoded();
    KindOneResultResult(h);
    KindOneResultLength(h);
    DetectorsSorted(h);
  }

  // KindTwoResults, ranking.py:166

  lemma KindTwoResultsDecoded6()
    ensures ValidTokens(["As"]) && DecodeAll(["As"]) == [Card(14, 's')]
  {
  }

  lemma KindTwoResultsDecoded5()
    ensures ValidTokens(["2d", "As"]) && DecodeAll(["2d", "As"]) == [Card(2, 'd'), Card(14, 's')]
  {
    KindTwoResultsDecoded6();
  }

  lemma KindTwoResultsDecoded4()
    ensures ValidTokens(["2c", "2d", "As"]) && DecodeAll(["2c", "2d", "As"]) == [Card(2, 'c'), Card(2, 'd'), Card(14, 's')]
  {
    KindTwoResultsDecoded5();
  }

  lemma KindTwoResultsDecoded3()
    ensures ValidTokens(["2s", "2c", "2d", "As"]) && DecodeAll(["2s", "2c", "2d", "As"]) == [Card(2, 's'), Card(2, 'c'), Card(2, 'd'), Card(14, 's')]
  {
    KindTwoResultsDecoded4();
  }

  lemma KindTwoResultsDecoded2()
    ensures ValidTokens(["5h", "2s", "2c", "2d", "As"]) && DecodeAll(["5h", "2s", "2c", "2d", "As"]) == [Card(5, 'h'), Card(2, 's'), Card(2, 'c'), Card(2, 'd'), Card(14, 's')]
  {
    KindTwoResultsDecoded3();
  }

  lemma KindTwoResultsDecoded1()
    ensures ValidTokens(["5c", "5h", "2s", "2c", "2d", "As"]) && DecodeAll(["5c", "5h", "2s", "2c", "2d", "As"]) == [Card(5, 'c'), Card(5, 'h'), Card(2, 's'), Card(2, 'c'), Card(2, 'd'), Card(14, 's')]
  {
    KindTwoResultsDecoded2();
  }

  lemma KindTwoResultsDecoded()
    ensures ValidTokens(["5d", "5c", "5h", "2s", "2c", "2d", "As"]) && DecodeAll(["5d", "5c", "5h", "2s", "2c", "2d", "As"]) == [Card(5, 'd'), Card(5, 'c'), Card(5, 'h'), Card(2, 's'), Card(2, 'c'), Card(2, 'd'), Card(14, 's')]
  {
    KindTwoResultsDecoded1();
  }

  lemma KindTwoResultsSort6()
    ensures SortByRank([Card(14, 's')]) == [Card(14, 's')]
  {
  }

  lemma KindTwoResultsSort5()
    ensures SortByRank([Card(2, 'd'), Card(14, 's')]) == [Card(14, 's'), Card(2, 'd')]
  {
    KindTwoResultsSort6();
    SortStep(Card(2, 'd'), [Card(14, 's')], [Card(14, 's')], 1, [Card(14, 's'), Card(2, 'd')]);
    assert [Card(2, 'd'), Card(14, 's')] == [Card(2, 'd')] + [Card(14, 's')];
  }

  lemma KindTwoResultsSort4()
    ensures SortByRank([Card(2, 'c'), Card(2, 'd'), Card(14, 's')]) == [Card(14, 's'), Card(2, 'c'), Card(2, 'd')]
  {
    KindTwoResultsSort5();
    SortStep(Card(2, 'c'), [Card(2, 'd'), Card(14, 's')], [Card(14, 's'), Card(2, 'd')], 1, [Card(14, 's'), Card(2, 'c'), Card(2, 'd')]);
    assert [Card(2, 'c'), Card(2, 'd'), Card(14, 's')] == [Card(2, 'c')] + [Card(2, 'd'), Card(14, 's')];
  }

  lemma KindTwoResultsSort3()
    ensures SortByRank([Card(2, 's'), Card(2, 'c'), Card(2, 'd'), Card(14, 's')]) == [Card(14, 's'), Card(2, 's'), Card(2, 'c'), Card(2, 'd')]
  {
    KindTwoResultsSort4();
    SortStep(Card(2, 's'), [Card(2, 'c'), Card(2, 'd'), Card(14, 's')], [Card(14, 's'), Card(2, 'c'), Card(2, 'd')], 1, [Card(14, 's'), Card(2, 's'), Card(2, 'c'), Card(2, 'd')]);
    assert [Card(2, 's'), Card(2, 'c'), Card(2, 'd'), Card(14, 's')] == [Card(2, 's')] + [Card(2, 'c'), Card(2, 'd'), Card(14, 's')];
  }

  lemma KindTwoResultsSort2()
    ensures SortByRank([Card(5, 'h'), Card(2, 's'), Card(2, 'c'), Card(2, 'd'), Card(14, 's')]) == [Card(14, 's'), Card(5, 'h'), Card(2, 's'), Card(2, 'c'), Card(2, 'd')]
  {
    KindTwoResultsSort3();
    SortStep(Card(5, 'h'), [Card(2, 's'), Card(2, 'c'), Card(2, 'd'), Card(14, 's')], [Card(14, 's'), Card(2, 's'), Card(2, 'c'), Card(2, 'd')], 1, [Card(14, 's'), Card(5, 'h'), Card(2, 's'), Card(2, 'c'), Card(2, 'd')]);
    assert [Card(5, 'h'), Card(2, 's'), Card(2, 'c'), Card(2, 'd'), Card(14, 's')] == [Card(5, 'h')] + [Card(2, 's'), Card(2, 'c'), Card(2, 'd'), Card(14, 's')];
  }

  lemma KindTwoResultsSort1()
    ensures SortByRank([Card(5, 'c'), Card(5, 'h'), Card(2, 's'), Card(2, 'c'), Card(2, 'd'), Card(14, 's')]) == [Card(14, 's'), Card(5, 'c'), Card(5, 'h'), Card(2, 's'), Card(2, 'c'), Card(2, 'd')]
  {
    KindTwoResultsSort2();
    SortStep(Card(5, 'c'), [Card(5, 'h'), Card(2, 's'), Card(2, 'c'), Card(2, 'd'), Card(14, 's')], [Card(14, 's'), Card(5, 'h'), Card(2, 's'), Card(2, 'c'), Card(2, 'd')], 1, [Card(14, 's'), Card(5, 'c'), Card(5, 'h'), Card(2, 's'), Card(2, 'c'), Card(2, 'd')]);
    assert [Card(5, 'c'), Card(5, 'h'), Card(2, 's'), Card(2, 'c'), Card(2, 'd'), Card(14, 's')] == [Card(5, 'c')] + [Card(5, 'h'), Card(2, 's'), Card(2, 'c'), Card(2, 'd'), Card(14, 's')];
  }

  lemma KindTwoResultsSort0()
    ensures SortByRank([Card(5, 'd'), Card(5, 'c'), Card(5, 'h'), Card(2, 's'), Card(2, 'c'), Card(2, 'd'), Card(14, 's')]) == [Card(14, 's'), Card(5, 'd'), Card(5, 'c'), Card(5, 'h'), Card(2, 's'), Card(2, 'c'), Card(2, 'd')]
  {
    KindTwoResultsSort1();
    SortStep(Card(5, 'd'), [Card(5, 'c'), Card(5, 'h'), Card(2, 's'), Card(2, 'c'), Card(2, 'd'), Card(14, 's')], [Card(14, 's'), Card(5, 'c'), Card(5, 'h'), Card(2, 's'), Card(2, 'c'), Card(2, 'd')], 1, [Card(14, 's'), Card(5, 'd'), Card(5, 'c'), Card(5, 'h'), Card(2, 's'), Card(2, 'c'), Card(2, 'd')]);
    assert [Card(5, 'd'), Card(5, 'c'), Card(5, 'h'), Card(2, 's'), Card(2, 'c'), Card(2, 'd'), Card(14, 's')] == [Card(5, 'd')] + [Card(5, 'c'), Card(5, 'h'), Card(2, 's'), Card(2, 'c'), Card(2, 'd'), Card(14, 's')];
  }

  lemma KindTwoResultsSorted(h: seq<Card>)
    requires Same(h, [Card(5, 'd'), Card(5, 'c'), Card(5, 'h'), Card(2, 's'), Card(2, 'c'), Card(2, 'd'), Card(14, 's')])
    ensures Same(SortByRank(h), [Card(14, 's'), Card(5, 'd'), Card(5, 'c'), Card(5, 'h'), Card(2, 's'), Card(2, 'c'), Card(2, 'd')])
  {
    SameEq(h, [Card(5, 'd'), Card(5, 'c'), Card(5, 'h'), Card(2, 's'), Card(2, 'c'), Card(2, 'd'), Card(14, 's')]);
    KindTwoResultsSort0();
    SameEq(SortByRank(h), [Card(14, 's'), Card(5, 'd'), Card(5, 'c'), Card(5, 'h'), Card(2, 's'), Card(2, 'c'), Card(2, 'd')]);
  }

  lemma KindTwoResultsSortedRanks(h: seq<Card>)
    requires Same(h, [Card(5, 'd'), Card(5, 'c'), Card(5, 'h'), Card(2, 's'), Card(2, 'c'), Card(2, 'd'), Card(14, 's')])
    ensures Ranks(SortByRank(h)) == [14, 5, 5, 5, 2, 2, 2]
  {
    KindTwoResultsSorted(h);
    SameEq(SortByRank(h), [Card(14, 's'), Card(5, 'd'), Card(5, 'c'), Card(5, 'h'), Card(2, 's'), Card(2, 'c'), Card(2, 'd')]);
    KindTwoResultsFact6();
  }

  lemma KindTwoResultsFact1()
    ensures Dedup([14, 5, 5, 5, 2, 2, 2]) == [14, 5, 2]
  {
  }

  lemma KindTwoResultsFact2()
    ensures Occ([14, 5, 5, 5, 2, 2, 2], 5) >= 3
  {
  }

  lemma KindTwoResultsFact3()
    ensures forall j :: 0 <= j < 1 ==> Occ([14, 5, 5, 5, 2, 2, 2], [14, 5, 2][j]) < 3
  {
  }

  lemma KindTwoResultsFact4()
    ensures [5] + Take(Outside([14, 5, 5, 5, 2, 2, 2], [5]), 2) == [5, 14, 2]
  {
  }

  lemma KindTwoResultsFact5()
    ensures KindFacts(3, [14, 5, 5, 5, 2, 2, 2], [14, 5, 2], 1, [5, 14, 2])
  {
    KindTwoResultsFact1();
    KindTwoResultsFact2();
    KindTwoResultsFact3();
    KindTwoResultsFact4();
  }

  lemma KindTwoResultsFact6()
    ensures Ranks([Card(14, 's'), Card(5, 'd'), Card(5, 'c'), Card(5, 'h'), Card(2, 's'), Card(2, 'c'), Card(2, 'd')]) == [14, 5, 5, 5, 2, 2, 2]
  {
  }

  lemma KindTwoResultsLength(h: seq<Card>)
    requires Same(h, [Card(5, 'd'), Card(5, 'c'), Card(5, 'h'), Card(2, 's'), Card(2, 'c'), Card(2, 'd'), Card(14, 's')])
    ensures |h| == 7
  {
    SameEq(h, [Card(5, 'd'), Card(5, 'c'), Card(5, 'h'), Card(2, 's'), Card(2, 'c'), Card(2, 'd'), Card(14, 's')]);
  }

  lemma KindTwoResultsResult(h: seq<Card>)
    requires Same(h, [Card(5, 'd'), Card(5, 'c'), Card(5, 'h'), Card(2, 's'), Card(2, 'c'), Card(2, 'd'), Card(14, 's')])
    ensures NOfAKind(3, h) == Some([5, 14, 2])
  {
    KindTwoResultsFact5();
    KindTwoResultsSortedRanks(h);
    KindIs(3, h, [14, 5, 2], 1, [5, 14, 2]);
  }

  /** The expected result of the unit test KindTwoResults. */
  lemma KindTwoResults(h: seq<Card>)
    requires Same(h, DecodeAll(["5d", "5c", "5h", "2s", "2c", "2d", "As"]))
    ensures NOfAKind(3, h) == Some([5, 14, 2]) && NOfAKind(3, SortByRank(h)) == Some([5, 14, 2])
  {
    KindTwoResultsDecoded();
    KindTwoResultsResult(h);
    KindTwoResultsLength(h);
    DetectorsSorted(h);
  }

  // KindBiggerN, ranking.py:170

  lemma KindBiggerNDecoded6()
    ensures ValidTokens(["5d"]) && DecodeAll(["5d"]) == [Card(5, 'd')]
  {
  }

  lemma KindBiggerNDecoded5()
    ensures ValidTokens(["5d", "5d"]) && DecodeAll(["5d", "5d"]) == [Card(5, 'd'), Card(5, 'd')]
  {
    KindBiggerNDecoded6();
  }

  lemma KindBiggerNDecoded4()
    ensures ValidTokens(["5c", "5d", "5d"]) && DecodeAll(["5c", "5d", "5d"]) == [Card(5, 'c'), Card(5, 'd'), Card(5, 'd')]
  {
    KindBiggerNDecoded5();
  }

  lemma KindBiggerNDecoded3()
    ensures ValidTokens(["10c", "5c", "5d", "5d"]) && DecodeAll(["10c", "5c", "5d", "5d"]) == [Card(10, 'c'), Card(5, 'c'), Card(5, 'd'), Card(5, 'd')]
  {
    KindBiggerNDecoded4();
  }

  lemma KindBiggerNDecoded2()
    ensures ValidTokens(["As", "10c", "5c", "5d", "5d"]) && DecodeAll(["As", "10c", "5c", "5d", "5d"]) == [Card(14, 's'), Card(10, 'c'), Card(5, 'c'), Card(5, 'd'), Card(5, 'd')]
  {
    KindBiggerNDecoded3();
  }

  lemma KindBiggerNDecoded1()
    ensures ValidTokens(["Jh", "As", "10c", "5c", "5d", "5d"]) && DecodeAll(["Jh", "As", "10c", "5c", "5d", "5d"]) == [Card(11, 'h'), Card(14, 's'), Card(10, 'c'), Card(5, 'c'), Card(5, 'd'), Card(5, 'd')]
  {
    KindBiggerNDecoded2();
  }

  lemma KindBiggerNDecoded()
    ensures ValidTokens(["5d", "Jh", "As", "10c", "5c", "5d", "5d"]) && DecodeAll(["5d", "Jh", "As", "10c", "5c", "5d", "5d"]) == [Card(5, 'd'), Card(11, 'h'), Card(14, 's'), Card(10, 'c'), Card(5, 'c'), Card(5, 'd'), Card(5, 'd')]
  {
    KindBiggerNDecoded1();
  }

  lemma KindBiggerNSort6()
    ensures SortByRank([Card(5, 'd')]) == [Card(5, 'd')]
  {
  }

  lemma KindBiggerNSort5()
    ensures SortByRank([Card(5, 'd'), Card(5, 'd')]) == [Card(5, 'd'), Card(5, 'd')]
  {
    KindBiggerNSort6();
    SortStep(Card(5, 'd'), [Card(5, 'd')], [Card(5, 'd')], 0, [Card(5, 'd'), Card(5, 'd')]);
    assert [Card(5, 'd'), Card(5, 'd')] == [Card(5, 'd')] + [Card(5, 'd')];
  }

  lemma KindBiggerNSort4()
    ensures SortByRank([Card(5, 'c'), Card(5, 'd'), Card(5, 'd')]) == [Card(5, 'c'), Card(5, 'd'), Card(5, 'd')]
  {
    KindBiggerNSort5();
    SortStep(Card(5, 'c'), [Card(5, 'd'), Card(5, 'd')], [Card(5, 'd'), Card(5, 'd')], 0, [Card(5, 'c'), Card(5, 'd'), Card(5, 'd')]);
    assert [Card(5, 'c'), Card(5, 'd'), Card(5, 'd')] == [Card(5, 'c')] + [Card(5, 'd'), Card(5, 'd')];
  }

  lemma KindBiggerNSort3()
    ensures SortByRank([Card(10, 'c'), Card(5, 'c'), Card(5, 'd'), Card(5, 'd')]) == [Card(10, 'c'), Card(5, 'c'), Card(5, 'd'), Card(5, 'd')]
  {
    KindBiggerNSort4();
    SortStep(Card(10, 'c'), [Card(5, 'c'), Card(5, 'd'), Card(5, 'd')], [Card(5, 'c'), Card(5, 'd'), Card(5, 'd')], 0, [Card(10, 'c'), Card(5, 'c'), Card(5, 'd'), Card(5, 'd')]);
    assert [Card(10, 'c'), Card(5, 'c'), Card(5, 'd'), Card(5, 'd')] == [Card(10, 'c')] + [Card(5, 'c'), Card(5, 'd'), Card(5, 'd')];
  }

  lemma KindBiggerNSort2()
    ensures SortByRank([Card(14, 's'), Card(10, 'c'), Card(5, 'c'), Card(5, 'd'), Card(5, 'd')]) == [Card(14, 's'), Card(10, 'c'), Card(5, 'c'), Card(5, 'd'), Card(5, 'd')]
  {
    KindBiggerNSort3();
    SortStep(Card(14, 's'), [Card(10, 'c'), Card(5, 'c'), Card(5, 'd'), Card(5, 'd')], [Card(10, 'c'), Card(5, 'c'), Card(5, 'd'), Card(5, 'd')], 0, [Card(14, 's'), Card(10, 'c'), Card(5, 'c'), Card(5, 'd'), Card(5, 'd')]);
    assert [Card(14, 's'), Card(10, 'c'), Card(5, 'c'), Card(5, 'd'), Card(5, 'd')] == [Card(14, 's')] + [Card(10, 'c'), Card(5, 'c'), Card(5, 'd'), Card(5, 'd')];
  }

  lemma KindBiggerNSort1()
    ensures SortByRank([Card(11, 'h'), Card(14, 's'), Card(10, 'c'), Card(5, 'c'), Card(5, 'd'), Card(5, 'd')]) == [Card(14, 's'), Card(11, 'h'), Card(10, 'c'), Card(5, 'c'), Card(5, 'd'), Card(5, 'd')]
  {
    KindBiggerNSort2();
    SortStep(Card(11, 'h'), [Card(14, 's'), Card(10, 'c'), Card(5, 'c'), Card(5, 'd'), Card(5, 'd')], [Card(14, 's'), Card(10, 'c'), Card(5, 'c'), Card(5, 'd'), Card(5, 'd')], 1, [Card(14, 's'), Card(11, 'h'), Card(10, 'c'), Card(5, 'c'), Card(5, 'd'), Card(5, 'd')]);
    assert [Card(11, 'h'), Card(14, 's'), Card(10, 'c'), Card(5, 'c'), Card(5, 'd'), Card(5, 'd')] == [Card(11, 'h')] + [Card(14, 's'), Card(10, 'c'), Card(5, 'c'), Card(5, 'd'), Card(5, 'd')];
  }

  lemma KindBiggerNSort0()
    ensures SortByRank([Card(5, 'd'), Card(11, 'h'), Card(14, 's'), Card(10, 'c'), Card(5, 'c'), Card(5, 'd'), Card(5, 'd')]) == [Card(14, 's'), Card(11, 'h'), Card(10, 'c'), Card(5, 'd'), Card(5, 'c'), Card(5, 'd'), Card(5, 'd')]
  {
    KindBiggerNSort1();
    SortStep(Card(5, 'd'), [Card(11, 'h'), Card(14, 's'), Card(10, 'c'), Card(5, 'c'), Card(5, 'd'), Card(5, 'd')], [Card(14, 's'), Card(11, 'h'), Card(10, 'c'), Card(5, 'c'), Card(5, 'd'), Card(5, 'd')], 3, [Card(14, 's'), Card(11, 'h'), Card(10, 'c'), Card(5, 'd'), Card(5, 'c'), Card(5, 'd'), Card(5, 'd')]);
    assert [Card(5, 'd'), Card(11, 'h'), Card(14, 's'), Card(10, 'c'), Card(5, 'c'), Card(5, 'd'), Card(5, 'd')] == [Card(5, 'd')] + [Card(11, 'h'), Card(14, 's'), Card(10, 'c'), Card(5, 'c'), Card(5, 'd'), Card(5, 'd')];
  }

  lemma KindBiggerNSorted(h: seq<Card>)
    requires Same(h, [Card(5, 'd'), Card(11, 'h'), Card(14, 's'), Card(10, 'c'), Card(5, 'c'), Card(5, 'd'), Card(5, 'd')])
    ensures Same(SortByRank(h), [Card(14, 's'), Card(11, 'h'), Card(10, 'c'), Card(5, 'd'), Card(5, 'c'), Card(5, 'd'), Card(5, 'd')])
  {
    SameEq(h, [Card(5, 'd'), Card(11, 'h'), Card(14, 's'), Card(10, 'c'), Card(5, 'c'), Card(5, 'd'), Card(5, 'd')]);
    KindBiggerNSort0();
    SameEq(SortByRank(h), [Card(14, 's'), Card(11, 'h'), Card(10, 'c'), Card(5, 'd'), Card(5, 'c'), Card(5, 'd'), Card(5, 'd')]);
  }

  lemma KindBiggerNSortedRanks(h: seq<Card>)
    requires Same(h, [Card(5, 'd'), Card(11, 'h'), Card(14, 's'), Card(10, 'c'), Card(5, 'c'), Card(5, 'd'), Card(5, 'd')])
    ensures Ranks(SortByRank(h)) == [14, 11, 10, 5, 5, 5, 5]
  {
    KindBiggerNSorted(h);
    SameEq(SortByRank(h), [Card(14, 's'), Card(11, 'h'), Card(10, 'c'), Card(5, 'd'), Card(5, 'c'), Card(5, 'd'), Card(5, 'd')]);
    KindBiggerNFact6();
  }

  lemma KindBiggerNFact1()
    ensures Dedup([14, 11, 10, 5, 5, 5, 5]) == [14, 11, 10, 5]
  {
  }

  lemma KindBiggerNFact2()
    ensures Occ([14, 11, 10, 5, 5, 5, 5], 5) >= 4
  {
  }

  lemma KindBiggerNFact3()
    ensures forall j :: 0 <= j < 3 ==> Occ([14, 11, 10, 5, 5, 5, 5], [14, 11, 10, 5][j]) < 4
  {
  }

  lemma KindBiggerNFact4()
    ensures [5] + Take(Outside([14, 11, 10, 5, 5, 5, 5], [5]), 1) == [5, 14]
  {
  }

  lemma KindBiggerNFact5()
    ensures KindFacts(4, [14, 11, 10, 5, 5, 5, 5], [14, 11, 10, 5], 3, [5, 14])
  {
    KindBiggerNFact1();
    KindBiggerNFact2();
    KindBiggerNFact3();
    KindBiggerNFact4();
  }

  lemma KindBiggerNFact6()
    ensures Ranks([Card(14, 's'), Card(11, 'h'), Card(10, 'c'), Card(5, 'd'), Card(5, 'c'), Card(5, 'd'), Card(5, 'd')]) == [14, 11, 10, 5, 5, 5, 5]
  {
  }

  lemma KindBiggerNLength(h: seq<Card>)
    requires Same(h, [Card(5, 'd'), Card(11, 'h'), Card(14, 's'), Card(10, 'c'), Card(5, 'c'), Card(5, 'd'), Card(5, 'd')])
    ensures |h| == 7
  {
    SameEq(h, [Card(5, 'd'), Card(11, 'h'), Card(14, 's'), Card(10, 'c'), Card(5, 'c'), Card(5, 'd'), Card(5, 'd')]);
  }

  lemma KindBiggerNResult(h: seq<Card>)
    requires Same(h, [Card(5, 'd'), Card(11, 'h'), Card(14, 's'), Card(10, 'c'), Card(5, 'c'), Card(5, 'd'), Card(5, 'd')])
    ensures NOfAKind(4, h) == Some([5, 14])
  {
    KindBiggerNFact5();
    KindBiggerNSortedRanks(h);
    KindIs(4, h, [14, 11, 10, 5], 3, [5, 14]);
  }

  /** The expected result of the unit test KindBiggerN. */
  lemma KindBiggerN(h: seq<Card>)
    requires Same(h, DecodeAll(["5d", "Jh", "As", "10c", "5c", "5d", "5d"]))
    ensures NOfAKind(4, h) == Some([5, 14]) && NOfAKind(4, SortByRank(h)) == Some([5, 14])
  {
    KindBiggerNDecoded();
    KindBiggerNResult(h);
    KindBiggerNLength(h);
    DetectorsSorted(h);
  }

  // TwoPairsNotFound, ranking.py:176

  lemma TwoPairsNotFoundDecoded6()
    ensures ValidTokens(["4d"]) && DecodeAll(["4d"]) == [Card(4, 'd')]
  {
  }

  lemma TwoPairsNotFoundDecoded5()
    ensures ValidTokens(["3d", "4d"]) && DecodeAll(["3d", "4d"]) == [Card(3, 'd'), Card(4, 'd')]
  {
    TwoPairsNotFoundDecoded6();
  }

  lemma TwoPairsNotFoundDecoded4()
    ensures ValidTokens(["2c", "3d", "4d"]) && DecodeAll(["2c", "3d", "4d"]) == [Card(2, 'c'), Card(3, 'd'), Card(4, 'd')]
  {
    TwoPairsNotFoundDecoded5();
  }

  lemma TwoPairsNotFoundDecoded3()
    ensures ValidTokens(["5c", "2c", "3d", "4d"]) && DecodeAll(["5c", "2c", "3d", "4d"]) == [Card(5, 'c'), Card(2, 'c'), Card(3, 'd'), Card(4, 'd')]
  {
    TwoPairsNotFoundDecoded4();
  }

  lemma TwoPairsNotFoundDecoded2()
    ensures ValidTokens(["As", "5c", "2c", "3d", "4d"]) && DecodeAll(["As", "5c", "2c", "3d", "4d"]) == [Card(14, 's'), Card(5, 'c'), Card(2, 'c'), Card(3, 'd'), Card(4, 'd')]
  {
    TwoPairsNotFoundDecoded3();
  }

  lemma TwoPairsNotFoundDecoded1()
    ensures ValidTokens(["Jh", "As", "5c", "2c", "3d", "4d"]) && DecodeAll(["Jh", "As", "5c", "2c", "3d", "4d"]) == [Card(11, 'h'), Card(14, 's'), Card(5, 'c'), Card(2, 'c'), Card(3, 'd'), Card(4, 'd')]
  {
    TwoPairsNotFoundDecoded2();
  }

  lemma TwoPairsNotFoundDecoded()
    ensures ValidTokens(["5d", "Jh", "As", "5c", "2c", "3d", "4d"]) && DecodeAll(["5d", "Jh", "As", "5c", "2c", "3d", "4d"]) == [Card(5, 'd'), Card(11, 'h'), Card(14, 's'), Card(5, 'c'), Card(2, 'c'), Card(3, 'd'), Card(4, 'd')]
  {
    TwoPairsNotFoundDecoded1();
  }

  lemma TwoPairsNotFoundCards(h: seq<Card>)
    requires Same(h, [Card(5, 'd'), Card(11, 'h'), Card(14, 's'), Card(5, 'c'), Card(2, 'c'), Card(3, 'd'), Card(4, 'd')])
    ensures |h| == 7 && Ranks(h) == [5, 11, 14, 5, 2, 3, 4] && SuitsOf(h) == ['d', 'h', 's', 'c', 'c', 'd', 'd']
  {
    SameEq(h, [Card(5, 'd'), Card(11, 'h'), Card(14, 's'), Card(5, 'c'), Card(2, 'c'), Card(3, 'd'), Card(4, 'd')]);
    TwoPairsNotFoundFact2();
    TwoPairsNotFoundFact3();
  }

  lemma TwoPairsNotFoundFact1()
    ensures forall a, b :: Occ([5, 11, 14, 5, 2, 3, 4], a) == 2 && Occ([5, 11, 14, 5, 2, 3, 4], b) == 2 ==> a == b
  {
  }

  lemma TwoPairsNotFoundFact2()
    ensures Ranks([Card(5, 'd'), Card(11, 'h'), Card(14, 's'), Card(5, 'c'), Card(2, 'c'), Card(3, 'd'), Card(4, 'd')]) == [5, 11, 14, 5, 2, 3, 4]
  {
  }

  lemma TwoPairsNotFoundFact3()
    ensures SuitsOf([Card(5, 'd'), Card(11, 'h'), Card(14, 's'), Card(5, 'c'), Card(2, 'c'), Card(3, 'd'), Card(4, 'd')]) == ['d', 'h', 's', 'c', 'c', 'd', 'd']
  {
  }

  lemma TwoPairsNotFoundLength(h: seq<Card>)
    requires Same(h, [Card(5, 'd'), Card(11, 'h'), Card(14, 's'), Card(5, 'c'), Card(2, 'c'), Card(3, 'd'), Card(4, 'd')])
    ensures |h| == 7
  {
    SameEq(h, [Card(5, 'd'), Card(11, 'h'), Card(14, 's'), Card(5, 'c'), Card(2, 'c'), Card(3, 'd'), Card(4, 'd')]);
  }

  lemma TwoPairsNotFoundResult(h: seq<Card>)
    requires Same(h, [Card(5, 'd'), Card(11, 'h'), Card(14, 's'), Card(5, 'c'), Card(2, 'c'), Card(3, 'd'), Card(4, 'd')])
    ensures TwoPairs(h) == None
  {
    TwoPairsNotFoundCards(h);
    TwoPairsNotFoundFact1();
    OnePairOnly(h, [5, 11, 14, 5, 2, 3, 4]);
  }

  /** The expected result of the unit test TwoPairsNotFound. */
  lemma TwoPairsNotFound(h: seq<Card>)
    requires Same(h, DecodeAll(["5d", "Jh", "As", "5c", "2c", "3d", "4d"]))
    ensures TwoPairs(h) == None && TwoPairs(SortByRank(h)) == None
  {
    TwoPairsNotFoundDecoded();
    TwoPairsNotFoundResult(h);
    TwoPairsNotFoundLength(h);
    DetectorsSorted(h);
  }

  // TwoPairsFound, ranking.py:180

  lemma TwoPairsFoundDecoded6()
    ensures ValidTokens(["4d"]) && DecodeAll(["4d"]) == [Card(4, 'd')]
  {
  }

  lemma TwoPairsFoundDecoded5()
    ensures ValidTokens(["2d", "4d"]) && DecodeAll(["2d", "4d"]) == [Card(2, 'd'), Card(4, 'd')]
  {
    TwoPairsFoundDecoded6();
  }

  lemma TwoPairsFoundDecoded4()
    ensures ValidTokens(["2c", "2d", "4d"]) && DecodeAll(["2c", "2d", "4d"]) == [Card(2, 'c'), Card(2, 'd'), Card(4, 'd')]
  {
    TwoPairsFoundDecoded5();
  }

  lemma TwoPairsFoundDecoded3()
    ensures ValidTokens(["5c", "2c", "2d", "4d"]) && DecodeAll(["5c", "2c", "2d", "4d"]) == [Card(5, 'c'), Card(2, 'c'), Card(2, 'd'), Card(4, 'd')]
  {
    TwoPairsFoundDecoded4();
  }

  lemma TwoPairsFoundDecoded2()
    ensures ValidTokens(["As", "5c", "2c", "2d", "4d"]) && DecodeAll(["As", "5c", "2c", "2d", "4d"]) == [Card(14, 's'), Card(5, 'c'), Card(2, 'c'), Card(2, 'd'), Card(4, 'd')]
  {
    TwoPairsFoundDecoded3();
  }

  lemma TwoPairsFoundDecoded1()
    ensures ValidTokens(["Jh", "As", "5c", "2c", "2d", "4d"]) && DecodeAll(["Jh", "As", "5c", "2c", "2d", "4d"]) == [Card(11, 'h'), Card(14, 's'), Card(5, 'c'), Card(2, 'c'), Card(2, 'd'), Card(4, 'd')]
  {
    TwoPairsFoundDecoded2();
  }

  lemma TwoPairsFoundDecoded()
    ensures ValidTokens(["5d", "Jh", "As", "5c", "2c", "2d", "4d"]) && DecodeAll(["5d", "Jh", "As", "5c", "2c", "2d", "4d"]) == [Card(5, 'd'), Card(11, 'h'), Card(14, 's'), Card(5, 'c'), Card(2, 'c'), Card(2, 'd'), Card(4, 'd')]
  {
    TwoPairsFoundDecoded1();
  }

  lemma TwoPairsFoundCards(h: seq<Card>)
    requires Same(h, [Card(5, 'd'), Card(11, 'h'), Card(14, 's'), Card(5, 'c'), Card(2, 'c'), Card(2, 'd'), Card(4, 'd')])
    ensures |h| == 7 && Ranks(h) == [5, 11, 14, 5, 2, 2, 4] && SuitsOf(h) == ['d', 'h', 's', 'c', 'c', 'd', 'd']
  {
    SameEq(h, [Card(5, 'd'), Card(11, 'h'), Card(14, 's'), Card(5, 'c'), Card(2, 'c'), Card(2, 'd'), Card(4, 'd')]);
    TwoPairsFoundFact4();
    TwoPairsFoundFact5();
  }

  lemma TwoPairsFoundFact1()
    ensures Occ([5, 11, 14, 5, 2, 2, 4], 5) == 2 && Occ([5, 11, 14, 5, 2, 2, 4], 2) == 2
  {
  }

  lemma TwoPairsFoundFact2()
    ensures forall r :: Occ([5, 11, 14, 5, 2, 2, 4], r) == 2 ==> r == 5 || r <= 2
  {
  }

  lemma TwoPairsFoundFact3()
    ensures 14 in [5, 11, 14, 5, 2, 2, 4] && forall x :: x in [5, 11, 14, 5, 2, 2, 4] && x != 5 && x != 2 ==> x <= 14
  {
  }

  lemma TwoPairsFoundFact4()
    ensures Ranks([Card(5, 'd'), Card(11, 'h'), Card(14, 's'), Card(5, 'c'), Card(2, 'c'), Card(2, 'd'), Card(4, 'd')]) == [5, 11, 14, 5, 2, 2, 4]
  {
  }

  lemma TwoPairsFoundFact5()
    ensures SuitsOf([Card(5, 'd'), Card(11, 'h'), Card(14, 's'), Card(5, 'c'), Card(2, 'c'), Card(2, 'd'), Card(4, 'd')]) == ['d', 'h', 's', 'c', 'c', 'd', 'd']
  {
  }

  lemma TwoPairsFoundLength(h: seq<Card>)
    requires Same(h, [Card(5, 'd'), Card(11, 'h'), Card(14, 's'), Card(5, 'c'), Card(2, 'c'), Card(2, 'd'), Card(4, 'd')])
    ensures |h| == 7
  {
    SameEq(h, [Card(5, 'd'), Card(11, 'h'), Card(14, 's'), Card(5, 'c'), Card(2, 'c'), Card(2, 'd'), Card(4, 'd')]);
  }

  lemma TwoPairsFoundResult(h: seq<Card>)
    requires Same(h, [Card(5, 'd'), Card(11, 'h'), Card(14, 's'), Card(5, 'c'), Card(2, 'c'), Card(2, 'd'), Card(4, 'd')])
    ensures TwoPairs(h) == Some([5, 2, 14])
  {
    TwoPairsFoundCards(h);
    TwoPairsFoundFact1();
    TwoPairsFoundFact2();
    TwoPairsFoundFact3();
    TwoPairsIs(h, [5, 11, 14, 5, 2, 2, 4], 5, 2, 14);
  }

  /** The expected result of the unit test TwoPairsFound. */
  lemma TwoPairsFound(h: seq<Card>)
    requires Same(h, DecodeAll(["5d", "Jh", "As", "5c", "2c", "2d", "4d"]))
    ensures TwoPairs(h) == Some([5, 2, 14]) && TwoPairs(SortByRank(h)) == Some([5, 2, 14])
  {
    TwoPairsFoundDecoded();
    TwoPairsFoundResult(h);
    TwoPairsFoundLength(h);
    DetectorsSorted(h);
  }

  // TwoPairsOnlyFourCards, ranking.py:184

  lemma TwoPairsOnlyFourCardsDecoded3()
    ensures ValidTokens(["2d"]) && DecodeAll(["2d"]) == [Card(2, 'd')]
  {
  }

  lemma TwoPairsOnlyFourCardsDecoded2()
    ensures ValidTokens(["2c", "2d"]) && DecodeAll(["2c", "2d"]) == [Card(2, 'c'), Card(2, 'd')]
  {
    TwoPairsOnlyFourCardsDecoded3();
  }

  lemma TwoPairsOnlyFourCardsDecoded1()
    ensures ValidTokens(["5c", "2c", "2d"]) && DecodeAll(["5c", "2c", "2d"]) == [Card(5, 'c'), Card(2, 'c'), Card(2, 'd')]
  {
    TwoPairsOnlyFourCardsDecoded2();
  }

  lemma TwoPairsOnlyFourCardsDecoded()
    ensures ValidTokens(["5d", "5c", "2c", "2d"]) && DecodeAll(["5d", "5c", "2c", "2d"]) == [Card(5, 'd'), Card(5, 'c'), Card(2, 'c'), Card(2, 'd')]
  {
    TwoPairsOnlyFourCardsDecoded1();
  }

  lemma TwoPairsOnlyFourCardsCards(h: seq<Card>)
    requires Same(h, [Card(5, 'd'), Card(5, 'c'), Card(2, 'c'), Card(2, 'd')])
    ensures |h| == 4 && Ranks(h) == [5, 5, 2, 2] && SuitsOf(h) == ['d', 'c', 'c', 'd']
  {
    SameEq(h, [Card(5, 'd'), Card(5, 'c'), Card(2, 'c'), Card(2, 'd')]);
    TwoPairsOnlyFourCardsFact3();
    TwoPairsOnlyFourCardsFact4();
  }

  lemma TwoPairsOnlyFourCardsFact1()
    ensures Occ([5, 5, 2, 2], 5) == 2 && Occ([5, 5, 2, 2], 2) == 2
  {
  }

  lemma TwoPairsOnlyFourCardsFact2()
    ensures forall r :: Occ([5, 5, 2, 2], r) == 2 ==> r == 5 || r == 2
  {
  }

  lemma TwoPairsOnlyFourCardsFact3()
    ensures Ranks([Card(5, 'd'), Card(5, 'c'), Card(2, 'c'), Card(2, 'd')]) == [5, 5, 2, 2]
  {
  }

  lemma TwoPairsOnlyFourCardsFact4()
    ensures SuitsOf([Card(5, 'd'), Card(5, 'c'), Card(2, 'c'), Card(2, 'd')]) == ['d', 'c', 'c', 'd']
  {
  }

  lemma TwoPairsOnlyFourCardsLength(h: seq<Card>)
    requires Same(h, [Card(5, 'd'), Card(5, 'c'), Card(2, 'c'), Card(2, 'd')])
    ensures |h| == 4
  {
    SameEq(h, [Card(5, 'd'), Card(5, 'c'), Card(2, 'c'), Card(2, 'd')]);
  }

  lemma TwoPairsOnlyFourCardsResult(h: seq<Card>)
    requires Same(h, [Card(5, 'd'), Card(5, 'c'), Card(2, 'c'), Card(2, 'd')])
    ensures TwoPairs(h) == Some([5, 2])
  {
    TwoPairsOnlyFourCardsCards(h);
    TwoPairsOnlyFourCardsFact1();
    TwoPairsOnlyFourCardsFact2();
    TwoPairsOfFour(h, [5, 5, 2, 2], 5, 2);
  }

  /** The expected result of the unit test TwoPairsOnlyFourCards. */
  lemma TwoPairsOnlyFourCards(h: seq<Card>)
    requires Same(h, DecodeAll(["5d", "5c", "2c", "2d"]))
    ensures TwoPairs(h) == Some([5, 2]) && TwoPairs(SortByRank(h)) == Some([5, 2])
  {
    TwoPairsOnlyFourCardsDecoded();
    TwoPairsOnlyFourCardsResult(h);
    TwoPairsOnlyFourCardsLength(h);
    DetectorsSorted(h);
  }

  // TwoPairsThreePairs, ranking.py:188

  lemma TwoPairsThreePairsDecoded6()
    ensures ValidTokens(["Jd"]) && DecodeAll(["Jd"]) == [Card(11, 'd')]
  {
  }

  lemma TwoPairsThreePairsDecoded5()
    ensures ValidTokens(["Jd", "Jd"]) && DecodeAll(["Jd", "Jd"]) == [Card(11, 'd'), Card(11, 'd')]
  {
    TwoPairsThreePairsDecoded6();
  }

  lemma TwoPairsThreePairsDecoded4()
    ensures ValidTokens(["2c", "Jd", "Jd"]) && DecodeAll(["2c", "Jd", "Jd"]) == [Card(2, 'c'), Card(11, 'd'), Card(11, 'd')]
  {
    TwoPairsThreePairsDecoded5();
  }

  lemma TwoPairsThreePairsDecoded3()
    ensures ValidTokens(["5c", "2c", "Jd", "Jd"]) && DecodeAll(["5c", "2c", "Jd", "Jd"]) == [Card(5, 'c'), Card(2, 'c'), Card(11, 'd'), Card(11, 'd')]
  {
    TwoPairsThreePairsDecoded4();
  }

  lemma TwoPairsThreePairsDecoded2()
    ensures ValidTokens(["As", "5c", "2c", "Jd", "Jd"]) && DecodeAll(["As", "5c", "2c", "Jd", "Jd"]) == [Card(14, 's'), Card(5, 'c'), Card(2, 'c'), Card(11, 'd'), Card(11, 'd')]
  {
    TwoPairsThreePairsDecoded3();
  }

  lemma TwoPairsThreePairsDecoded1()
    ensures ValidTokens(["2h", "As", "5c", "2c", "Jd", "Jd"]) && DecodeAll(["2h", "As", "5c", "2c", "Jd", "Jd"]) == [Card(2, 'h'), Card(14, 's'), Card(5, 'c'), Card(2, 'c'), Card(11, 'd'), Card(11, 'd')]
  {
    TwoPairsThreePairsDecoded2();
  }

  lemma TwoPairsThreePairsDecoded()
    ensures ValidTokens(["5d", "2h", "As", "5c", "2c", "Jd", "Jd"]) && DecodeAll(["5d", "2h", "As", "5c", "2c", "Jd", "Jd"]) == [Card(5, 'd'), Card(2, 'h'), Card(14, 's'), Card(5, 'c'), Card(2, 'c'), Card(11, 'd'), Card(11, 'd')]
  {
    TwoPairsThreePairsDecoded1();
  }

  lemma TwoPairsThreePairsCards(h: seq<Card>)
    requires Same(h, [Card(5, 'd'), Card(2, 'h'), Card(14, 's'), Card(5, 'c'), Card(2, 'c'), Card(11, 'd'), Card(11, 'd')])
    ensures |h| == 7 && Ranks(h) == [5, 2, 14, 5, 2, 11, 11] && SuitsOf(h) == ['d', 'h', 's', 'c', 'c', 'd', 'd']
  {
    SameEq(h, [Card(5, 'd'), Card(2, 'h'), Card(14, 's'), Card(5, 'c'), Card(2, 'c'), Card(11, 'd'), Card(11, 'd')]);
    TwoPairsThreePairsFact4();
    TwoPairsThreePairsFact5();
  }

  lemma TwoPairsThreePairsFact1()
    ensures Occ([5, 2, 14, 5, 2, 11, 11], 11) == 2 && Occ([5, 2, 14, 5, 2, 11, 11], 5) == 2
  {
  }

  lemma TwoPairsThreePairsFact2()
    ensures forall r :: Occ([5, 2, 14, 5, 2, 11, 11], r) == 2 ==> r == 11 || r <= 5
  {
  }

  lemma TwoPairsThreePairsFact3()
    ensures 14 in [5, 2, 14, 5, 2, 11, 11] && forall x :: x in [5, 2, 14, 5, 2, 11, 11] && x != 11 && x != 5 ==> x <= 14
  {
  }

  lemma TwoPairsThreePairsFact4()
    ensures Ranks([Card(5, 'd'), Card(2, 'h'), Card(14, 's'), Card(5, 'c'), Card(2, 'c'), Card(11, 'd'), Card(11, 'd')]) == [5, 2, 14, 5, 2, 11, 11]
  {
  }

  lemma TwoPairsThreePairsFact5()
    ensures SuitsOf([Card(5, 'd'), Card(2, 'h'), Card(14, 's'), Card(5, 'c'), Card(2, 'c'), Card(11, 'd'), Card(11, 'd')]) == ['d', 'h', 's', 'c', 'c', 'd', 'd']
  {
  }

  lemma TwoPairsThreePairsLength(h: seq<Card>)
    requires Same(h, [Card(5, 'd'), Card(2, 'h'), Card(14, 's'), Card(5, 'c'), Card(2, 'c'), Card(11, 'd'), Card(11, 'd')])
    ensures |h| == 7
  {
    SameEq(h, [Card(5, 'd'), Card(2, 'h'), Card(14, 's'), Card(5, 'c'), Card(2, 'c'), Card(11, 'd'), Card(11, 'd')]);
  }

  lemma TwoPairsThreePairsResult(h: seq<Card>)
    requires Same(h, [Card(5, 'd'), Card(2, 'h'), Card(14, 's'), Card(5, 'c'), Card(2, 'c'), Card(11, 'd'), Card(11, 'd')])
    ensures TwoPairs(h) == Some([11, 5, 14])
  {
    TwoPairsThreePairsCards(h);
    TwoPairsThreePairsFact1();
    TwoPairsThreePairsFact2();
    TwoPairsThreePairsFact3();
    TwoPairsIs(h, [5, 2, 14, 5, 2, 11, 11], 11, 5, 14);
  }

  /** The expected result of the unit test TwoPairsThreePairs. */
  lemma TwoPairsThreePairs(h: seq<Card>)
    requires Same(h, DecodeAll(["5d", "2h", "As", "5c", "2c", "Jd", "Jd"]))
    ensures TwoPairs(h) == Some([11, 5, 14]) && TwoPairs(SortByRank(h)) == Some([11, 5, 14])
  {
    TwoPairsThreePairsDecoded();
    TwoPairsThreePairsResult(h);
    TwoPairsThreePairsLength(h);
    DetectorsSorted(h);
  }

  // StraightNotFound, ranking.py:194

  lemma StraightNotFoundDecoded6()
    ensures ValidTokens(["Qd"]) && DecodeAll(["Qd"]) == [Card(12, 'd')]
  {
  }

  lemma StraightNotFoundDecoded5()
    ensures ValidTokens(["6d", "Qd"]) && DecodeAll(["6d", "Qd"]) == [Card(6, 'd'), Card(12, 'd')]
  {
    StraightNotFoundDecoded6();
  }

  lemma StraightNotFoundDecoded4()
    ensures ValidTokens(["7c", "6d", "Qd"]) && DecodeAll(["7c", "6d", "Qd"]) == [Card(7, 'c'), Card(6, 'd'), Card(12, 'd')]
  {
    StraightNotFoundDecoded5();
  }

  lemma StraightNotFoundDecoded3()
    ensures ValidTokens(["5c", "7c", "6d", "Qd"]) && DecodeAll(["5c", "7c", "6d", "Qd"]) == [Card(5, 'c'), Card(7, 'c'), Card(6, 'd'), Card(12, 'd')]
  {
    StraightNotFoundDecoded4();
  }

  lemma StraightNotFoundDecoded2()
    ensures ValidTokens(["2s", "5c", "7c", "6d", "Qd"]) && DecodeAll(["2s", "5c", "7c", "6d", "Qd"]) == [Card(2, 's'), Card(5, 'c'), Card(7, 'c'), Card(6, 'd'), Card(12, 'd')]
  {
    StraightNotFoundDecoded3();
  }

  lemma StraightNotFoundDecoded1()
    ensures ValidTokens(["7h", "2s", "5c", "7c", "6d", "Qd"]) && DecodeAll(["7h", "2s", "5c", "7c", "6d", "Qd"]) == [Card(7, 'h'), Card(2, 's'), Card(5, 'c'), Card(7, 'c'), Card(6, 'd'), Card(12, 'd')]
  {
    StraightNotFoundDecoded2();
  }

  lemma StraightNotFoundDecoded()
    ensures ValidTokens(["4d", "7h", "2s", "5c", "7c", "6d", "Qd"]) && DecodeAll(["4d", "7h", "2s", "5c", "7c", "6d", "Qd"]) == [Card(4, 'd'), Card(7, 'h'), Card(2, 's'), Card(5, 'c'), Card(7, 'c'), Card(6, 'd'), Card(12, 'd')]
  {
    StraightNotFoundDecoded1();
  }

  lemma StraightNotFoundCards(h: seq<Card>)
    requires Same(h, [Card(4, 'd'), Card(7, 'h'), Card(2, 's'), Card(5, 'c'), Card(7, 'c'), Card(6, 'd'), Card(12, 'd')])
    ensures |h| == 7 && Ranks(h) == [4, 7, 2, 5, 7, 6, 12] && SuitsOf(h) == ['d', 'h', 's', 'c', 'c', 'd', 'd']
  {
    SameEq(h, [Card(4, 'd'), Card(7, 'h'), Card(2, 's'), Card(5, 'c'), Card(7, 'c'), Card(6, 'd'), Card(12, 'd')]);
    StraightNotFoundFact2();
    StraightNotFoundFact3();
  }

  lemma StraightNotFoundFact1()
    ensures forall t :: !TopIn([4, 7, 2, 5, 7, 6, 12], t)
  {
  }

  lemma StraightNotFoundFact2()
    ensures Ranks([Card(4, 'd'), Card(7, 'h'), Card(2, 's'), Card(5, 'c'), Card(7, 'c'), Card(6, 'd'), Card(12, 'd')]) == [4, 7, 2, 5, 7, 6, 12]
  {
  }

  lemma StraightNotFoundFact3()
    ensures SuitsOf([Card(4, 'd'), Card(7, 'h'), Card(2, 's'), Card(5, 'c'), Card(7, 'c'), Card(6, 'd'), Card(12, 'd')]) == ['d', 'h', 's', 'c', 'c', 'd', 'd']
  {
  }

  lemma StraightNotFoundLength(h: seq<Card>)
    requires Same(h, [Card(4, 'd'), Card(7, 'h'), Card(2, 's'), Card(5, 'c'), Card(7, 'c'), Card(6, 'd'), Card(12, 'd')])
    ensures |h| == 7
  {
    SameEq(h, [Card(4, 'd'), Card(7, 'h'), Card(2, 's'), Card(5, 'c'), Card(7, 'c'), Card(6, 'd'), Card(12, 'd')]);
  }

  lemma StraightNotFoundResult(h: seq<Card>)
    requires Same(h, [Card(4, 'd'), Card(7, 'h'), Card(2, 's'), Card(5, 'c'), Card(7, 'c'), Card(6, 'd'), Card(12, 'd')])
    ensures Straight(h) == None
  {
    StraightNotFoundCards(h);
    StraightNotFoundFact1();
    NoStraight(h, [4, 7, 2, 5, 7, 6, 12]);
  }

  /** The expected result of the unit test StraightNotFound. */
  lemma StraightNotFound(h: seq<Card>)
    requires Same(h, DecodeAll(["4d", "7h", "2s", "5c", "7c", "6d", "Qd"]))
    ensures Straight(h) == None && Straight(SortByRank(h)) == None
  {
    StraightNotFoundDecoded();
    StraightNotFoundResult(h);
    StraightNotFoundLength(h);
    DetectorsSorted(h);
  }

  // StraightWithDouble, ranking.py:198

  lemma StraightWithDoubleDecoded6()
    ensures ValidTokens(["Qd"]) && DecodeAll(["Qd"]) == [Card(12, 'd')]
  {
  }

  lemma StraightWithDoubleDecoded5()
    ensures ValidTokens(["6d", "Qd"]) && DecodeAll(["6d", "Qd"]) == [Card(6, 'd'), Card(12, 'd')]
  {
    StraightWithDoubleDecoded6();
  }

  lemma StraightWithDoubleDecoded4()
    ensures ValidTokens(["7c", "6d", "Qd"]) && DecodeAll(["7c", "6d", "Qd"]) == [Card(7, 'c'), Card(6, 'd'), Card(12, 'd')]
  {
    StraightWithDoubleDecoded5();
  }

  lemma StraightWithDoubleDecoded3()
    ensures ValidTokens(["5c", "7c", "6d", "Qd"]) && DecodeAll(["5c", "7c", "6d", "Qd"]) == [Card(5, 'c'), Card(7, 'c'), Card(6, 'd'), Card(12, 'd')]
  {
    StraightWithDoubleDecoded4();
  }

  lemma StraightWithDoubleDecoded2()
    ensures ValidTokens(["8s", "5c", "7c", "6d", "Qd"]) && DecodeAll(["8s", "5c", "7c", "6d", "Qd"]) == [Card(8, 's'), Card(5, 'c'), Card(7, 'c'), Card(6, 'd'), Card(12, 'd')]
  {
    StraightWithDoubleDecoded3();
  }

  lemma StraightWithDoubleDecoded1()
    ensures ValidTokens(["7h", "8s", "5c", "7c", "6d", "Qd"]) && DecodeAll(["7h", "8s", "5c", "7c", "6d", "Qd"]) == [Card(7, 'h'), Card(8, 's'), Card(5, 'c'), Card(7, 'c'), Card(6, 'd'), Card(12, 'd')]
  {
    StraightWithDoubleDecoded2();
  }

  lemma StraightWithDoubleDecoded()
    ensures ValidTokens(["4d", "7h", "8s", "5c", "7c", "6d", "Qd"]) && DecodeAll(["4d", "7h", "8s", "5c", "7c", "6d", "Qd"]) == [Card(4, 'd'), Card(7, 'h'), Card(8, 's'), Card(5, 'c'), Card(7, 'c'), Card(6, 'd'), Card(12, 'd')]
  {
    StraightWithDoubleDecoded1();
  }

  lemma StraightWithDoubleCards(h: seq<Card>)
    requires Same(h, [Card(4, 'd'), Card(7, 'h'), Card(8, 's'), Card(5, 'c'), Card(7, 'c'), Card(6, 'd'), Card(12, 'd')])
    ensures |h| == 7 && Ranks(h) == [4, 7, 8, 5, 7, 6, 12] && SuitsOf(h) == ['d', 'h', 's', 'c', 'c', 'd', 'd']
  {
    SameEq(h, [Card(4, 'd'), Card(7, 'h'), Card(8, 's'), Card(5, 'c'), Card(7, 'c'), Card(6, 'd'), Card(12, 'd')]);
    StraightWithDoubleFact2();
    StraightWithDoubleFact3();
  }

  lemma StraightWithDoubleFact1()
    ensures TopIn([4, 7, 8, 5, 7, 6, 12], 8) && forall t :: t > 8 ==> !TopIn([4, 7, 8, 5, 7, 6, 12], t)
  {
  }

  lemma StraightWithDoubleFact2()
    ensures Ranks([Card(4, 'd'), Card(7, 'h'), Card(8, 's'), Card(5, 'c'), Card(7, 'c'), Card(6, 'd'), Card(12, 'd')]) == [4, 7, 8, 5, 7, 6, 12]
  {
  }

  lemma StraightWithDoubleFact3()
    ensures SuitsOf([Card(4, 'd'), Card(7, 'h'), Card(8, 's'), Card(5, 'c'), Card(7, 'c'), Card(6, 'd'), Card(12, 'd')]) == ['d', 'h', 's', 'c', 'c', 'd', 'd']
  {
  }

  lemma StraightWithDoubleLength(h: seq<Card>)
    requires Same(h, [Card(4, 'd'), Card(7, 'h'), Card(8, 's'), Card(5, 'c'), Card(7, 'c'), Card(6, 'd'), Card(12, 'd')])
    ensures |h| == 7
  {
    SameEq(h, [Card(4, 'd'), Card(7, 'h'), Card(8, 's'), Card(5, 'c'), Card(7, 'c'), Card(6, 'd'), Card(12, 'd')]);
  }

  lemma StraightWithDoubleResult(h: seq<Card>)
    requires Same(h, [Card(4, 'd'), Card(7, 'h'), Card(8, 's'), Card(5, 'c'), Card(7, 'c'), Card(6, 'd'), Card(12, 'd')])
    ensures Straight(h) == Some(8)
  {
    StraightWithDoubleCards(h);
    StraightWithDoubleFact1();
    StraightIs(h, [4, 7, 8, 5, 7, 6, 12], 8);
  }

  /** The expected result of the unit test StraightWithDouble. */
  lemma StraightWithDouble(h: seq<Card>)
    requires Same(h, DecodeAll(["4d", "7h", "8s", "5c", "7c", "6d", "Qd"]))
    ensures Straight(h) == Some(8) && Straight(SortByRank(h)) == Some(8)
  {
    StraightWithDoubleDecoded();
    StraightWithDoubleResult(h);
    StraightWithDoubleLength(h);
    DetectorsSorted(h);
  }

  // StraightSixCards, ranking.py:202

  lemma StraightSixCardsDecoded6()
    ensures ValidTokens(["Qd"]) && DecodeAll(["Qd"]) == [Card(12, 'd')]
  {
  }

  lemma StraightSixCardsDecoded5()
    ensures ValidTokens(["6d", "Qd"]) && DecodeAll(["6d", "Qd"]) == [Card(6, 'd'), Card(12, 'd')]
  {
    StraightSixCardsDecoded6();
  }

  lemma StraightSixCardsDecoded4()
    ensures ValidTokens(["7c", "6d", "Qd"]) && DecodeAll(["7c", "6d", "Qd"]) == [Card(7, 'c'), Card(6, 'd'), Card(12, 'd')]
  {
    StraightSixCardsDecoded5();
  }

  lemma StraightSixCardsDecoded3()
    ensures ValidTokens(["5c", "7c", "6d", "Qd"]) && DecodeAll(["5c", "7c", "6d", "Qd"]) == [Card(5, 'c'), Card(7, 'c'), Card(6, 'd'), Card(12, 'd')]
  {
    StraightSixCardsDecoded4();
  }

  lemma StraightSixCardsDecoded2()
    ensures ValidTokens(["3s", "5c", "7c", "6d", "Qd"]) && DecodeAll(["3s", "5c", "7c", "6d", "Qd"]) == [Card(3, 's'), Card(5, 'c'), Card(7, 'c'), Card(6, 'd'), Card(12, 'd')]
  {
    StraightSixCardsDecoded3();
  }

  lemma StraightSixCardsDecoded1()
    ensures ValidTokens(["8h", "3s", "5c", "7c", "6d", "Qd"]) && DecodeAll(["8h", "3s", "5c", "7c", "6d", "Qd"]) == [Card(8, 'h'), Card(3, 's'), Card(5, 'c'), Card(7, 'c'), Card(6, 'd'), Card(12, 'd')]
  {
    StraightSixCardsDecoded2();
  }

  lemma StraightSixCardsDecoded()
    ensures ValidTokens(["4d", "8h", "3s", "5c", "7c", "6d", "Qd"]) && DecodeAll(["4d", "8h", "3s", "5c", "7c", "6d", "Qd"]) == [Card(4, 'd'), Card(8, 'h'), Card(3, 's'), Card(5, 'c'), Card(7, 'c'), Card(6, 'd'), Card(12, 'd')]
  {
    StraightSixCardsDecoded1();
  }

  lemma StraightSixCardsCards(h: seq<Card>)
    requires Same(h, [Card(4, 'd'), Card(8, 'h'), Card(3, 's'), Card(5, 'c'), Card(7, 'c'), Card(6, 'd'), Card(12, 'd')])
    ensures |h| == 7 && Ranks(h) == [4, 8, 3, 5, 7, 6, 12] && SuitsOf(h) == ['d', 'h', 's', 'c', 'c', 'd', 'd']
  {
    SameEq(h, [Card(4, 'd'), Card(8, 'h'), Card(3, 's'), Card(5, 'c'), Card(7, 'c'), Card(6, 'd'), Card(12, 'd')]);
    StraightSixCardsFact2();
    StraightSixCardsFact3();
  }

  lemma StraightSixCardsFact1()
    ensures TopIn([4, 8, 3, 5, 7, 6, 12], 8) && forall t :: t > 8 ==> !TopIn([4, 8, 3, 5, 7, 6, 12], t)
  {
  }

  lemma StraightSixCardsFact2()
    ensures Ranks([Card(4, 'd'), Card(8, 'h'), Card(3, 's'), Card(5, 'c'), Card(7, 'c'), Card(6, 'd'), Card(12, 'd')]) == [4, 8, 3, 5, 7, 6, 12]
  {
  }

  lemma StraightSixCardsFact3()
    ensures SuitsOf([Card(4, 'd'), Card(8, 'h'), Card(3, 's'), Card(5, 'c'), Card(7, 'c'), Card(6, 'd'), Card(12, 'd')]) == ['d', 'h', 's', 'c', 'c', 'd', 'd']
  {
  }

  lemma StraightSixCardsLength(h: seq<Card>)
    requires Same(h, [Card(4, 'd'), Card(8, 'h'), Card(3, 's'), Card(5, 'c'), Card(7, 'c'), Card(6, 'd'), Card(12, 'd')])
    ensures |h| == 7
  {
    SameEq(h, [Card(4, 'd'), Card(8, 'h'), Card(3, 's'), Card(5, 'c'), Card(7, 'c'), Card(6, 'd'), Card(12, 'd')]);
  }

  lemma StraightSixCardsResult(h: seq<Card>)
    requires Same(h, [Card(4, 'd'), Card(8, 'h'), Card(3, 's'), Card(5, 'c'), Card(7, 'c'), Card(6, 'd'), Card(12, 'd')])
    ensures Straight(h) == Some(8)
  {
    StraightSixCardsCards(h);
    StraightSixCardsFact1();
    StraightIs(h, [4, 8, 3, 5, 7, 6, 12], 8);
  }

  /** The expected result of the unit test StraightSixCards. */
  lemma StraightSixCards(h: seq<Card>)
    requires Same(h, DecodeAll(["4d", "8h", "3s", "5c", "7c", "6d", "Qd"]))
    ensures Straight(h) == Some(8) && Straight(SortByRank(h)) == Some(8)
  {
    StraightSixCardsDecoded();
    StraightSixCardsResult(h);
    StraightSixCardsLength(h);
    DetectorsSorted(h);
  }

  // StraightLowAce, ranking.py:206

  lemma StraightLowAceDecoded6()
    ensures ValidTokens(["Ad"]) && DecodeAll(["Ad"]) == [Card(14, 'd')]
  {
  }

  lemma StraightLowAceDecoded5()
    ensures ValidTokens(["7d", "Ad"]) && DecodeAll(["7d", "Ad"]) == [Card(7, 'd'), Card(14, 'd')]
  {
    StraightLowAceDecoded6();
  }

  lemma StraightLowAceDecoded4()
    ensures ValidTokens(["2c", "7d", "Ad"]) && DecodeAll(["2c", "7d", "Ad"]) == [Card(2, 'c'), Card(7, 'd'), Card(14, 'd')]
  {
    StraightLowAceDecoded5();
  }

  lemma StraightLowAceDecoded3()
    ensures ValidTokens(["5c", "2c", "7d", "Ad"]) && DecodeAll(["5c", "2c", "7d", "Ad"]) == [Card(5, 'c'), Card(2, 'c'), Card(7, 'd'), Card(14, 'd')]
  {
    StraightLowAceDecoded4();
  }

  lemma StraightLowAceDecoded2()
    ensures ValidTokens(["3s", "5c", "2c", "7d", "Ad"]) && DecodeAll(["3s", "5c", "2c", "7d", "Ad"]) == [Card(3, 's'), Card(5, 'c'), Card(2, 'c'), Card(7, 'd'), Card(14, 'd')]
  {
    StraightLowAceDecoded3();
  }

  lemma StraightLowAceDecoded1()
    ensures ValidTokens(["8h", "3s", "5c", "2c", "7d", "Ad"]) && DecodeAll(["8h", "3s", "5c", "2c", "7d", "Ad"]) == [Card(8, 'h'), Card(3, 's'), Card(5, 'c'), Card(2, 'c'), Card(7, 'd'), Card(14, 'd')]
  {
    StraightLowAceDecoded2();
  }

  lemma StraightLowAceDecoded()
    ensures ValidTokens(["4d", "8h", "3s", "5c", "2c", "7d", "Ad"]) && DecodeAll(["4d", "8h", "3s", "5c", "2c", "7d", "Ad"]) == [Card(4, 'd'), Card(8, 'h'), Card(3, 's'), Card(5, 'c'), Card(2, 'c'), Card(7, 'd'), Card(14, 'd')]
  {
    StraightLowAceDecoded1();
  }

  lemma StraightLowAceCards(h: seq<Card>)
    requires Same(h, [Card(4, 'd'), Card(8, 'h'), Card(3, 's'), Card(5, 'c'), Card(2, 'c'), Card(7, 'd'), Card(14, 'd')])
    ensures |h| == 7 && Ranks(h) == [4, 8, 3, 5, 2, 7, 14] && SuitsOf(h) == ['d', 'h', 's', 'c', 'c', 'd', 'd']
  {
    SameEq(h, [Card(4, 'd'), Card(8, 'h'), Card(3, 's'), Card(5, 'c'), Card(2, 'c'), Card(7, 'd'), Card(14, 'd')]);
    StraightLowAceFact2();
    StraightLowAceFact3();
  }

  lemma StraightLowAceFact1()
    ensures TopIn([4, 8, 3, 5, 2, 7, 14], 5) && forall t :: t > 5 ==> !TopIn([4, 8, 3, 5, 2, 7, 14], t)
  {
  }

  lemma StraightLowAceFact2()
    ensures Ranks([Card(4, 'd'), Card(8, 'h'), Card(3, 's'), Card(5, 'c'), Card(2, 'c'), Card(7, 'd'), Card(14, 'd')]) == [4, 8, 3, 5, 2, 7, 14]
  {
  }

  lemma StraightLowAceFact3()
    ensures SuitsOf([Card(4, 'd'), Card(8, 'h'), Card(3, 's'), Card(5, 'c'), Card(2, 'c'), Card(7, 'd'), Card(14, 'd')]) == ['d', 'h', 's', 'c', 'c', 'd', 'd']
  {
  }

  lemma StraightLowAceLength(h: seq<Card>)
    requires Same(h, [Card(4, 'd'), Card(8, 'h'), Card(3, 's'), Card(5, 'c'), Card(2, 'c'), Card(7, 'd'), Card(14, 'd')])
    ensures |h| == 7
  {
    SameEq(h, [Card(4, 'd'), Card(8, 'h'), Card(3, 's'), Card(5, 'c'), Card(2, 'c'), Card(7, 'd'), Card(14, 'd')]);
  }

  lemma StraightLowAceResult(h: seq<Card>)
    requires Same(h, [Card(4, 'd'), Card(8, 'h'), Card(3, 's'), Card(5, 'c'), Card(2, 'c'), Card(7, 'd'), Card(14, 'd')])
    ensures Straight(h) == Some(5)
  {
    StraightLowAceCards(h);
    StraightLowAceFact1();
    StraightIs(h, [4, 8, 3, 5, 2, 7, 14], 5);
  }

  /** The expected result of the unit test StraightLowAce. */
  lemma StraightLowAce(h: seq<Card>)
    requires Same(h, DecodeAll(["4d", "8h", "3s", "5c", "2c", "7d", "Ad"]))
    ensures Straight(h) == Some(5) && Straight(SortByRank(h)) == Some(5)
  {
    StraightLowAceDecoded();
    StraightLowAceResult(h);
    StraightLowAceLength(h);
    DetectorsSorted(h);
  }

  // StraightBetterThanLowAce, ranking.py:210

  lemma StraightBetterThanLowAceDecoded6()
    ensures ValidTokens(["Ad"]) && DecodeAll(["Ad"]) == [Card(14, 'd')]
  {
  }

  lemma StraightBetterThanLowAceDecoded5()
    ensures ValidTokens(["6d", "Ad"]) && DecodeAll(["6d", "Ad"]) == [Card(6, 'd'), Card(14, 'd')]
  {
    StraightBetterThanLowAceDecoded6();
  }

  lemma StraightBetterThanLowAceDecoded4()
    ensures ValidTokens(["2c", "6d", "Ad"]) && DecodeAll(["2c", "6d", "Ad"]) == [Card(2, 'c'), Card(6, 'd'), Card(14, 'd')]
  {
    StraightBetterThanLowAceDecoded5();
  }

  lemma StraightBetterThanLowAceDecoded3()
    ensures ValidTokens(["5c", "2c", "6d", "Ad"]) && DecodeAll(["5c", "2c", "6d", "Ad"]) == [Card(5, 'c'), Card(2, 'c'), Card(6, 'd'), Card(14, 'd')]
  {
    StraightBetterThanLowAceDecoded4();
  }

  lemma StraightBetterThanLowAceDecoded2()
    ensures ValidTokens(["3s", "5c", "2c", "6d", "Ad"]) && DecodeAll(["3s", "5c", "2c", "6d", "Ad"]) == [Card(3, 's'), Card(5, 'c'), Card(2, 'c'), Card(6, 'd'), Card(14, 'd')]
  {
    StraightBetterThanLowAceDecoded3();
  }

  lemma StraightBetterThanLowAceDecoded1()
    ensures ValidTokens(["8h", "3s", "5c", "2c", "6d", "Ad"]) && DecodeAll(["8h", "3s", "5c", "2c", "6d", "Ad"]) == [Card(8, 'h'), Card(3, 's'), Card(5, 'c'), Card(2, 'c'), Card(6, 'd'), Card(14, 'd')]
  {
    StraightBetterThanLowAceDecoded2();
  }

  lemma StraightBetterThanLowAceDecoded()
    ensures ValidTokens(["4d", "8h", "3s", "5c", "2c", "6d", "Ad"]) && DecodeAll(["4d", "8h", "3s", "5c", "2c", "6d", "Ad"]) == [Card(4, 'd'), Card(8, 'h'), Card(3, 's'), Card(5, 'c'), Card(2, 'c'), Card(6, 'd'), Card(14, 'd')]
  {
    StraightBetterThanLowAceDecoded1();
  }

  lemma StraightBetterThanLowAceCards(h: seq<Card>)
    requires Same(h, [Card(4, 'd'), Card(8, 'h'), Card(3, 's'), Card(5, 'c'), Card(2, 'c'), Card(6, 'd'), Card(14, 'd')])
    ensures |h| == 7 && Ranks(h) == [4, 8, 3, 5, 2, 6, 14] && SuitsOf(h) == ['d', 'h', 's', 'c', 'c', 'd', 'd']
  {
    SameEq(h, [Card(4, 'd'), Card(8, 'h'), Card(3, 's'), Card(5, 'c'), Card(2, 'c'), Card(6, 'd'), Card(14, 'd')]);
    StraightBetterThanLowAceFact2();
    StraightBetterThanLowAceFact3();
  }

  lemma StraightBetterThanLowAceFact1()
    ensures TopIn([4, 8, 3, 5, 2, 6, 14], 6) && forall t :: t > 6 ==> !TopIn([4, 8, 3, 5, 2, 6, 14], t)
  {
  }

  lemma StraightBetterThanLowAceFact2()
    ensures Ranks([Card(4, 'd'), Card(8, 'h'), Card(3, 's'), Card(5, 'c'), Card(2, 'c'), Card(6, 'd'), Card(14, 'd')]) == [4, 8, 3, 5, 2, 6, 14]
  {
  }

  lemma StraightBetterThanLowAceFact3()
    ensures SuitsOf([Card(4, 'd'), Card(8, 'h'), Card(3, 's'), Card(5, 'c'), Card(2, 'c'), Card(6, 'd'), Card(14, 'd')]) == ['d', 'h', 's', 'c', 'c', 'd', 'd']
  {
  }

  lemma StraightBetterThanLowAceLength(h: seq<Card>)
    requires Same(h, [Card(4, 'd'), Card(8, 'h'), Card(3, 's'), Card(5, 'c'), Card(2, 'c'), Card(6, 'd'), Card(14, 'd')])
    ensures |h| == 7
  {
    SameEq(h, [Card(4, 'd'), Card(8, 'h'), Card(3, 's'), Card(5, 'c'), Card(2, 'c'), Card(6, 'd'), Card(14, 'd')]);
  }

  lemma StraightBetterThanLowAceResult(h: seq<Card>)
    requires Same(h, [Card(4, 'd'), Card(8, 'h'), Card(3, 's'), Card(5, 'c'), Card(2, 'c'), Card(6, 'd'), Card(14, 'd')])
    ensures Straight(h) == Some(6)
  {
    StraightBetterThanLowAceCards(h);
    StraightBetterThanLowAceFact1();
    StraightIs(h, [4, 8, 3, 5, 2, 6, 14], 6);
  }

  /** The expected result of the unit test StraightBetterThanLowAce. */
  lemma StraightBetterThanLowAce(h: seq<Card>)
    requires Same(h, DecodeAll(["4d", "8h", "3s", "5c", "2c", "6d", "Ad"]))
    ensures Straight(h) == Some(6) && Straight(SortByRank(h)) == Some(6)
  {
    StraightBetterThanLowAceDecoded();
    StraightBetterThanLowAceResult(h);
    StraightBetterThanLowAceLength(h);
    DetectorsSorted(h);
  }

  // StraightNoLowKing, ranking.py:214

  lemma StraightNoLowKingDecoded6()
    ensures ValidTokens(["Ad"]) && DecodeAll(["Ad"]) == [Card(14, 'd')]
  {
  }

  lemma StraightNoLowKingDecoded5()
    ensures ValidTokens(["7d", "Ad"]) && DecodeAll(["7d", "Ad"]) == [Card(7, 'd'), Card(14, 'd')]
  {
    StraightNoLowKingDecoded6();
  }

  lemma StraightNoLowKingDecoded4()
    ensures ValidTokens(["2c", "7d", "Ad"]) && DecodeAll(["2c", "7d", "Ad"]) == [Card(2, 'c'), Card(7, 'd'), Card(14, 'd')]
  {
    StraightNoLowKingDecoded5();
  }

  lemma StraightNoLowKingDecoded3()
    ensures ValidTokens(["4c", "2c", "7d", "Ad"]) && DecodeAll(["4c", "2c", "7d", "Ad"]) == [Card(4, 'c'), Card(2, 'c'), Card(7, 'd'), Card(14, 'd')]
  {
    StraightNoLowKingDecoded4();
  }

  lemma StraightNoLowKingDecoded2()
    ensures ValidTokens(["3s", "4c", "2c", "7d", "Ad"]) && DecodeAll(["3s", "4c", "2c", "7d", "Ad"]) == [Card(3, 's'), Card(4, 'c'), Card(2, 'c'), Card(7, 'd'), Card(14, 'd')]
  {
    StraightNoLowKingDecoded3();
  }

  lemma StraightNoLowKingDecoded1()
    ensures ValidTokens(["8h", "3s", "4c", "2c", "7d", "Ad"]) && DecodeAll(["8h", "3s", "4c", "2c", "7d", "Ad"]) == [Card(8, 'h'), Card(3, 's'), Card(4, 'c'), Card(2, 'c'), Card(7, 'd'), Card(14, 'd')]
  {
    StraightNoLowKingDecoded2();
  }

  lemma StraightNoLowKingDecoded()
    ensures ValidTokens(["Kd", "8h", "3s", "4c", "2c", "7d", "Ad"]) && DecodeAll(["Kd", "8h", "3s", "4c", "2c", "7d", "Ad"]) == [Card(13, 'd'), Card(8, 'h'), Card(3, 's'), Card(4, 'c'), Card(2, 'c'), Card(7, 'd'), Card(14, 'd')]
  {
    StraightNoLowKingDecoded1();
  }

  lemma StraightNoLowKingCards(h: seq<Card>)
    requires Same(h, [Card(13, 'd'), Card(8, 'h'), Card(3, 's'), Card(4, 'c'), Card(2, 'c'), Card(7, 'd'), Card(14, 'd')])
    ensures |h| == 7 && Ranks(h) == [13, 8, 3, 4, 2, 7, 14] && SuitsOf(h) == ['d', 'h', 's', 'c', 'c', 'd', 'd']
  {
    SameEq(h, [Card(13, 'd'), Card(8, 'h'), Card(3, 's'), Card(4, 'c'), Card(2, 'c'), Card(7, 'd'), Card(14, 'd')]);
    StraightNoLowKingFact2();
    StraightNoLowKingFact3();
  }

  lemma StraightNoLowKingFact1()
    ensures forall t :: !TopIn([13, 8, 3, 4, 2, 7, 14], t)
  {
  }

  lemma StraightNoLowKingFact2()
    ensures Ranks([Card(13, 'd'), Card(8, 'h'), Card(3, 's'), Card(4, 'c'), Card(2, 'c'), Card(7, 'd'), Card(14, 'd')]) == [13, 8, 3, 4, 2, 7, 14]
  {
  }

  lemma StraightNoLowKingFact3()
    ensures SuitsOf([Card(13, 'd'), Card(8, 'h'), Card(3, 's'), Card(4, 'c'), Card(2, 'c'), Card(7, 'd'), Card(14, 'd')]) == ['d', 'h', 's', 'c', 'c', 'd', 'd']
  {
  }

  lemma StraightNoLowKingLength(h: seq<Card>)
    requires Same(h, [Card(13, 'd'), Card(8, 'h'), Card(3, 's'), Card(4, 'c'), Card(2, 'c'), Card(7, 'd'), Card(14, 'd')])
    ensures |h| == 7
  {
    SameEq(h, [Card(13, 'd'), Card(8, 'h'), Card(3, 's'), Card(4, 'c'), Card(2, 'c'), Card(7, 'd'), Card(14, 'd')]);
  }

  lemma StraightNoLowKingResult(h: seq<Card>)
    requires Same(h, [Card(13, 'd'), Card(8, 'h'), Card(3, 's'), Card(4, 'c'), Card(2, 'c'), Card(7, 'd'), Card(14, 'd')])
    ensures Straight(h) == None
  {
    StraightNoLowKingCards(h);
    StraightNoLowKingFact1();
    NoStraight(h, [13, 8, 3, 4, 2, 7, 14]);
  }

  /** The expected result of the unit test StraightNoLowKing. */
  lemma StraightNoLowKing(h: seq<Card>)
    requires Same(h, DecodeAll(["Kd", "8h", "3s", "4c", "2c", "7d", "Ad"]))
    ensures Straight(h) == None && Straight(SortByRank(h)) == None
  {
    StraightNoLowKingDecoded();
    StraightNoLowKingResult(h);
    StraightNoLowKingLength(h);
    DetectorsSorted(h);
  }

  // FlushNotFound, ranking.py:220

  lemma FlushNotFoundDecoded6()
    ensures ValidTokens(["As"]) && DecodeAll(["As"]) == [Card(14, 's')]
  {
  }

  lemma FlushNotFoundDecoded5()
    ensures ValidTokens(["7d", "As"]) && DecodeAll(["7d", "As"]) == [Card(7, 'd'), Card(14, 's')]
  {
    FlushNotFoundDecoded6();
  }

  lemma FlushNotFoundDecoded4()
    ensures ValidTokens(["Qd", "7d", "As"]) && DecodeAll(["Qd", "7d", "As"]) == [Card(12, 'd'), Card(7, 'd'), Card(14, 's')]
  {
    FlushNotFoundDecoded5();
  }

  lemma FlushNotFoundDecoded3()
    ensures ValidTokens(["5h", "Qd", "7d", "As"]) && DecodeAll(["5h", "Qd", "7d", "As"]) == [Card(5, 'h'), Card(12, 'd'), Card(7, 'd'), Card(14, 's')]
  {
    FlushNotFoundDecoded4();
  }

  lemma FlushNotFoundDecoded2()
    ensures ValidTokens(["3c", "5h", "Qd", "7d", "As"]) && DecodeAll(["3c", "5h", "Qd", "7d", "As"]) == [Card(3, 'c'), Card(5, 'h'), Card(12, 'd'), Card(7, 'd'), Card(14, 's')]
  {
    FlushNotFoundDecoded3();
  }

  lemma FlushNotFoundDecoded1()
    ensures ValidTokens(["8d", "3c", "5h", "Qd", "7d", "As"]) && DecodeAll(["8d", "3c", "5h", "Qd", "7d", "As"]) == [Card(8, 'd'), Card(3, 'c'), Card(5, 'h'), Card(12, 'd'), Card(7, 'd'), Card(14, 's')]
  {
    FlushNotFoundDecoded2();
  }

  lemma FlushNotFoundDecoded()
    ensures ValidTokens(["10d", "8d", "3c", "5h", "Qd", "7d", "As"]) && DecodeAll(["10d", "8d", "3c", "5h", "Qd", "7d", "As"]) == [Card(10, 'd'), Card(8, 'd'), Card(3, 'c'), Card(5, 'h'), Card(12, 'd'), Card(7, 'd'), Card(14, 's')]
  {
    FlushNotFoundDecoded1();
  }

  lemma FlushNotFoundCards(h: seq<Card>)
    requires Same(h, [Card(10, 'd'), Card(8, 'd'), Card(3, 'c'), Card(5, 'h'), Card(12, 'd'), Card(7, 'd'), Card(14, 's')])
    ensures |h| == 7 && Ranks(h) == [10, 8, 3, 5, 12, 7, 14] && SuitsOf(h) == ['d', 'd', 'c', 'h', 'd', 'd', 's']
  {
    SameEq(h, [Card(10, 'd'), Card(8, 'd'), Card(3, 'c'), Card(5, 'h'), Card(12, 'd'), Card(7, 'd'), Card(14, 's')]);
    FlushNotFoundFact2();
    FlushNotFoundFact3();
  }

  lemma FlushNotFoundFact1()
    ensures forall u :: Occ(['d', 'd', 'c', 'h', 'd', 'd', 's'], u) < 5
  {
  }

  lemma FlushNotFoundFact2()
    ensures Ranks([Card(10, 'd'), Card(8, 'd'), Card(3, 'c'), Card(5, 'h'), Card(12, 'd'), Card(7, 'd'), Card(14, 's')]) == [10, 8, 3, 5, 12, 7, 14]
  {
  }

  lemma FlushNotFoundFact3()
    ensures SuitsOf([Card(10, 'd'), Card(8, 'd'), Card(3, 'c'), Card(5, 'h'), Card(12, 'd'), Card(7, 'd'), Card(14, 's')]) == ['d', 'd', 'c', 'h', 'd', 'd', 's']
  {
  }

  lemma FlushNotFoundLength(h: seq<Card>)
    requires Same(h, [Card(10, 'd'), Card(8, 'd'), Card(3, 'c'), Card(5, 'h'), Card(12, 'd'), Card(7, 'd'), Card(14, 's')])
    ensures |h| == 7
  {
    SameEq(h, [Card(10, 'd'), Card(8, 'd'), Card(3, 'c'), Card(5, 'h'), Card(12, 'd'), Card(7, 'd'), Card(14, 's')]);
  }

  lemma FlushNotFoundResult(h: seq<Card>)
    requires Same(h, [Card(10, 'd'), Card(8, 'd'), Card(3, 'c'), Card(5, 'h'), Card(12, 'd'), Card(7, 'd'), Card(14, 's')])
    ensures Flush(h) == None
  {
    FlushNotFoundCards(h);
    FlushNotFoundFact1();
    NoSuitOfFive(h, ['d', 'd', 'c', 'h', 'd', 'd', 's']);
  }

  /** The expected result of the unit test FlushNotFound. */
  lemma FlushNotFound(h: seq<Card>)
    requires Same(h, DecodeAll(["10d", "8d", "3c", "5h", "Qd", "7d", "As"]))
    ensures Flush(h) == None && Flush(SortByRank(h)) == None
  {
    FlushNotFoundDecoded();
    FlushNotFoundResult(h);
    FlushNotFoundLength(h);
    DetectorsSorted(h);
  }

  // FlushFound, ranking.py:224

  lemma FlushFoundDecoded5()
    ensures ValidTokens(["As"]) && DecodeAll(["As"]) == [Card(14, 's')]
  {
  }

  lemma FlushFoundDecoded4()
    ensures ValidTokens(["Qd", "As"]) && DecodeAll(["Qd", "As"]) == [Card(12, 'd'), Card(14, 's')]
  {
    FlushFoundDecoded5();
  }

  lemma FlushFoundDecoded3()
    ensures ValidTokens(["5d", "Qd", "As"]) && DecodeAll(["5d", "Qd", "As"]) == [Card(5, 'd'), Card(12, 'd'), Card(14, 's')]
  {
    FlushFoundDecoded4();
  }

  lemma FlushFoundDecoded2()
    ensures ValidTokens(["3d", "5d", "Qd", "As"]) && DecodeAll(["3d", "5d", "Qd", "As"]) == [Card(3, 'd'), Card(5, 'd'), Card(12, 'd'), Card(14, 's')]
  {
    FlushFoundDecoded3();
  }

  lemma FlushFoundDecoded1()
    ensures ValidTokens(["8d", "3d", "5d", "Qd", "As"]) && DecodeAll(["8d", "3d", "5d", "Qd", "As"]) == [Card(8, 'd'), Card(3, 'd'), Card(5, 'd'), Card(12, 'd'), Card(14, 's')]
  {
    FlushFoundDecoded2();
  }

  lemma FlushFoundDecoded()
    ensures ValidTokens(["10d", "8d", "3d", "5d", "Qd", "As"]) && DecodeAll(["10d", "8d", "3d", "5d", "Qd", "As"]) == [Card(10, 'd'), Card(8, 'd'), Card(3, 'd'), Card(5, 'd'), Card(12, 'd'), Card(14, 's')]
  {
    FlushFoundDecoded1();
  }

  lemma FlushFoundSort5()
    ensures SortByRank([Card(14, 's')]) == [Card(14, 's')]
  {
  }

  lemma FlushFoundSort4()
    ensures SortByRank([Card(12, 'd'), Card(14, 's')]) == [Card(14, 's'), Card(12, 'd')]
  {
    FlushFoundSort5();
    SortStep(Card(12, 'd'), [Card(14, 's')], [Card(14, 's')], 1, [Card(14, 's'), Card(12, 'd')]);
    assert [Card(12, 'd'), Card(14, 's')] == [Card(12, 'd')] + [Card(14, 's')];
  }

  lemma FlushFoundSort3()
    ensures SortByRank([Card(5, 'd'), Card(12, 'd'), Card(14, 's')]) == [Card(14, 's'), Card(12, 'd'), Card(5, 'd')]
  {
    FlushFoundSort4();
    SortStep(Card(5, 'd'), [Card(12, 'd'), Card(14, 's')], [Card(14, 's'), Card(12, 'd')], 2, [Card(14, 's'), Card(12, 'd'), Card(5, 'd')]);
    assert [Card(5, 'd'), Card(12, 'd'), Card(14, 's')] == [Card(5, 'd')] + [Card(12, 'd'), Card(14, 's')];
  }

  lemma FlushFoundSort2()
    ensures SortByRank([Card(3, 'd'), Card(5, 'd'), Card(12, 'd'), Card(14, 's')]) == [Card(14, 's'), Card(12, 'd'), Card(5, 'd'), Card(3, 'd')]
  {
    FlushFoundSort3();
    SortStep(Card(3, 'd'), [Card(5, 'd'), Card(12, 'd'), Card(14, 's')], [Card(14, 's'), Card(12, 'd'), Card(5, 'd')], 3, [Card(14, 's'), Card(12, 'd'), Card(5, 'd'), Card(3, 'd')]);
    assert [Card(3, 'd'), Card(5, 'd'), Card(12, 'd'), Card(14, 's')] == [Card(3, 'd')] + [Card(5, 'd'), Card(12, 'd'), Card(14, 's')];
  }

  lemma FlushFoundSort1()
    ensures SortByRank([Card(8, 'd'), Card(3, 'd'), Card(5, 'd'), Card(12, 'd'), Card(14, 's')]) == [Card(14, 's'), Card(12, 'd'), Card(8, 'd'), Card(5, 'd'), Card(3, 'd')]
  {
    FlushFoundSort2();
    SortStep(Card(8, 'd'), [Card(3, 'd'), Card(5, 'd'), Card(12, 'd'), Card(14, 's')], [Card(14, 's'), Card(12, 'd'), Card(5, 'd'), Card(3, 'd')], 2, [Card(14, 's'), Card(12, 'd'), Card(8, 'd'), Card(5, 'd'), Card(3, 'd')]);
    assert [Card(8, 'd'), Card(3, 'd'), Card(5, 'd'), Card(12, 'd'), Card(14, 's')] == [Card(8, 'd')] + [Card(3, 'd'), Card(5, 'd'), Card(12, 'd'), Card(14, 's')];
  }

  lemma FlushFoundSort0()
    ensures SortByRank([Card(10, 'd'), Card(8, 'd'), Card(3, 'd'), Card(5, 'd'), Card(12, 'd'), Card(14, 's')]) == [Card(14, 's'), Card(12, 'd'), Card(10, 'd'), Card(8, 'd'), Card(5, 'd'), Card(3, 'd')]
  {
    FlushFoundSort1();
    SortStep(Card(10, 'd'), [Card(8, 'd'), Card(3, 'd'), Card(5, 'd'), Card(12, 'd'), Card(14, 's')], [Card(14, 's'), Card(12, 'd'), Card(8, 'd'), Card(5, 'd'), Card(3, 'd')], 2, [Card(14, 's'), Card(12, 'd'), Card(10, 'd'), Card(8, 'd'), Card(5, 'd'), Card(3, 'd')]);
    assert [Card(10, 'd'), Card(8, 'd'), Card(3, 'd'), Card(5, 'd'), Card(12, 'd'), Card(14, 's')] == [Card(10, 'd')] + [Card(8, 'd'), Card(3, 'd'), Card(5, 'd'), Card(12, 'd'), Card(14, 's')];
  }

  lemma FlushFoundSorted(h: seq<Card>)
    requires Same(h, [Card(10, 'd'), Card(8, 'd'), Card(3, 'd'), Card(5, 'd'), Card(12, 'd'), Card(14, 's')])
    ensures Same(SortByRank(h), [Card(14, 's'), Card(12, 'd'), Card(10, 'd'), Card(8, 'd'), Card(5, 'd'), Card(3, 'd')])
  {
    SameEq(h, [Card(10, 'd'), Card(8, 'd'), Card(3, 'd'), Card(5, 'd'), Card(12, 'd'), Card(14, 's')]);
    FlushFoundSort0();
    SameEq(SortByRank(h), [Card(14, 's'), Card(12, 'd'), Card(10, 'd'), Card(8, 'd'), Card(5, 'd'), Card(3, 'd')]);
  }

  lemma FlushFoundFact1()
    ensures SuitsOf([Card(14, 's'), Card(12, 'd'), Card(10, 'd'), Card(8, 'd'), Card(5, 'd'), Card(3, 'd')]) == ['s', 'd', 'd', 'd', 'd', 'd']
  {
  }

  lemma FlushFoundFact2()
    ensures Occ(['s', 'd', 'd', 'd', 'd', 'd'], Suits[2]) >= 5
  {
  }

  lemma FlushFoundFact3()
    ensures forall i :: 0 <= i < 2 ==> Occ(['s', 'd', 'd', 'd', 'd', 'd'], Suits[i]) < 5
  {
  }

  lemma FlushFoundFact4()
    ensures Ranks(OfSuit([Card(14, 's'), Card(12, 'd'), Card(10, 'd'), Card(8, 'd'), Card(5, 'd'), Card(3, 'd')], Suits[2])) == [12, 10, 8, 5, 3]
  {
  }

  lemma FlushFoundFact5()
    ensures Take([12, 10, 8, 5, 3], 5) == [12, 10, 8, 5, 3]
  {
  }

  lemma FlushFoundLength(h: seq<Card>)
    requires Same(h, [Card(10, 'd'), Card(8, 'd'), Card(3, 'd'), Card(5, 'd'), Card(12, 'd'), Card(14, 's')])
    ensures |h| == 6
  {
    SameEq(h, [Card(10, 'd'), Card(8, 'd'), Card(3, 'd'), Card(5, 'd'), Card(12, 'd'), Card(14, 's')]);
  }

  lemma FlushFoundResult(h: seq<Card>)
    requires Same(h, [Card(10, 'd'), Card(8, 'd'), Card(3, 'd'), Card(5, 'd'), Card(12, 'd'), Card(14, 's')])
    ensures Flush(h) == Some([12, 10, 8, 5, 3])
  {
    FlushFoundSorted(h);
    FlushFoundFact1();
    FlushFoundFact2();
    FlushFoundFact3();
    FlushFoundFact4();
    FlushFoundFact5();
    FlushIs(h, [Card(14, 's'), Card(12, 'd'), Card(10, 'd'), Card(8, 'd'), Card(5, 'd'), Card(3, 'd')], ['s', 'd', 'd', 'd', 'd', 'd'], 2, [12, 10, 8, 5, 3]);
  }

  /** The expected result of the unit test FlushFound. */
  lemma FlushFound(h: seq<Card>)
    requires Same(h, DecodeAll(["10d", "8d", "3d", "5d", "Qd", "As"]))
    ensures Flush(h) == Some([12, 10, 8, 5, 3]) && Flush(SortByRank(h)) == Some([12, 10, 8, 5, 3])
  {
    FlushFoundDecoded();
    FlushFoundResult(h);
    FlushFoundLength(h);
    DetectorsSorted(h);
  }

  // FlushMoreThanFive, ranking.py:228

  lemma FlushMoreThanFiveDecoded6()
    ensures ValidTokens(["As"]) && DecodeAll(["As"]) == [Card(14, 's')]
  {
  }

  lemma FlushMoreThanFiveDecoded5()
    ensures ValidTokens(["7d", "As"]) && DecodeAll(["7d", "As"]) == [Card(7, 'd'), Card(14, 's')]
  {
    FlushMoreThanFiveDecoded6();
  }

  lemma FlushMoreThanFiveDecoded4()
    ensures ValidTokens(["Qd", "7d", "As"]) && DecodeAll(["Qd", "7d", "As"]) == [Card(12, 'd'), Card(7, 'd'), Card(14, 's')]
  {
    FlushMoreThanFiveDecoded5();
  }

  lemma FlushMoreThanFiveDecoded3()
    ensures ValidTokens(["5d", "Qd", "7d", "As"]) && DecodeAll(["5d", "Qd", "7d", "As"]) == [Card(5, 'd'), Card(12, 'd'), Card(7, 'd'), Card(14, 's')]
  {
    FlushMoreThanFiveDecoded4();
  }

  lemma FlushMoreThanFiveDecoded2()
    ensures ValidTokens(["3d", "5d", "Qd", "7d", "As"]) && DecodeAll(["3d", "5d", "Qd", "7d", "As"]) == [Card(3, 'd'), Card(5, 'd'), Card(12, 'd'), Card(7, 'd'), Card(14, 's')]
  {
    FlushMoreThanFiveDecoded3();
  }

  lemma FlushMoreThanFiveDecoded1()
    ensures ValidTokens(["8d", "3d", "5d", "Qd", "7d", "As"]) && DecodeAll(["8d", "3d", "5d", "Qd", "7d", "As"]) == [Card(8, 'd'), Card(3, 'd'), Card(5, 'd'), Card(12, 'd'), Card(7, 'd'), Card(14, 's')]
  {
    FlushMoreThanFiveDecoded2();
  }

  lemma FlushMoreThanFiveDecoded()
    ensures ValidTokens(["10d", "8d", "3d", "5d", "Qd", "7d", "As"]) && DecodeAll(["10d", "8d", "3d", "5d", "Qd", "7d", "As"]) == [Card(10, 'd'), Card(8, 'd'), Card(3, 'd'), Card(5, 'd'), Card(12, 'd'), Card(7, 'd'), Card(14, 's')]
  {
    FlushMoreThanFiveDecoded1();
  }

  lemma FlushMoreThanFiveSort6()
    ensures SortByRank([Card(14, 's')]) == [Card(14, 's')]
  {
  }

  lemma FlushMoreThanFiveSort5()
    ensures SortByRank([Card(7, 'd'), Card(14, 's')]) == [Card(14, 's'), Card(7, 'd')]
  {
    FlushMoreThanFiveSort6();
    SortStep(Card(7, 'd'), [Card(14, 's')], [Card(14, 's')], 1, [Card(14, 's'), Card(7, 'd')]);
    assert [Card(7, 'd'), Card(14, 's')] == [Card(7, 'd')] + [Card(14, 's')];
  }

  lemma FlushMoreThanFiveSort4()
    ensures SortByRank([Card(12, 'd'), Card(7, 'd'), Card(14, 's')]) == [Card(14, 's'), Card(12, 'd'), Card(7, 'd')]
  {
    FlushMoreThanFiveSort5();
    SortStep(Card(12, 'd'), [Card(7, 'd'), Card(14, 's')], [Card(14, 's'), Card(7, 'd')], 1, [Card(14, 's'), Card(12, 'd'), Card(7, 'd')]);
    assert [Card(12, 'd'), Card(7, 'd'), Card(14, 's')] == [Card(12, 'd')] + [Card(7, 'd'), Card(14, 's')];
  }

  lemma FlushMoreThanFiveSort3()
    ensures SortByRank([Card(5, 'd'), Card(12, 'd'), Card(7, 'd'), Card(14, 's')]) == [Card(14, 's'), Card(12, 'd'), Card(7, 'd'), Card(5, 'd')]
  {
    FlushMoreThanFiveSort4();
    SortStep(Card(5, 'd'), [Card(12, 'd'), Card(7, 'd'), Card(14, 's')], [Card(14, 's'), Card(12, 'd'), Card(7, 'd')], 3, [Card(14, 's'), Card(12, 'd'), Card(7, 'd'), Card(5, 'd')]);
    assert [Card(5, 'd'), Card(12, 'd'), Card(7, 'd'), Card(14, 's')] == [Card(5, 'd')] + [Card(12, 'd'), Card(7, 'd'), Card(14, 's')];
  }

  lemma FlushMoreThanFiveSort2()
    ensures SortByRank([Card(3, 'd'), Card(5, 'd'), Card(12, 'd'), Card(7, 'd'), Card(14, 's')]) == [Card(14, 's'), Card(12, 'd'), Card(7, 'd'), Card(5, 'd'), Card(3, 'd')]
  {
    FlushMoreThanFiveSort3();
    SortStep(Card(3, 'd'), [Card(5, 'd'), Card(12, 'd'), Card(7, 'd'), Card(14, 's')], [Card(14, 's'), Card(12, 'd'), Card(7, 'd'), Card(5, 'd')], 4, [Card(14, 's'), Card(12, 'd'), Card(7, 'd'), Card(5, 'd'), Card(3, 'd')]);
    assert [Card(3, 'd'), Card(5, 'd'), Card(12, 'd'), Card(7, 'd'), Card(14, 's')] == [Card(3, 'd')] + [Card(5, 'd'), Card(12, 'd'), Card(7, 'd'), Card(14, 's')];
  }

  lemma FlushMoreThanFiveSort1()
    ensures SortByRank([Card(8, 'd'), Card(3, 'd'), Card(5, 'd'), Card(12, 'd'), Card(7, 'd'), Card(14, 's')]) == [Card(14, 's'), Card(12, 'd'), Card(8, 'd'), Card(7, 'd'), Card(5, 'd'), Card(3, 'd')]
  {
    FlushMoreThanFiveSort2();
    SortStep(Card(8, 'd'), [Card(3, 'd'), Card(5, 'd'), Card(12, 'd'), Card(7, 'd'), Card(14, 's')], [Card(14, 's'), Card(12, 'd'), Card(7, 'd'), Card(5, 'd'), Card(3, 'd')], 2, [Card(14, 's'), Card(12, 'd'), Card(8, 'd'), Card(7, 'd'), Card(5, 'd'), Card(3, 'd')]);
    assert [Card(8, 'd'), Card(3, 'd'), Card(5, 'd'), Card(12, 'd'), Card(7, 'd'), Card(14, 's')] == [Card(8, 'd')] + [Card(3, 'd'), Card(5, 'd'), Card(12, 'd'), Card(7, 'd'), Card(14, 's')];
  }

  lemma FlushMoreThanFiveSort0()
    ensures SortByRank([Card(10, 'd'), Card(8, 'd'), Card(3, 'd'), Card(5, 'd'), Card(12, 'd'), Card(7, 'd'), Card(14, 's')]) == [Card(14, 's'), Card(12, 'd'), Card(10, 'd'), Card(8, 'd'), Card(7, 'd'), Card(5, 'd'), Card(3, 'd')]
  {
    FlushMoreThanFiveSort1();
    SortStep(Card(10, 'd'), [Card(8, 'd'), Card(3, 'd'), Card(5, 'd'), Card(12, 'd'), Card(7, 'd'), Card(14, 's')], [Card(14, 's'), Card(12, 'd'), Card(8, 'd'), Card(7, 'd'), Card(5, 'd'), Card(3, 'd')], 2, [Card(14, 's'), Card(12, 'd'), Card(10, 'd'), Card(8, 'd'), Card(7, 'd'), Card(5, 'd'), Card(3, 'd')]);
    assert [Card(10, 'd'), Card(8, 'd'), Card(3, 'd'), Card(5, 'd'), Card(12, 'd'), Card(7, 'd'), Card(14, 's')] == [Card(10, 'd')] + [Card(8, 'd'), Card(3, 'd'), Card(5, 'd'), Card(12, 'd'), Card(7, 'd'), Card(14, 's')];
  }

  lemma FlushMoreThanFiveSorted(h: seq<Card>)
    requires Same(h, [Card(10, 'd'), Card(8, 'd'), Card(3, 'd'), Card(5, 'd'), Card(12, 'd'), Card(7, 'd'), Card(14, 's')])
    ensures Same(SortByRank(h), [Card(14, 's'), Card(12, 'd'), Card(10, 'd'), Card(8, 'd'), Card(7, 'd'), Card(5, 'd'), Card(3, 'd')])
  {
    SameEq(h, [Card(10, 'd'), Card(8, 'd'), Card(3, 'd'), Card(5, 'd'), Card(12, 'd'), Card(7, 'd'), Card(14, 's')]);
    FlushMoreThanFiveSort0();
    SameEq(SortByRank(h), [Card(14, 's'), Card(12, 'd'), Card(10, 'd'), Card(8, 'd'), Card(7, 'd'), Card(5, 'd'), Card(3, 'd')]);
  }

  lemma FlushMoreThanFiveFact1()
    ensures SuitsOf([Card(14, 's'), Card(12, 'd'), Card(10, 'd'), Card(8, 'd'), Card(7, 'd'), Card(5, 'd'), Card(3, 'd')]) == ['s', 'd', 'd', 'd', 'd', 'd', 'd']
  {
  }

  lemma FlushMoreThanFiveFact2()
    ensures Occ(['s', 'd', 'd', 'd', 'd', 'd', 'd'], Suits[2]) >= 5
  {
  }

  lemma FlushMoreThanFiveFact3()
    ensures forall i :: 0 <= i < 2 ==> Occ(['s', 'd', 'd', 'd', 'd', 'd', 'd'], Suits[i]) < 5
  {
  }

  lemma FlushMoreThanFiveFact4()
    ensures Ranks(OfSuit([Card(14, 's'), Card(12, 'd'), Card(10, 'd'), Card(8, 'd'), Card(7, 'd'), Card(5, 'd'), Card(3, 'd')], Suits[2])) == [12, 10, 8, 7, 5, 3]
  {
  }

  lemma FlushMoreThanFiveFact5()
    ensures Take([12, 10, 8, 7, 5, 3], 5) == [12, 10, 8, 7, 5]
  {
  }

  lemma FlushMoreThanFiveLength(h: seq<Card>)
    requires Same(h, [Card(10, 'd'), Card(8, 'd'), Card(3, 'd'), Card(5, 'd'), Card(12, 'd'), Card(7, 'd'), Card(14, 's')])
    ensures |h| == 7
  {
    SameEq(h, [Card(10, 'd'), Card(8, 'd'), Card(3, 'd'), Card(5, 'd'), Card(12, 'd'), Card(7, 'd'), Card(14, 's')]);
  }

  lemma FlushMoreThanFiveResult(h: seq<Card>)
    requires Same(h, [Card(10, 'd'), Card(8, 'd'), Card(3, 'd'), Card(5, 'd'), Card(12, 'd'), Card(7, 'd'), Card(14, 's')])
    ensures Flush(h) == Some([12, 10, 8, 7, 5])
  {
    FlushMoreThanFiveSorted(h);
    FlushMoreThanFiveFact1();
    FlushMoreThanFiveFact2();
    FlushMoreThanFiveFact3();
    FlushMoreThanFiveFact4();
    FlushMoreThanFiveFact5();
    FlushIs(h, [Card(14, 's'), Card(12, 'd'), Card(10, 'd'), Card(8, 'd'), Card(7, 'd'), Card(5, 'd'), Card(3, 'd')], ['s', 'd', 'd', 'd', 'd', 'd', 'd'], 2, [12, 10, 8, 7, 5, 3]);
  }

  /** The expected result of the unit test FlushMoreThanFive. */
  lemma FlushMoreThanFive(h: seq<Card>)
    requires Same(h, DecodeAll(["10d", "8d", "3d", "5d", "Qd", "7d", "As"]))
    ensures Flush(h) == Some([12, 10, 8, 7, 5]) && Flush(SortByRank(h)) == Some([12, 10, 8, 7, 5])
  {
    FlushMoreThanFiveDecoded();
    FlushMoreThanFiveResult(h);
    FlushMoreThanFiveLength(h);
    DetectorsSorted(h);
  }

  // FullHouseNoTriple, ranking.py:234

  lemma FullHouseNoTripleDecoded6()
    ensures ValidTokens(["As"]) && DecodeAll(["As"]) == [Card(14, 's')]
  {
  }

  lemma FullHouseNoTripleDecoded5()
    ensures ValidTokens(["7d", "As"]) && DecodeAll(["7d", "As"]) == [Card(7, 'd'), Card(14, 's')]
  {
    FullHouseNoTripleDecoded6();
  }

  lemma FullHouseNoTripleDecoded4()
    ensures ValidTokens(["Qd", "7d", "As"]) && DecodeAll(["Qd", "7d", "As"]) == [Card(12, 'd'), Card(7, 'd'), Card(14, 's')]
  {
    FullHouseNoTripleDecoded5();
  }

  lemma FullHouseNoTripleDecoded3()
    ensures ValidTokens(["3h", "Qd", "7d", "As"]) && DecodeAll(["3h", "Qd", "7d", "As"]) == [Card(3, 'h'), Card(12, 'd'), Card(7, 'd'), Card(14, 's')]
  {
    FullHouseNoTripleDecoded4();
  }

  lemma FullHouseNoTripleDecoded2()
    ensures ValidTokens(["3c", "3h", "Qd", "7d", "As"]) && DecodeAll(["3c", "3h", "Qd", "7d", "As"]) == [Card(3, 'c'), Card(3, 'h'), Card(12, 'd'), Card(7, 'd'), Card(14, 's')]
  {
    FullHouseNoTripleDecoded3();
  }

  lemma FullHouseNoTripleDecoded1()
    ensures ValidTokens(["10s", "3c", "3h", "Qd", "7d", "As"]) && DecodeAll(["10s", "3c", "3h", "Qd", "7d", "As"]) == [Card(10, 's'), Card(3, 'c'), Card(3, 'h'), Card(12, 'd'), Card(7, 'd'), Card(14, 's')]
  {
    FullHouseNoTripleDecoded2();
  }

  lemma FullHouseNoTripleDecoded()
    ensures ValidTokens(["10d", "10s", "3c", "3h", "Qd", "7d", "As"]) && DecodeAll(["10d", "10s", "3c", "3h", "Qd", "7d", "As"]) == [Card(10, 'd'), Card(10, 's'), Card(3, 'c'), Card(3, 'h'), Card(12, 'd'), Card(7, 'd'), Card(14, 's')]
  {
    FullHouseNoTripleDecoded1();
  }

  lemma FullHouseNoTripleCards(h: seq<Card>)
    requires Same(h, [Card(10, 'd'), Card(10, 's'), Card(3, 'c'), Card(3, 'h'), Card(12, 'd'), Card(7, 'd'), Card(14, 's')])
    ensures |h| == 7 && Ranks(h) == [10, 10, 3, 3, 12, 7, 14] && SuitsOf(h) == ['d', 's', 'c', 'h', 'd', 'd', 's']
  {
    SameEq(h, [Card(10, 'd'), Card(10, 's'), Card(3, 'c'), Card(3, 'h'), Card(12, 'd'), Card(7, 'd'), Card(14, 's')]);
    FullHouseNoTripleFact2();
    FullHouseNoTripleFact3();
  }

  lemma FullHouseNoTripleFact1()
    ensures forall r :: Occ([10, 10, 3, 3, 12, 7, 14], r) < 3
  {
  }

  lemma FullHouseNoTripleFact2()
    ensures Ranks([Card(10, 'd'), Card(10, 's'), Card(3, 'c'), Card(3, 'h'), Card(12, 'd'), Card(7, 'd'), Card(14, 's')]) == [10, 10, 3, 3, 12, 7, 14]
  {
  }

  lemma FullHouseNoTripleFact3()
    ensures SuitsOf([Card(10, 'd'), Card(10, 's'), Card(3, 'c'), Card(3, 'h'), Card(12, 'd'), Card(7, 'd'), Card(14, 's')]) == ['d', 's', 'c', 'h', 'd', 'd', 's']
  {
  }

  lemma FullHouseNoTripleLength(h: seq<Card>)
    requires Same(h, [Card(10, 'd'), Card(10, 's'), Card(3, 'c'), Card(3, 'h'), Card(12, 'd'), Card(7, 'd'), Card(14, 's')])
    ensures |h| == 7
  {
    SameEq(h, [Card(10, 'd'), Card(10, 's'), Card(3, 'c'), Card(3, 'h'), Card(12, 'd'), Card(7, 'd'), Card(14, 's')]);
  }

  lemma FullHouseNoTripleResult(h: seq<Card>)
    requires Same(h, [Card(10, 'd'), Card(10, 's'), Card(3, 'c'), Card(3, 'h'), Card(12, 'd'), Card(7, 'd'), Card(14, 's')])
    ensures FullHouse(h) == None
  {
    FullHouseNoTripleCards(h);
    FullHouseNoTripleFact1();
    NoTriple(h, [10, 10, 3, 3, 12, 7, 14], 3);
  }

  /** The expected result of the unit test FullHouseNoTriple. */
  lemma FullHouseNoTriple(h: seq<Card>)
    requires Same(h, DecodeAll(["10d", "10s", "3c", "3h", "Qd", "7d", "As"]))
    ensures FullHouse(h) == None && FullHouse(SortByRank(h)) == None
  {
    FullHouseNoTripleDecoded();
    FullHouseNoTripleResult(h);
    FullHouseNoTripleLength(h);
    DetectorsSorted(h);
  }

  // FullHouseNoPair, ranking.py:238

  lemma FullHouseNoPairDecoded6()
    ensures ValidTokens(["As"]) && DecodeAll(["As"]) == [Card(14, 's')]
  {
  }

  lemma FullHouseNoPairDecoded5()
    ensures ValidTokens(["7d", "As"]) && DecodeAll(["7d", "As"]) == [Card(7, 'd'), Card(14, 's')]
  {
    FullHouseNoPairDecoded6();
  }

  lemma FullHouseNoPairDecoded4()
    ensures ValidTokens(["Qd", "7d", "As"]) && DecodeAll(["Qd", "7d", "As"]) == [Card(12, 'd'), Card(7, 'd'), Card(14, 's')]
  {
    FullHouseNoPairDecoded5();
  }

  lemma FullHouseNoPairDecoded3()
    ensures ValidTokens(["10h", "Qd", "7d", "As"]) && DecodeAll(["10h", "Qd", "7d", "As"]) == [Card(10, 'h'), Card(12, 'd'), Card(7, 'd'), Card(14, 's')]
  {
    FullHouseNoPairDecoded4();
  }

  lemma FullHouseNoPairDecoded2()
    ensures ValidTokens(["3c", "10h", "Qd", "7d", "As"]) && DecodeAll(["3c", "10h", "Qd", "7d", "As"]) == [Card(3, 'c'), Card(10, 'h'), Card(12, 'd'), Card(7, 'd'), Card(14, 's')]
  {
    FullHouseNoPairDecoded3();
  }

  lemma FullHouseNoPairDecoded1()
    ensures ValidTokens(["10s", "3c", "10h", "Qd", "7d", "As"]) && DecodeAll(["10s", "3c", "10h", "Qd", "7d", "As"]) == [Card(10, 's'), Card(3, 'c'), Card(10, 'h'), Card(12, 'd'), Card(7, 'd'), Card(14, 's')]
  {
    FullHouseNoPairDecoded2();
  }

  lemma FullHouseNoPairDecoded()
    ensures ValidTokens(["10d", "10s", "3c", "10h", "Qd", "7d", "As"]) && DecodeAll(["10d", "10s", "3c", "10h", "Qd", "7d", "As"]) == [Card(10, 'd'), Card(10, 's'), Card(3, 'c'), Card(10, 'h'), Card(12, 'd'), Card(7, 'd'), Card(14, 's')]
  {
    FullHouseNoPairDecoded1();
  }

  lemma FullHouseNoPairCards(h: seq<Card>)
    requires Same(h, [Card(10, 'd'), Card(10, 's'), Card(3, 'c'), Card(10, 'h'), Card(12, 'd'), Card(7, 'd'), Card(14, 's')])
    ensures |h| == 7 && Ranks(h) == [10, 10, 3, 10, 12, 7, 14] && SuitsOf(h) == ['d', 's', 'c', 'h', 'd', 'd', 's']
  {
    SameEq(h, [Card(10, 'd'), Card(10, 's'), Card(3, 'c'), Card(10, 'h'), Card(12, 'd'), Card(7, 'd'), Card(14, 's')]);
    FullHouseNoPairFact2();
    FullHouseNoPairFact3();
  }

  lemma FullHouseNoPairFact1()
    ensures forall t, p :: !(Occ([10, 10, 3, 10, 12, 7, 14], t) == 3 && PairFor([10, 10, 3, 10, 12, 7, 14], t, p))
  {
  }

  lemma FullHouseNoPairFact2()
    ensures Ranks([Card(10, 'd'), Card(10, 's'), Card(3, 'c'), Card(10, 'h'), Card(12, 'd'), Card(7, 'd'), Card(14, 's')]) == [10, 10, 3, 10, 12, 7, 14]
  {
  }

  lemma FullHouseNoPairFact3()
    ensures SuitsOf([Card(10, 'd'), Card(10, 's'), Card(3, 'c'), Card(10, 'h'), Card(12, 'd'), Card(7, 'd'), Card(14, 's')]) == ['d', 's', 'c', 'h', 'd', 'd', 's']
  {
  }

  lemma FullHouseNoPairLength(h: seq<Card>)
    requires Same(h, [Card(10, 'd'), Card(10, 's'), Card(3, 'c'), Card(10, 'h'), Card(12, 'd'), Card(7, 'd'), Card(14, 's')])
    ensures |h| == 7
  {
    SameEq(h, [Card(10, 'd'), Card(10, 's'), Card(3, 'c'), Card(10, 'h'), Card(12, 'd'), Card(7, 'd'), Card(14, 's')]);
  }

  lemma FullHouseNoPairResult(h: seq<Card>)
    requires Same(h, [Card(10, 'd'), Card(10, 's'), Card(3, 'c'), Card(10, 'h'), Card(12, 'd'), Card(7, 'd'), Card(14, 's')])
    ensures FullHouse(h) == None
  {
    FullHouseNoPairCards(h);
    FullHouseNoPairFact1();
    NoPairForTriple(h, [10, 10, 3, 10, 12, 7, 14]);
  }

  /** The expected result of the unit test FullHouseNoPair. */
  lemma FullHouseNoPair(h: seq<Card>)
    requires Same(h, DecodeAll(["10d", "10s", "3c", "10h", "Qd", "7d", "As"]))
    ensures FullHouse(h) == None && FullHouse(SortByRank(h)) == None
  {
    FullHouseNoPairDecoded();
    FullHouseNoPairResult(h);
    FullHouseNoPairLength(h);
    DetectorsSorted(h);
  }

  // FullHouseFound, ranking.py:242

  lemma FullHouseFoundDecoded6()
    ensures ValidTokens(["As"]) && DecodeAll(["As"]) == [Card(14, 's')]
  {
  }

  lemma FullHouseFoundDecoded5()
    ensures ValidTokens(["3c", "As"]) && DecodeAll(["3c", "As"]) == [Card(3, 'c'), Card(14, 's')]
  {
    FullHouseFoundDecoded6();
  }

  lemma FullHouseFoundDecoded4()
    ensures ValidTokens(["3h", "3c", "As"]) && DecodeAll(["3h", "3c", "As"]) == [Card(3, 'h'), Card(3, 'c'), Card(14, 's')]
  {
    FullHouseFoundDecoded5();
  }

  lemma FullHouseFoundDecoded3()
    ensures ValidTokens(["5d", "3h", "3c", "As"]) && DecodeAll(["5d", "3h", "3c", "As"]) == [Card(5, 'd'), Card(3, 'h'), Card(3, 'c'), Card(14, 's')]
  {
    FullHouseFoundDecoded4();
  }

  lemma FullHouseFoundDecoded2()
    ensures ValidTokens(["3d", "5d", "3h", "3c", "As"]) && DecodeAll(["3d", "5d", "3h", "3c", "As"]) == [Card(3, 'd'), Card(5, 'd'), Card(3, 'h'), Card(3, 'c'), Card(14, 's')]
  {
    FullHouseFoundDecoded3();
  }

  lemma FullHouseFoundDecoded1()
    ensures ValidTokens(["10s", "3d", "5d", "3h", "3c", "As"]) && DecodeAll(["10s", "3d", "5d", "3h", "3c", "As"]) == [Card(10, 's'), Card(3, 'd'), Card(5, 'd'), Card(3, 'h'), Card(3, 'c'), Card(14, 's')]
  {
    FullHouseFoundDecoded2();
  }

  lemma FullHouseFoundDecoded()
    ensures ValidTokens(["10d", "10s", "3d", "5d", "3h", "3c", "As"]) && DecodeAll(["10d", "10s", "3d", "5d", "3h", "3c", "As"]) == [Card(10, 'd'), Card(10, 's'), Card(3, 'd'), Card(5, 'd'), Card(3, 'h'), Card(3, 'c'), Card(14, 's')]
  {
    FullHouseFoundDecoded1();
  }

  lemma FullHouseFoundCards(h: seq<Card>)
    requires Same(h, [Card(10, 'd'), Card(10, 's'), Card(3, 'd'), Card(5, 'd'), Card(3, 'h'), Card(3, 'c'), Card(14, 's')])
    ensures |h| == 7 && Ranks(h) == [10, 10, 3, 5, 3, 3, 14] && SuitsOf(h) == ['d', 's', 'd', 'd', 'h', 'c', 's']
  {
    SameEq(h, [Card(10, 'd'), Card(10, 's'), Card(3, 'd'), Card(5, 'd'), Card(3, 'h'), Card(3, 'c'), Card(14, 's')]);
    FullHouseFoundFact3();
    FullHouseFoundFact4();
  }

  lemma FullHouseFoundFact1()
    ensures Occ([10, 10, 3, 5, 3, 3, 14], 3) == 3 && forall r :: Occ([10, 10, 3, 5, 3, 3, 14], r) == 3 ==> r <= 3
  {
  }

  lemma FullHouseFoundFact2()
    ensures PairFor([10, 10, 3, 5, 3, 3, 14], 3, 10) && forall p :: PairFor([10, 10, 3, 5, 3, 3, 14], 3, p) ==> p <= 10
  {
  }

  lemma FullHouseFoundFact3()
    ensures Ranks([Card(10, 'd'), Card(10, 's'), Card(3, 'd'), Card(5, 'd'), Card(3, 'h'), Card(3, 'c'), Card(14, 's')]) == [10, 10, 3, 5, 3, 3, 14]
  {
  }

  lemma FullHouseFoundFact4()
    ensures SuitsOf([Card(10, 'd'), Card(10, 's'), Card(3, 'd'), Card(5, 'd'), Card(3, 'h'), Card(3, 'c'), Card(14, 's')]) == ['d', 's', 'd', 'd', 'h', 'c', 's']
  {
  }

  lemma FullHouseFoundLength(h: seq<Card>)
    requires Same(h, [Card(10, 'd'), Card(10, 's'), Card(3, 'd'), Card(5, 'd'), Card(3, 'h'), Card(3, 'c'), Card(14, 's')])
    ensures |h| == 7
  {
    SameEq(h, [Card(10, 'd'), Card(10, 's'), Card(3, 'd'), Card(5, 'd'), Card(3, 'h'), Card(3, 'c'), Card(14, 's')]);
  }

  lemma FullHouseFoundResult(h: seq<Card>)
    requires Same(h, [Card(10, 'd'), Card(10, 's'), Card(3, 'd'), Card(5, 'd'), Card(3, 'h'), Card(3, 'c'), Card(14, 's')])
    ensures FullHouse(h) == Some([3, 10])
  {
    FullHouseFoundCards(h);
    FullHouseFoundFact1();
    FullHouseFoundFact2();
    FullHouseIs(h, [10, 10, 3, 5, 3, 3, 14], 3, 10);
  }

  /** The expected result of the unit test FullHouseFound. */
  lemma FullHouseFound(h: seq<Card>)
    requires Same(h, DecodeAll(["10d", "10s", "3d", "5d", "3h", "3c", "As"]))
    ensures FullHouse(h) == Some([3, 10]) && FullHouse(SortByRank(h)) == Some([3, 10])
  {
    FullHouseFoundDecoded();
    FullHouseFoundResult(h);
    FullHouseFoundLength(h);
    DetectorsSorted(h);
  }

  // FullHouseChooseBest, ranking.py:246

  lemma FullHouseChooseBestDecoded6()
    ensures ValidTokens(["Qs"]) && DecodeAll(["Qs"]) == [Card(12, 's')]
  {
  }

  lemma FullHouseChooseBestDecoded5()
    ensures ValidTokens(["3c", "Qs"]) && DecodeAll(["3c", "Qs"]) == [Card(3, 'c'), Card(12, 's')]
  {
    FullHouseChooseBestDecoded6();
  }

  lemma FullHouseChooseBestDecoded4()
    ensures ValidTokens(["3h", "3c", "Qs"]) && DecodeAll(["3h", "3c", "Qs"]) == [Card(3, 'h'), Card(3, 'c'), Card(12, 's')]
  {
    FullHouseChooseBestDecoded5();
  }

  lemma FullHouseChooseBestDecoded3()
    ensures ValidTokens(["Qd", "3h", "3c", "Qs"]) && DecodeAll(["Qd", "3h", "3c", "Qs"]) == [Card(12, 'd'), Card(3, 'h'), Card(3, 'c'), Card(12, 's')]
  {
    FullHouseChooseBestDecoded4();
  }

  lemma FullHouseChooseBestDecoded2()
    ensures ValidTokens(["3d", "Qd", "3h", "3c", "Qs"]) && DecodeAll(["3d", "Qd", "3h", "3c", "Qs"]) == [Card(3, 'd'), Card(12, 'd'), Card(3, 'h'), Card(3, 'c'), Card(12, 's')]
  {
    FullHouseChooseBestDecoded3();
  }

  lemma FullHouseChooseBestDecoded1()
    ensures ValidTokens(["10s", "3d", "Qd", "3h", "3c", "Qs"]) && DecodeAll(["10s", "3d", "Qd", "3h", "3c", "Qs"]) == [Card(10, 's'), Card(3, 'd'), Card(12, 'd'), Card(3, 'h'), Card(3, 'c'), Card(12, 's')]
  {
    FullHouseChooseBestDecoded2();
  }

  lemma FullHouseChooseBestDecoded()
    ensures ValidTokens(["10d", "10s", "3d", "Qd", "3h", "3c", "Qs"]) && DecodeAll(["10d", "10s", "3d", "Qd", "3h", "3c", "Qs"]) == [Card(10, 'd'), Card(10, 's'), Card(3, 'd'), Card(12, 'd'), Card(3, 'h'), Card(3, 'c'), Card(12, 's')]
  {
    FullHouseChooseBestDecoded1();
  }

  lemma FullHouseChooseBestCards(h: seq<Card>)
    requires Same(h, [Card(10, 'd'), Card(10, 's'), Card(3, 'd'), Card(12, 'd'), Card(3, 'h'), Card(3, 'c'), Card(12, 's')])
    ensures |h| == 7 && Ranks(h) == [10, 10, 3, 12, 3, 3, 12] && SuitsOf(h) == ['d', 's', 'd', 'd', 'h', 'c', 's']
  {
    SameEq(h, [Card(10, 'd'), Card(10, 's'), Card(3, 'd'), Card(12, 'd'), Card(3, 'h'), Card(3, 'c'), Card(12, 's')]);
    FullHouseChooseBestFact3();
    FullHouseChooseBestFact4();
  }

  lemma FullHouseChooseBestFact1()
    ensures Occ([10, 10, 3, 12, 3, 3, 12], 3) == 3 && forall r :: Occ([10, 10, 3, 12, 3, 3, 12], r) == 3 ==> r <= 3
  {
  }

  lemma FullHouseChooseBestFact2()
    ensures PairFor([10, 10, 3, 12, 3, 3, 12], 3, 12) && forall p :: PairFor([10, 10, 3, 12, 3, 3, 12], 3, p) ==> p <= 12
  {
  }

  lemma FullHouseChooseBestFact3()
    ensures Ranks([Card(10, 'd'), Card(10, 's'), Card(3, 'd'), Card(12, 'd'), Card(3, 'h'), Card(3, 'c'), Card(12, 's')]) == [10, 10, 3, 12, 3, 3, 12]
  {
  }

  lemma FullHouseChooseBestFact4()
    ensures SuitsOf([Card(10, 'd'), Card(10, 's'), Card(3, 'd'), Card(12, 'd'), Card(3, 'h'), Card(3, 'c'), Card(12, 's')]) == ['d', 's', 'd', 'd', 'h', 'c', 's']
  {
  }

  lemma FullHouseChooseBestLength(h: seq<Card>)
    requires Same(h, [Card(10, 'd'), Card(10, 's'), Card(3, 'd'), Card(12, 'd'), Card(3, 'h'), Card(3, 'c'), Card(12, 's')])
    ensures |h| == 7
  {
    SameEq(h, [Card(10, 'd'), Card(10, 's'), Card(3, 'd'), Card(12, 'd'), Card(3, 'h'), Card(3, 'c'), Card(12, 's')]);
  }

  lemma FullHouseChooseBestResult(h: seq<Card>)
    requires Same(h, [Card(10, 'd'), Card(10, 's'), Card(3, 'd'), Card(12, 'd'), Card(3, 'h'), Card(3, 'c'), Card(12, 's')])
    ensures FullHouse(h) == Some([3, 12])
  {
    FullHouseChooseBestCards(h);
    FullHouseChooseBestFact1();
    FullHouseChooseBestFact2();
    FullHouseIs(h, [10, 10, 3, 12, 3, 3, 12], 3, 12);
  }

  /** The expected result of the unit test FullHouseChooseBest. */
  lemma FullHouseChooseBest(h: seq<Card>)
    requires Same(h, DecodeAll(["10d", "10s", "3d", "Qd", "3h", "3c", "Qs"]))
    ensures FullHouse(h) == Some([3, 12]) && FullHouse(SortByRank(h)) == Some([3, 12])
  {
    FullHouseChooseBestDecoded();
    FullHouseChooseBestResult(h);
    FullHouseChooseBestLength(h);
    DetectorsSorted(h);
  }

  // StraightFlushNoFlush, ranking.py:256

  lemma StraightFlushNoFlushDecoded6()
    ensures ValidTokens(["8d"]) && DecodeAll(["8d"]) == [Card(8, 'd')]
  {
  }

  lemma StraightFlushNoFlushDecoded5()
    ensures ValidTokens(["7d", "8d"]) && DecodeAll(["7d", "8d"]) == [Card(7, 'd'), Card(8, 'd')]
  {
    StraightFlushNoFlushDecoded6();
  }

  lemma StraightFlushNoFlushDecoded4()
    ensures ValidTokens(["6d", "7d", "8d"]) && DecodeAll(["6d", "7d", "8d"]) == [Card(6, 'd'), Card(7, 'd'), Card(8, 'd')]
  {
    StraightFlushNoFlushDecoded5();
  }

  lemma StraightFlushNoFlushDecoded3()
    ensures ValidTokens(["5c", "6d", "7d", "8d"]) && DecodeAll(["5c", "6d", "7d", "8d"]) == [Card(5, 'c'), Card(6, 'd'), Card(7, 'd'), Card(8, 'd')]
  {
    StraightFlushNoFlushDecoded4();
  }

  lemma StraightFlushNoFlushDecoded2()
    ensures ValidTokens(["4s", "5c", "6d", "7d", "8d"]) && DecodeAll(["4s", "5c", "6d", "7d", "8d"]) == [Card(4, 's'), Card(5, 'c'), Card(6, 'd'), Card(7, 'd'), Card(8, 'd')]
  {
    StraightFlushNoFlushDecoded3();
  }

  lemma StraightFlushNoFlushDecoded1()
    ensures ValidTokens(["3d", "4s", "5c", "6d", "7d", "8d"]) && DecodeAll(["3d", "4s", "5c", "6d", "7d", "8d"]) == [Card(3, 'd'), Card(4, 's'), Card(5, 'c'), Card(6, 'd'), Card(7, 'd'), Card(8, 'd')]
  {
    StraightFlushNoFlushDecoded2();
  }

  lemma StraightFlushNoFlushDecoded()
    ensures ValidTokens(["2d", "3d", "4s", "5c", "6d", "7d", "8d"]) && DecodeAll(["2d", "3d", "4s", "5c", "6d", "7d", "8d"]) == [Card(2, 'd'), Card(3, 'd'), Card(4, 's'), Card(5, 'c'), Card(6, 'd'), Card(7, 'd'), Card(8, 'd')]
  {
    StraightFlushNoFlushDecoded1();
  }

  lemma StraightFlushNoFlushCards(h: seq<Card>)
    requires Same(h, [Card(2, 'd'), Card(3, 'd'), Card(4, 's'), Card(5, 'c'), Card(6, 'd'), Card(7, 'd'), Card(8, 'd')])
    ensures |h| == 7 && Ranks(h) == [2, 3, 4, 5, 6, 7, 8] && SuitsOf(h) == ['d', 'd', 's', 'c', 'd', 'd', 'd']
    ensures Ranks(OfSuit(h, 'd')) == [2, 3, 6, 7, 8]
  {
    SameEq(h, [Card(2, 'd'), Card(3, 'd'), Card(4, 's'), Card(5, 'c'), Card(6, 'd'), Card(7, 'd'), Card(8, 'd')]);
    StraightFlushNoFlushFact3();
    StraightFlushNoFlushFact4();
    StraightFlushNoFlushFact5();
  }

  lemma StraightFlushNoFlushFact1()
    ensures Occ(['d', 'd', 's', 'c', 'd', 'd', 'd'], 'd') >= 5
  {
  }

  lemma StraightFlushNoFlushFact2()
    ensures forall t :: !TopIn([2, 3, 6, 7, 8], t)
  {
  }

  lemma StraightFlushNoFlushFact3()
    ensures Ranks([Card(2, 'd'), Card(3, 'd'), Card(4, 's'), Card(5, 'c'), Card(6, 'd'), Card(7, 'd'), Card(8, 'd')]) == [2, 3, 4, 5, 6, 7, 8]
  {
  }

  lemma StraightFlushNoFlushFact4()
    ensures SuitsOf([Card(2, 'd'), Card(3, 'd'), Card(4, 's'), Card(5, 'c'), Card(6, 'd'), Card(7, 'd'), Card(8, 'd')]) == ['d', 'd', 's', 'c', 'd', 'd', 'd']
  {
  }

  lemma StraightFlushNoFlushFact5()
    ensures Ranks(OfSuit([Card(2, 'd'), Card(3, 'd'), Card(4, 's'), Card(5, 'c'), Card(6, 'd'), Card(7, 'd'), Card(8, 'd')], 'd')) == [2, 3, 6, 7, 8]
  {
  }

  lemma StraightFlushNoFlushLength(h: seq<Card>)
    requires Same(h, [Card(2, 'd'), Card(3, 'd'), Card(4, 's'), Card(5, 'c'), Card(6, 'd'), Card(7, 'd'), Card(8, 'd')])
    ensures |h| == 7
  {
    SameEq(h, [Card(2, 'd'), Card(3, 'd'), Card(4, 's'), Card(5, 'c'), Card(6, 'd'), Card(7, 'd'), Card(8, 'd')]);
  }

  lemma StraightFlushNoFlushResult(h: seq<Card>)
    requires Same(h, [Card(2, 'd'), Card(3, 'd'), Card(4, 's'), Card(5, 'c'), Card(6, 'd'), Card(7, 'd'), Card(8, 'd')])
    ensures StraightFlush(h) == None
  {
    StraightFlushNoFlushCards(h);
    StraightFlushNoFlushFact1();
    StraightFlushNoFlushFact2();
    NoStraightInSuit(h, ['d', 'd', 's', 'c', 'd', 'd', 'd'], 'd', [2, 3, 6, 7, 8]);
  }

  /** The expected result of the unit test StraightFlushNoFlush. */
  lemma StraightFlushNoFlush(h: seq<Card>)
    requires Same(h, DecodeAll(["2d", "3d", "4s", "5c", "6d", "7d", "8d"]))
    ensures StraightFlush(h) == None && StraightFlush(SortByRank(h)) == None
  {
    StraightFlushNoFlushDecoded();
    StraightFlushNoFlushResult(h);
    StraightFlushNoFlushLength(h);
    DetectorsSorted(h);
  }

  // StraightFlushNoStraight, ranking.py:260

  lemma StraightFlushNoStraightDecoded6()
    ensures ValidTokens(["Ad"]) && DecodeAll(["Ad"]) == [Card(14, 'd')]
  {
  }

  lemma StraightFlushNoStraightDecoded5()
    ensures ValidTokens(["7d", "Ad"]) && DecodeAll(["7d", "Ad"]) == [Card(7, 'd'), Card(14, 'd')]
  {
    StraightFlushNoStraightDecoded6();
  }

  lemma StraightFlushNoStraightDecoded4()
    ensures ValidTokens(["Qd", "7d", "Ad"]) && DecodeAll(["Qd", "7d", "Ad"]) == [Card(12, 'd'), Card(7, 'd'), Card(14, 'd')]
  {
    StraightFlushNoStraightDecoded5();
  }

  lemma StraightFlushNoStraightDecoded3()
    ensures ValidTokens(["3d", "Qd", "7d", "Ad"]) && DecodeAll(["3d", "Qd", "7d", "Ad"]) == [Card(3, 'd'), Card(12, 'd'), Card(7, 'd'), Card(14, 'd')]
  {
    StraightFlushNoStraightDecoded4();
  }

  lemma StraightFlushNoStraightDecoded2()
    ensures ValidTokens(["3d", "3d", "Qd", "7d", "Ad"]) && DecodeAll(["3d", "3d", "Qd", "7d", "Ad"]) == [Card(3, 'd'), Card(3, 'd'), Card(12, 'd'), Card(7, 'd'), Card(14, 'd')]
  {
    StraightFlushNoStraightDecoded3();
  }

  lemma StraightFlushNoStraightDecoded1()
    ensures ValidTokens(["10d", "3d", "3d", "Qd", "7d", "Ad"]) && DecodeAll(["10d", "3d", "3d", "Qd", "7d", "Ad"]) == [Card(10, 'd'), Card(3, 'd'), Card(3, 'd'), Card(12, 'd'), Card(7, 'd'), Card(14, 'd')]
  {
    StraightFlushNoStraightDecoded2();
  }

  lemma StraightFlushNoStraightDecoded()
    ensures ValidTokens(["10d", "10d", "3d", "3d", "Qd", "7d", "Ad"]) && DecodeAll(["10d", "10d", "3d", "3d", "Qd", "7d", "Ad"]) == [Card(10, 'd'), Card(10, 'd'), Card(3, 'd'), Card(3, 'd'), Card(12, 'd'), Card(7, 'd'), Card(14, 'd')]
  {
    StraightFlushNoStraightDecoded1();
  }

  lemma StraightFlushNoStraightCards(h: seq<Card>)
    requires Same(h, [Card(10, 'd'), Card(10, 'd'), Card(3, 'd'), Card(3, 'd'), Card(12, 'd'), Card(7, 'd'), Card(14, 'd')])
    ensures |h| == 7 && Ranks(h) == [10, 10, 3, 3, 12, 7, 14] && SuitsOf(h) == ['d', 'd', 'd', 'd', 'd', 'd', 'd']
    ensures Ranks(OfSuit(h, 'd')) == [10, 10, 3, 3, 12, 7, 14]
  {
    SameEq(h, [Card(10, 'd'), Card(10, 'd'), Card(3, 'd'), Card(3, 'd'), Card(12, 'd'), Card(7, 'd'), Card(14, 'd')]);
    StraightFlushNoStraightFact3();
    StraightFlushNoStraightFact4();
    StraightFlushNoStraightFact5();
  }

  lemma StraightFlushNoStraightFact1()
    ensures Occ(['d', 'd', 'd', 'd', 'd', 'd', 'd'], 'd') >= 5
  {
  }

  lemma StraightFlushNoStraightFact2()
    ensures forall t :: !TopIn([10, 10, 3, 3, 12, 7, 14], t)
  {
  }

  lemma StraightFlushNoStraightFact3()
    ensures Ranks([Card(10, 'd'), Card(10, 'd'), Card(3, 'd'), Card(3, 'd'), Card(12, 'd'), Card(7, 'd'), Card(14, 'd')]) == [10, 10, 3, 3, 12, 7, 14]
  {
  }

  lemma StraightFlushNoStraightFact4()
    ensures SuitsOf([Card(10, 'd'), Card(10, 'd'), Card(3, 'd'), Card(3, 'd'), Card(12, 'd'), Card(7, 'd'), Card(14, 'd')]) == ['d', 'd', 'd', 'd', 'd', 'd', 'd']
  {
  }

  lemma StraightFlushNoStraightFact5()
    ensures Ranks(OfSuit([Card(10, 'd'), Card(10, 'd'), Card(3, 'd'), Card(3, 'd'), Card(12, 'd'), Card(7, 'd'), Card(14, 'd')], 'd')) == [10, 10, 3, 3, 12, 7, 14]
  {
  }

  lemma StraightFlushNoStraightLength(h: seq<Card>)
    requires Same(h, [Card(10, 'd'), Card(10, 'd'), Card(3, 'd'), Card(3, 'd'), Card(12, 'd'), Card(7, 'd'), Card(14, 'd')])
    ensures |h| == 7
  {
    SameEq(h, [Card(10, 'd'), Card(10, 'd'), Card(3, 'd'), Card(3, 'd'), Card(12, 'd'), Card(7, 'd'), Card(14, 'd')]);
  }

  lemma StraightFlushNoStraightResult(h: seq<Card>)
    requires Same(h, [Card(10, 'd'), Card(10, 'd'), Card(3, 'd'), Card(3, 'd'), Card(12, 'd'), Card(7, 'd'), Card(14, 'd')])
    ensures StraightFlush(h) == None
  {
    StraightFlushNoStraightCards(h);
    StraightFlushNoStraightFact1();
    StraightFlushNoStraightFact2();
    NoStraightInSuit(h, ['d', 'd', 'd', 'd', 'd', 'd', 'd'], 'd', [10, 10, 3, 3, 12, 7, 14]);
  }

  /** The expected result of the unit test StraightFlushNoStraight. */
  lemma StraightFlushNoStraight(h: seq<Card>)
    requires Same(h, DecodeAll(["10d", "10d", "3d", "3d", "Qd", "7d", "Ad"]))
    ensures StraightFlush(h) == None && StraightFlush(SortByRank(h)) == None
  {
    StraightFlushNoStraightDecoded();
    StraightFlushNoStraightResult(h);
    StraightFlushNoStraightLength(h);
    DetectorsSorted(h);
  }

  // StraightFlushFound, ranking.py:264

  lemma StraightFlushFoundDecoded6()
    ensures ValidTokens(["8c"]) && DecodeAll(["8c"]) == [Card(8, 'c')]
  {
  }

  lemma StraightFlushFoundDecoded5()
    ensures ValidTokens(["7d", "8c"]) && DecodeAll(["7d", "8c"]) == [Card(7, 'd'), Card(8, 'c')]
  {
    StraightFlushFoundDecoded6();
  }

  lemma StraightFlushFoundDecoded4()
    ensures ValidTokens(["6d", "7d", "8c"]) && DecodeAll(["6d", "7d", "8c"]) == [Card(6, 'd'), Card(7, 'd'), Card(8, 'c')]
  {
    StraightFlushFoundDecoded5();
  }

  lemma StraightFlushFoundDecoded3()
    ensures ValidTokens(["5d", "6d", "7d", "8c"]) && DecodeAll(["5d", "6d", "7d", "8c"]) == [Card(5, 'd'), Card(6, 'd'), Card(7, 'd'), Card(8, 'c')]
  {
    StraightFlushFoundDecoded4();
  }

  lemma StraightFlushFoundDecoded2()
    ensures ValidTokens(["4d", "5d", "6d", "7d", "8c"]) && DecodeAll(["4d", "5d", "6d", "7d", "8c"]) == [Card(4, 'd'), Card(5, 'd'), Card(6, 'd'), Card(7, 'd'), Card(8, 'c')]
  {
    StraightFlushFoundDecoded3();
  }

  lemma StraightFlushFoundDecoded1()
    ensures ValidTokens(["3d", "4d", "5d", "6d", "7d", "8c"]) && DecodeAll(["3d", "4d", "5d", "6d", "7d", "8c"]) == [Card(3, 'd'), Card(4, 'd'), Card(5, 'd'), Card(6, 'd'), Card(7, 'd'), Card(8, 'c')]
  {
    StraightFlushFoundDecoded2();
  }

  lemma StraightFlushFoundDecoded()
    ensures ValidTokens(["2d", "3d", "4d", "5d", "6d", "7d", "8c"]) && DecodeAll(["2d", "3d", "4d", "5d", "6d", "7d", "8c"]) == [Card(2, 'd'), Card(3, 'd'), Card(4, 'd'), Card(5, 'd'), Card(6, 'd'), Card(7, 'd'), Card(8, 'c')]
  {
    StraightFlushFoundDecoded1();
  }

  lemma StraightFlushFoundCards(h: seq<Card>)
    requires Same(h, [Card(2, 'd'), Card(3, 'd'), Card(4, 'd'), Card(5, 'd'), Card(6, 'd'), Card(7, 'd'), Card(8, 'c')])
    ensures |h| == 7 && Ranks(h) == [2, 3, 4, 5, 6, 7, 8] && SuitsOf(h) == ['d', 'd', 'd', 'd', 'd', 'd', 'c']
    ensures Ranks(OfSuit(h, 'd')) == [2, 3, 4, 5, 6, 7]
  {
    SameEq(h, [Card(2, 'd'), Card(3, 'd'), Card(4, 'd'), Card(5, 'd'), Card(6, 'd'), Card(7, 'd'), Card(8, 'c')]);
    StraightFlushFoundFact3();
    StraightFlushFoundFact4();
    StraightFlushFoundFact5();
  }

  lemma StraightFlushFoundFact1()
    ensures Occ(['d', 'd', 'd', 'd', 'd', 'd', 'c'], 'd') >= 5
  {
  }

  lemma StraightFlushFoundFact2()
    ensures TopIn([2, 3, 4, 5, 6, 7], 7) && forall t :: t > 7 ==> !TopIn([2, 3, 4, 5, 6, 7], t)
  {
  }

  lemma StraightFlushFoundFact3()
    ensures Ranks([Card(2, 'd'), Card(3, 'd'), Card(4, 'd'), Card(5, 'd'), Card(6, 'd'), Card(7, 'd'), Card(8, 'c')]) == [2, 3, 4, 5, 6, 7, 8]
  {
  }

  lemma StraightFlushFoundFact4()
    ensures SuitsOf([Card(2, 'd'), Card(3, 'd'), Card(4, 'd'), Card(5, 'd'), Card(6, 'd'), Card(7, 'd'), Card(8, 'c')]) == ['d', 'd', 'd', 'd', 'd', 'd', 'c']
  {
  }

  lemma StraightFlushFoundFact5()
    ensures Ranks(OfSuit([Card(2, 'd'), Card(3, 'd'), Card(4, 'd'), Card(5, 'd'), Card(6, 'd'), Card(7, 'd'), Card(8, 'c')], 'd')) == [2, 3, 4, 5, 6, 7]
  {
  }

  lemma StraightFlushFoundLength(h: seq<Card>)
    requires Same(h, [Card(2, 'd'), Card(3, 'd'), Card(4, 'd'), Card(5, 'd'), Card(6, 'd'), Card(7, 'd'), Card(8, 'c')])
    ensures |h| == 7
  {
    SameEq(h, [Card(2, 'd'), Card(3, 'd'), Card(4, 'd'), Card(5, 'd'), Card(6, 'd'), Card(7, 'd'), Card(8, 'c')]);
  }

  lemma StraightFlushFoundResult(h: seq<Card>)
    requires Same(h, [Card(2, 'd'), Card(3, 'd'), Card(4, 'd'), Card(5, 'd'), Card(6, 'd'), Card(7, 'd'), Card(8, 'c')])
    ensures StraightFlush(h) == Some(7)
  {
    StraightFlushFoundCards(h);
    StraightFlushFoundFact1();
    StraightFlushFoundFact2();
    StraightFlushIs(h, ['d', 'd', 'd', 'd', 'd', 'd', 'c'], 'd', [2, 3, 4, 5, 6, 7], 7);
  }

  /** The expected result of the unit test StraightFlushFound. */
  lemma StraightFlushFound(h: seq<Card>)
    requires Same(h, DecodeAll(["2d", "3d", "4d", "5d", "6d", "7d", "8c"]))
    ensures StraightFlush(h) == Some(7) && StraightFlush(SortByRank(h)) == Some(7)
  {
    StraightFlushFoundDecoded();
    StraightFlushFoundResult(h);
    StraightFlushFoundLength(h);
    DetectorsSorted(h);
  }

  // StraightFlushLowAce, ranking.py:268

  lemma StraightFlushLowAceDecoded6()
    ensures ValidTokens(["Ad"]) && DecodeAll(["Ad"]) == [Card(14, 'd')]
  {
  }

  lemma StraightFlushLowAceDecoded5()
    ensures ValidTokens(["7c", "Ad"]) && DecodeAll(["7c", "Ad"]) == [Card(7, 'c'), Card(14, 'd')]
  {
    StraightFlushLowAceDecoded6();
  }

  lemma StraightFlushLowAceDecoded4()
    ensures ValidTokens(["6c", "7c", "Ad"]) && DecodeAll(["6c", "7c", "Ad"]) == [Card(6, 'c'), Card(7, 'c'), Card(14, 'd')]
  {
    StraightFlushLowAceDecoded5();
  }

  lemma StraightFlushLowAceDecoded3()
    ensures ValidTokens(["5d", "6c", "7c", "Ad"]) && DecodeAll(["5d", "6c", "7c", "Ad"]) == [Card(5, 'd'), Card(6, 'c'), Card(7, 'c'), Card(14, 'd')]
  {
    StraightFlushLowAceDecoded4();
  }

  lemma StraightFlushLowAceDecoded2()
    ensures ValidTokens(["4d", "5d", "6c", "7c", "Ad"]) && DecodeAll(["4d", "5d", "6c", "7c", "Ad"]) == [Card(4, 'd'), Card(5, 'd'), Card(6, 'c'), Card(7, 'c'), Card(14, 'd')]
  {
    StraightFlushLowAceDecoded3();
  }

  lemma StraightFlushLowAceDecoded1()
    ensures ValidTokens(["3d", "4d", "5d", "6c", "7c", "Ad"]) && DecodeAll(["3d", "4d", "5d", "6c", "7c", "Ad"]) == [Card(3, 'd'), Card(4, 'd'), Card(5, 'd'), Card(6, 'c'), Card(7, 'c'), Card(14, 'd')]
  {
    StraightFlushLowAceDecoded2();
  }

  lemma StraightFlushLowAceDecoded()
    ensures ValidTokens(["2d", "3d", "4d", "5d", "6c", "7c", "Ad"]) && DecodeAll(["2d", "3d", "4d", "5d", "6c", "7c", "Ad"]) == [Card(2, 'd'), Card(3, 'd'), Card(4, 'd'), Card(5, 'd'), Card(6, 'c'), Card(7, 'c'), Card(14, 'd')]
  {
    StraightFlushLowAceDecoded1();
  }

  lemma StraightFlushLowAceCards(h: seq<Card>)
    requires Same(h, [Card(2, 'd'), Card(3, 'd'), Card(4, 'd'), Card(5, 'd'), Card(6, 'c'), Card(7, 'c'), Card(14, 'd')])
    ensures |h| == 7 && Ranks(h) == [2, 3, 4, 5, 6, 7, 14] && SuitsOf(h) == ['d', 'd', 'd', 'd', 'c', 'c', 'd']
    ensures Ranks(OfSuit(h, 'd')) == [2, 3, 4, 5, 14]
  {
    SameEq(h, [Card(2, 'd'), Card(3, 'd'), Card(4, 'd'), Card(5, 'd'), Card(6, 'c'), Card(7, 'c'), Card(14, 'd')]);
    StraightFlushLowAceFact3();
    StraightFlushLowAceFact4();
    StraightFlushLowAceFact5();
  }

  lemma StraightFlushLowAceFact1()
    ensures Occ(['d', 'd', 'd', 'd', 'c', 'c', 'd'], 'd') >= 5
  {
  }

  lemma StraightFlushLowAceFact2()
    ensures TopIn([2, 3, 4, 5, 14], 5) && forall t :: t > 5 ==> !TopIn([2, 3, 4, 5, 14], t)
  {
  }

  lemma StraightFlushLowAceFact3()
    ensures Ranks([Card(2, 'd'), Card(3, 'd'), Card(4, 'd'), Card(5, 'd'), Card(6, 'c'), Card(7, 'c'), Card(14, 'd')]) == [2, 3, 4, 5, 6, 7, 14]
  {
  }

  lemma StraightFlushLowAceFact4()
    ensures SuitsOf([Card(2, 'd'), Card(3, 'd'), Card(4, 'd'), Card(5, 'd'), Card(6, 'c'), Card(7, 'c'), Card(14, 'd')]) == ['d', 'd', 'd', 'd', 'c', 'c', 'd']
  {
  }

  lemma StraightFlushLowAceFact5()
    ensures Ranks(OfSuit([Card(2, 'd'), Card(3, 'd'), Card(4, 'd'), Card(5, 'd'), Card(6, 'c'), Card(7, 'c'), Card(14, 'd')], 'd')) == [2, 3, 4, 5, 14]
  {
  }

  lemma StraightFlushLowAceLength(h: seq<Card>)
    requires Same(h, [Card(2, 'd'), Card(3, 'd'), Card(4, 'd'), Card(5, 'd'), Card(6, 'c'), Card(7, 'c'), Card(14, 'd')])
    ensures |h| == 7
  {
    SameEq(h, [Card(2, 'd'), Card(3, 'd'), Card(4, 'd'), Card(5, 'd'), Card(6, 'c'), Card(7, 'c'), Card(14, 'd')]);
  }

  lemma StraightFlushLowAceResult(h: seq<Card>)
    requires Same(h, [Card(2, 'd'), Card(3, 'd'), Card(4, 'd'), Card(5, 'd'), Card(6, 'c'), Card(7, 'c'), Card(14, 'd')])
    ensures StraightFlush(h) == Some(5)
  {
    StraightFlushLowAceCards(h);
    StraightFlushLowAceFact1();
    StraightFlushLowAceFact2();
    StraightFlushIs(h, ['d', 'd', 'd', 'd', 'c', 'c', 'd'], 'd', [2, 3, 4, 5, 14], 5);
  }

  /** The expected result of the unit test StraightFlushLowAce. */
  lemma StraightFlushLowAce(h: seq<Card>)
    requires Same(h, DecodeAll(["2d", "3d", "4d", "5d", "6c", "7c", "Ad"]))
    ensures StraightFlush(h) == Some(5) && StraightFlush(SortByRank(h)) == Some(5)
  {
    StraightFlushLowAceDecoded();
    StraightFlushLowAceResult(h);
    StraightFlushLowAceLength(h);
    DetectorsSorted(h);
  }

  // find_straight_flush looks only at the first suit with five cards, ranking.py:115-122.

  lemma FirstSuitDecodedSpades()
    ensures ValidTokens(["As", "Ks", "Qs", "Js", "9s"]) && DecodeAll(["As", "Ks", "Qs", "Js", "9s"]) == [Card(14, 's'), Card(13, 's'), Card(12, 's'), Card(11, 's'), Card(9, 's')]
  {
  }

  lemma FirstSuitDecodedHearts()
    ensures ValidTokens(["8h", "7h", "6h", "5h", "4h"]) && DecodeAll(["8h", "7h", "6h", "5h", "4h"]) == [Card(8, 'h'), Card(7, 'h'), Card(6, 'h'), Card(5, 'h'), Card(4, 'h')]
  {
  }

  lemma FirstSuitDecoded()
    ensures ValidTokens(["As", "Ks", "Qs", "Js", "9s", "8h", "7h", "6h", "5h", "4h"]) && DecodeAll(["As", "Ks", "Qs", "Js", "9s", "8h", "7h", "6h", "5h", "4h"]) == [Card(14, 's'), Card(13, 's'), Card(12, 's'), Card(11, 's'), Card(9, 's')] + [Card(8, 'h'), Card(7, 'h'), Card(6, 'h'), Card(5, 'h'), Card(4, 'h')]
  {
    FirstSuitDecodedSpades();
    FirstSuitDecodedHearts();
    assert ["As", "Ks", "Qs", "Js", "9s", "8h", "7h", "6h", "5h", "4h"] == ["As", "Ks", "Qs", "Js", "9s"] + ["8h", "7h", "6h", "5h", "4h"];
    DecodeAllAppend(["As", "Ks", "Qs", "Js", "9s"], ["8h", "7h", "6h", "5h", "4h"]);
  }

  lemma FirstSuitHalves()
    ensures Descending([Card(14, 's'), Card(13, 's'), Card(12, 's'), Card(11, 's'), Card(9, 's')] + [Card(8, 'h'), Card(7, 'h'), Card(6, 'h'), Card(5, 'h'), Card(4, 'h')])
    ensures forall i :: 0 <= i < 5 ==> [Card(14, 's'), Card(13, 's'), Card(12, 's'), Card(11, 's'), Card(9, 's')][i].suit == 's' && [Card(8, 'h'), Card(7, 'h'), Card(6, 'h'), Card(5, 'h'), Card(4, 'h')][i].suit == 'h'
    ensures Ranks([Card(14, 's'), Card(13, 's'), Card(12, 's'), Card(11, 's'), Card(9, 's')]) == [14, 13, 12, 11, 9] && Ranks([Card(8, 'h'), Card(7, 'h'), Card(6, 'h'), Card(5, 'h'), Card(4, 'h')]) == [8, 7, 6, 5, 4]
  {
  }

  lemma FirstSuitNoStraight()
    ensures forall t :: !TopIn([14, 13, 12, 11, 9], t)
  {
  }

  lemma FirstSuitStraight()
    ensures TopIn([8, 7, 6, 5, 4], 8)
  {
  }

  lemma FirstSuitCards(h: seq<Card>)
    requires Same(h, [Card(14, 's'), Card(13, 's'), Card(12, 's'), Card(11, 's'), Card(9, 's')] + [Card(8, 'h'), Card(7, 'h'), Card(6, 'h'), Card(5, 'h'), Card(4, 'h')])
    ensures Descending(h) && |h| == 10 && h[0].suit == 's'
    ensures OfSuit(h, 's') == [Card(14, 's'), Card(13, 's'), Card(12, 's'), Card(11, 's'), Card(9, 's')] && OfSuit(h, 'h') == [Card(8, 'h'), Card(7, 'h'), Card(6, 'h'), Card(5, 'h'), Card(4, 'h')]
  {
    SameEq(h, [Card(14, 's'), Card(13, 's'), Card(12, 's'), Card(11, 's'), Card(9, 's')] + [Card(8, 'h'), Card(7, 'h'), Card(6, 'h'), Card(5, 'h'), Card(4, 'h')]);
    FirstSuitHalves();
    TwoSuits([Card(14, 's'), Card(13, 's'), Card(12, 's'), Card(11, 's'), Card(9, 's')], [Card(8, 'h'), Card(7, 'h'), Card(6, 'h'), Card(5, 'h'), Card(4, 'h')], 's', 'h');
  }

  /** Ten cards with five spades and five hearts: the spades come first among the
      sorted cards and hold no straight, so no straight flush is found, although
      the five hearts run from 8 down to 4. */
  lemma FirstSuitOnly(h: seq<Card>)
    requires Same(h, DecodeAll(["As", "Ks", "Qs", "Js", "9s", "8h", "7h", "6h", "5h", "4h"]))
    ensures StraightFlush(h) == None
    ensures Occ(SuitsOf(h), 'h') >= 5 && IsStraightTop(OfSuit(h, 'h'), 8)
  {
    FirstSuitDecoded();
    FirstSuitCards(h);
    FirstSuitHalves();
    FirstSuitNoStraight();
    FirstSuitStraight();
    OfSuitLength(h, 'h');
    FirstSuitDecides(h, 's');
    NoStraight(OfSuit(h, 's'), [14, 13, 12, 11, 9]);
    TopsIn(OfSuit(h, 'h'), [8, 7, 6, 5, 4]);
  }

  lemma Reference1Decoded6()
    ensures ValidTokens(["3c"]) && DecodeAll(["3c"]) == [Card(3, 'c')]
  {
  }

  lemma Reference1Decoded5()
    ensures ValidTokens(["2c", "3c"]) && DecodeAll(["2c", "3c"]) == [Card(2, 'c'), Card(3, 'c')]
  {
    Reference1Decoded6();
  }

  lemma Reference1Decoded4()
    ensures ValidTokens(["10s", "2c", "3c"]) && DecodeAll(["10s", "2c", "3c"]) == [Card(10, 's'), Card(2, 'c'), Card(3, 'c')]
  {
    Reference1Decoded5();
  }

  lemma Reference1Decoded3()
    ensures ValidTokens(["Js", "10s", "2c", "3c"]) && DecodeAll(["Js", "10s", "2c", "3c"]) == [Card(11, 's'), Card(10, 's'), Card(2, 'c'), Card(3, 'c')]
  {
    Reference1Decoded4();
  }

  lemma Reference1Decoded2()
    ensures ValidTokens(["Qs", "Js", "10s", "2c", "3c"]) && DecodeAll(["Qs", "Js", "10s", "2c", "3c"]) == [Card(12, 's'), Card(11, 's'), Card(10, 's'), Card(2, 'c'), Card(3, 'c')]
  {
    Reference1Decoded3();
  }

  lemma Reference1Decoded1()
    ensures ValidTokens(["Ks", "Qs", "Js", "10s", "2c", "3c"]) && DecodeAll(["Ks", "Qs", "Js", "10s", "2c", "3c"]) == [Card(13, 's'), Card(12, 's'), Card(11, 's'), Card(10, 's'), Card(2, 'c'), Card(3, 'c')]
  {
    Reference1Decoded2();
  }

  lemma Reference1Decoded()
    ensures ValidTokens(["As", "Ks", "Qs", "Js", "10s", "2c", "3c"]) && DecodeAll(["As", "Ks", "Qs", "Js", "10s", "2c", "3c"]) == [Card(14, 's'), Card(13, 's'), Card(12, 's'), Card(11, 's'), Card(10, 's'), Card(2, 'c'), Card(3, 'c')]
  {
    Reference1Decoded1();
  }

  lemma Reference1Cards(h: seq<Card>)
    requires Same(h, [Card(14, 's'), Card(13, 's'), Card(12, 's'), Card(11, 's'), Card(10, 's'), Card(2, 'c'), Card(3, 'c')])
    ensures |h| == 7 && Ranks(h) == [14, 13, 12, 11, 10, 2, 3] && SuitsOf(h) == ['s', 's', 's', 's', 's', 'c', 'c']
    ensures Ranks(OfSuit(h, 's')) == [14, 13, 12, 11, 10]
  {
    SameEq(h, [Card(14, 's'), Card(13, 's'), Card(12, 's'), Card(11, 's'), Card(10, 's'), Card(2, 'c'), Card(3, 'c')]);
    Reference1Fact3();
    Reference1Fact4();
    Reference1Fact5();
  }

  lemma Reference1Fact1()
    ensures Occ(['s', 's', 's', 's', 's', 'c', 'c'], 's') >= 5
  {
  }

  lemma Reference1Fact2()
    ensures TopIn([14, 13, 12, 11, 10], 14) && forall t :: t > 14 ==> !TopIn([14, 13, 12, 11, 10], t)
  {
  }

  lemma Reference1Fact3()
    ensures Ranks([Card(14, 's'), Card(13, 's'), Card(12, 's'), Card(11, 's'), Card(10, 's'), Card(2, 'c'), Card(3, 'c')]) == [14, 13, 12, 11, 10, 2, 3]
  {
  }

  lemma Reference1Fact4()
    ensures SuitsOf([Card(14, 's'), Card(13, 's'), Card(12, 's'), Card(11, 's'), Card(10, 's'), Card(2, 'c'), Card(3, 'c')]) == ['s', 's', 's', 's', 's', 'c', 'c']
  {
  }

  lemma Reference1Fact5()
    ensures Ranks(OfSuit([Card(14, 's'), Card(13, 's'), Card(12, 's'), Card(11, 's'), Card(10, 's'), Card(2, 'c'), Card(3, 'c')], 's')) == [14, 13, 12, 11, 10]
  {
  }

  lemma Reference1Length(h: seq<Card>)
    requires Same(h, [Card(14, 's'), Card(13, 's'), Card(12, 's'), Card(11, 's'), Card(10, 's'), Card(2, 'c'), Card(3, 'c')])
    ensures |h| == 7
  {
    SameEq(h, [Card(14, 's'), Card(13, 's'), Card(12, 's'), Card(11, 's'), Card(10, 's'), Card(2, 'c'), Card(3, 'c')]);
  }

  lemma Reference1Key(h: seq<Card>)
    requires Same(h, [Card(14, 's'), Card(13, 's'), Card(12, 's'), Card(11, 's'), Card(10, 's'), Card(2, 'c'), Card(3, 'c')])
    ensures StraightFlush(h) == Some(14)
  {
    Reference1Cards(h);
    Reference1Fact1();
    Reference1Fact2();
    StraightFlushIs(h, ['s', 's', 's', 's', 's', 'c', 'c'], 's', [14, 13, 12, 11, 10], 14);
  }

  /** Reference hand 1 of the ranking test. */
  lemma Reference1(h: seq<Card>)
    requires Same(h, DecodeAll(["As", "Ks", "Qs", "Js", "10s", "2c", "3c"]))
    ensures |h| > 0 && RankHand(h) == Some(HandRank(9, HighRank(14)))
  {
    Reference1Decoded();
    Reference1Length(h);
    Reference1Key(h);
    RankByDetectors(h);
  }

  lemma Reference2Decoded6()
    ensures ValidTokens(["3c"]) && DecodeAll(["3c"]) == [Card(3, 'c')]
  {
  }

  lemma Reference2Decoded5()
    ensures ValidTokens(["2c", "3c"]) && DecodeAll(["2c", "3c"]) == [Card(2, 'c'), Card(3, 'c')]
  {
    Reference2Decoded6();
  }

  lemma Reference2Decoded4()
    ensures ValidTokens(["9s", "2c", "3c"]) && DecodeAll(["9s", "2c", "3c"]) == [Card(9, 's'), Card(2, 'c'), Card(3, 'c')]
  {
    Reference2Decoded5();
  }

  lemma Reference2Decoded3()
    ensures ValidTokens(["10s", "9s", "2c", "3c"]) && DecodeAll(["10s", "9s", "2c", "3c"]) == [Card(10, 's'), Card(9, 's'), Card(2, 'c'), Card(3, 'c')]
  {
    Reference2Decoded4();
  }

  lemma Reference2Decoded2()
    ensures ValidTokens(["Js", "10s", "9s", "2c", "3c"]) && DecodeAll(["Js", "10s", "9s", "2c", "3c"]) == [Card(11, 's'), Card(10, 's'), Card(9, 's'), Card(2, 'c'), Card(3, 'c')]
  {
    Reference2Decoded3();
  }

  lemma Reference2Decoded1()
    ensures ValidTokens(["Qs", "Js", "10s", "9s", "2c", "3c"]) && DecodeAll(["Qs", "Js", "10s", "9s", "2c", "3c"]) == [Card(12, 's'), Card(11, 's'), Card(10, 's'), Card(9, 's'), Card(2, 'c'), Card(3, 'c')]
  {
    Reference2Decoded2();
  }

  lemma Reference2Decoded()
    ensures ValidTokens(["Ks", "Qs", "Js", "10s", "9s", "2c", "3c"]) && DecodeAll(["Ks", "Qs", "Js", "10s", "9s", "2c", "3c"]) == [Card(13, 's'), Card(12, 's'), Card(11, 's'), Card(10, 's'), Card(9, 's'), Card(2, 'c'), Card(3, 'c')]
  {
    Reference2Decoded1();
  }

  lemma Reference2Cards(h: seq<Card>)
    requires Same(h, [Card(13, 's'), Card(12, 's'), Card(11, 's'), Card(10, 's'), Card(9, 's'), Card(2, 'c'), Card(3, 'c')])
    ensures |h| == 7 && Ranks(h) == [13, 12, 11, 10, 9, 2, 3] && SuitsOf(h) == ['s', 's', 's', 's', 's', 'c', 'c']
    ensures Ranks(OfSuit(h, 's')) == [13, 12, 11, 10, 9]
  {
    SameEq(h, [Card(13, 's'), Card(12, 's'), Card(11, 's'), Card(10, 's'), Card(9, 's'), Card(2, 'c'), Card(3, 'c')]);
    Reference2Fact3();
    Reference2Fact4();
    Reference2Fact5();
  }

  lemma Reference2Fact1()
    ensures Occ(['s', 's', 's', 's', 's', 'c', 'c'], 's') >= 5
  {
  }

  lemma Reference2Fact2()
    ensures TopIn([13, 12, 11, 10, 9], 13) && forall t :: t > 13 ==> !TopIn([13, 12, 11, 10, 9], t)
  {
  }

  lemma Reference2Fact3()
    ensures Ranks([Card(13, 's'), Card(12, 's'), Card(11, 's'), Card(10, 's'), Card(9, 's'), Card(2, 'c'), Card(3, 'c')]) == [13, 12, 11, 10, 9, 2, 3]
  {
  }

  lemma Reference2Fact4()
    ensures SuitsOf([Card(13, 's'), Card(12, 's'), Card(11, 's'), Card(10, 's'), Card(9, 's'), Card(2, 'c'), Card(3, 'c')]) == ['s', 's', 's', 's', 's', 'c', 'c']
  {
  }

  lemma Reference2Fact5()
    ensures Ranks(OfSuit([Card(13, 's'), Card(12, 's'), Card(11, 's'), Card(10, 's'), Card(9, 's'), Card(2, 'c'), Card(3, 'c')], 's')) == [13, 12, 11, 10, 9]
  {
  }

  lemma Reference2Length(h: seq<Card>)
    requires Same(h, [Card(13, 's'), Card(12, 's'), Card(11, 's'), Card(10, 's'), Card(9, 's'), Card(2, 'c'), Card(3, 'c')])
    ensures |h| == 7
  {
    SameEq(h, [Card(13, 's'), Card(12, 's'), Card(11, 's'), Card(10, 's'), Card(9, 's'), Card(2, 'c'), Card(3, 'c')]);
  }

  lemma Reference2Key(h: seq<Card>)
    requires Same(h, [Card(13, 's'), Card(12, 's'), Card(11, 's'), Card(10, 's'), Card(9, 's'), Card(2, 'c'), Card(3, 'c')])
    ensures StraightFlush(h) == Some(13)
  {
    Reference2Cards(h);
    Reference2Fact1();
    Reference2Fact2();
    StraightFlushIs(h, ['s', 's', 's', 's', 's', 'c', 'c'], 's', [13, 12, 11, 10, 9], 13);
  }

  /** Reference hand 2 of the ranking test. */
  lemma Reference2(h: seq<Card>)
    requires Same(h, DecodeAll(["Ks", "Qs", "Js", "10s", "9s", "2c", "3c"]))
    ensures |h| > 0 && RankHand(h) == Some(HandRank(9, HighRank(13)))
  {
    Reference2Decoded();
    Reference2Length(h);
    Reference2Key(h);
    RankByDetectors(h);
  }

  lemma Reference3Decoded6()
    ensures ValidTokens(["2d"]) && DecodeAll(["2d"]) == [Card(2, 'd')]
  {
  }

  lemma Reference3Decoded5()
    ensures ValidTokens(["2c", "2d"]) && DecodeAll(["2c", "2d"]) == [Card(2, 'c'), Card(2, 'd')]
  {
    Reference3Decoded6();
  }

  lemma Reference3Decoded4()
    ensures ValidTokens(["As", "2c", "2d"]) && DecodeAll(["As", "2c", "2d"]) == [Card(14, 's'), Card(2, 'c'), Card(2, 'd')]
  {
    Reference3Decoded5();
  }

  lemma Reference3Decoded3()
    ensures ValidTokens(["10h", "As", "2c", "2d"]) && DecodeAll(["10h", "As", "2c", "2d"]) == [Card(10, 'h'), Card(14, 's'), Card(2, 'c'), Card(2, 'd')]
  {
    Reference3Decoded4();
  }

  lemma Reference3Decoded2()
    ensures ValidTokens(["10c", "10h", "As", "2c", "2d"]) && DecodeAll(["10c", "10h", "As", "2c", "2d"]) == [Card(10, 'c'), Card(10, 'h'), Card(14, 's'), Card(2, 'c'), Card(2, 'd')]
  {
    Reference3Decoded3();
  }

  lemma Reference3Decoded1()
    ensures ValidTokens(["10d", "10c", "10h", "As", "2c", "2d"]) && DecodeAll(["10d", "10c", "10h", "As", "2c", "2d"]) == [Card(10, 'd'), Card(10, 'c'), Card(10, 'h'), Card(14, 's'), Card(2, 'c'), Card(2, 'd')]
  {
    Reference3Decoded2();
  }

  lemma Reference3Decoded()
    ensures ValidTokens(["10s", "10d", "10c", "10h", "As", "2c", "2d"]) && DecodeAll(["10s", "10d", "10c", "10h", "As", "2c", "2d"]) == [Card(10, 's'), Card(10, 'd'), Card(10, 'c'), Card(10, 'h'), Card(14, 's'), Card(2, 'c'), Card(2, 'd')]
  {
    Reference3Decoded1();
  }

  lemma Reference3Cards(h: seq<Card>)
    requires Same(h, [Card(10, 's'), Card(10, 'd'), Card(10, 'c'), Card(10, 'h'), Card(14, 's'), Card(2, 'c'), Card(2, 'd')])
    ensures |h| == 7 && Ranks(h) == [10, 10, 10, 10, 14, 2, 2] && SuitsOf(h) == ['s', 'd', 'c', 'h', 's', 'c', 'd']
  {
    SameEq(h, [Card(10, 's'), Card(10, 'd'), Card(10, 'c'), Card(10, 'h'), Card(14, 's'), Card(2, 'c'), Card(2, 'd')]);
    Reference3Fact7();
    Reference3Fact8();
  }

  lemma Reference3Sort6()
    ensures SortByRank([Card(2, 'd')]) == [Card(2, 'd')]
  {
  }

  lemma Reference3Sort5()
    ensures SortByRank([Card(2, 'c'), Card(2, 'd')]) == [Card(2, 'c'), Card(2, 'd')]
  {
    Reference3Sort6();
    SortStep(Card(2, 'c'), [Card(2, 'd')], [Card(2, 'd')], 0, [Card(2, 'c'), Card(2, 'd')]);
    assert [Card(2, 'c'), Card(2, 'd')] == [Card(2, 'c')] + [Card(2, 'd')];
  }

  lemma Reference3Sort4()
    ensures SortByRank([Card(14, 's'), Card(2, 'c'), Card(2, 'd')]) == [Card(14, 's'), Card(2, 'c'), Card(2, 'd')]
  {
    Reference3Sort5();
    SortStep(Card(14, 's'), [Card(2, 'c'), Card(2, 'd')], [Card(2, 'c'), Card(2, 'd')], 0, [Card(14, 's'), Card(2, 'c'), Card(2, 'd')]);
    assert [Card(14, 's'), Card(2, 'c'), Card(2, 'd')] == [Card(14, 's')] + [Card(2, 'c'), Card(2, 'd')];
  }

  lemma Reference3Sort3()
    ensures SortByRank([Card(10, 'h'), Card(14, 's'), Card(2, 'c'), Card(2, 'd')]) == [Card(14, 's'), Card(10, 'h'), Card(2, 'c'), Card(2, 'd')]
  {
    Reference3Sort4();
    SortStep(Card(10, 'h'), [Card(14, 's'), Card(2, 'c'), Card(2, 'd')], [Card(14, 's'), Card(2, 'c'), Card(2, 'd')], 1, [Card(14, 's'), Card(10, 'h'), Card(2, 'c'), Card(2, 'd')]);
    assert [Card(10, 'h'), Card(14, 's'), Card(2, 'c'), Card(2, 'd')] == [Card(10, 'h')] + [Card(14, 's'), Card(2, 'c'), Card(2, 'd')];
  }

  lemma Reference3Sort2()
    ensures SortByRank([Card(10, 'c'), Card(10, 'h'), Card(14, 's'), Card(2, 'c'), Card(2, 'd')]) == [Card(14, 's'), Card(10, 'c'), Card(10, 'h'), Card(2, 'c'), Card(2, 'd')]
  {
    Reference3Sort3();
    SortStep(Card(10, 'c'), [Card(10, 'h'), Card(14, 's'), Card(2, 'c'), Card(2, 'd')], [Card(14, 's'), Card(10, 'h'), Card(2, 'c'), Card(2, 'd')], 1, [Card(14, 's'), Card(10, 'c'), Card(10, 'h'), Card(2, 'c'), Card(2, 'd')]);
    assert [Card(10, 'c'), Card(10, 'h'), Card(14, 's'), Card(2, 'c'), Card(2, 'd')] == [Card(10, 'c')] + [Card(10, 'h'), Card(14, 's'), Card(2, 'c'), Card(2, 'd')];
  }

  lemma Reference3Sort1()
    ensures SortByRank([Card(10, 'd'), Card(10, 'c'), Card(10, 'h'), Card(14, 's'), Card(2, 'c'), Card(2, 'd')]) == [Card(14, 's'), Card(10, 'd'), Card(10, 'c'), Card(10, 'h'), Card(2, 'c'), Card(2, 'd')]
  {
    Reference3Sort2();
    SortStep(Card(10, 'd'), [Card(10, 'c'), Card(10, 'h'), Card(14, 's'), Card(2, 'c'), Card(2, 'd')], [Card(14, 's'), Card(10, 'c'), Card(10, 'h'), Card(2, 'c'), Card(2, 'd')], 1, [Card(14, 's'), Card(10, 'd'), Card(10, 'c'), Card(10, 'h'), Card(2, 'c'), Card(2, 'd')]);
    assert [Card(10, 'd'), Card(10, 'c'), Card(10, 'h'), Card(14, 's'), Card(2, 'c'), Card(2, 'd')] == [Card(10, 'd')] + [Card(10, 'c'), Card(10, 'h'), Card(14, 's'), Card(2, 'c'), Card(2, 'd')];
  }

  lemma Reference3Sort0()
    ensures SortByRank([Card(10, 's'), Card(10, 'd'), Card(10, 'c'), Card(10, 'h'), Card(14, 's'), Card(2, 'c'), Card(2, 'd')]) == [Card(14, 's'), Card(10, 's'), Card(10, 'd'), Card(10, 'c'), Card(10, 'h'), Card(2, 'c'), Card(2, 'd')]
  {
    Reference3Sort1();
    SortStep(Card(10, 's'), [Card(10, 'd'), Card(10, 'c'), Card(10, 'h'), Card(14, 's'), Card(2, 'c'), Card(2, 'd')], [Card(14, 's'), Card(10, 'd'), Card(10, 'c'), Card(10, 'h'), Card(2, 'c'), Card(2, 'd')], 1, [Card(14, 's'), Card(10, 's'), Card(10, 'd'), Card(10, 'c'), Card(10, 'h'), Card(2, 'c'), Card(2, 'd')]);
    assert [Card(10, 's'), Card(10, 'd'), Card(10, 'c'), Card(10, 'h'), Card(14, 's'), Card(2, 'c'), Card(2, 'd')] == [Card(10, 's')] + [Card(10, 'd'), Card(10, 'c'), Card(10, 'h'), Card(14, 's'), Card(2, 'c'), Card(2, 'd')];
  }

  lemma Reference3Sorted(h: seq<Card>)
    requires Same(h, [Card(10, 's'), Card(10, 'd'), Card(10, 'c'), Card(10, 'h'), Card(14, 's'), Card(2, 'c'), Card(2, 'd')])
    ensures Same(SortByRank(h), [Card(14, 's'), Card(10, 's'), Card(10, 'd'), Card(10, 'c'), Card(10, 'h'), Card(2, 'c'), Card(2, 'd')])
  {
    SameEq(h, [Card(10, 's'), Card(10, 'd'), Card(10, 'c'), Card(10, 'h'), Card(14, 's'), Card(2, 'c'), Card(2, 'd')]);
    Reference3Sort0();
    SameEq(SortByRank(h), [Card(14, 's'), Card(10, 's'), Card(10, 'd'), Card(10, 'c'), Card(10, 'h'), Card(2, 'c'), Card(2, 'd')]);
  }

  lemma Reference3SortedRanks(h: seq<Card>)
    requires Same(h, [Card(10, 's'), Card(10, 'd'), Card(10, 'c'), Card(10, 'h'), Card(14, 's'), Card(2, 'c'), Card(2, 'd')])
    ensures Ranks(SortByRank(h)) == [14, 10, 10, 10, 10, 2, 2]
  {
    Reference3Sorted(h);
    SameEq(SortByRank(h), [Card(14, 's'), Card(10, 's'), Card(10, 'd'), Card(10, 'c'), Card(10, 'h'), Card(2, 'c'), Card(2, 'd')]);
    Reference3Fact9();
  }

  lemma Reference3Fact1()
    ensures forall u :: Occ(['s', 'd', 'c', 'h', 's', 'c', 'd'], u) < 5
  {
  }

  lemma Reference3Fact2()
    ensures Dedup([14, 10, 10, 10, 10, 2, 2]) == [14, 10, 2]
  {
  }

  lemma Reference3Fact3()
    ensures Occ([14, 10, 10, 10, 10, 2, 2], 10) >= 4
  {
  }

  lemma Reference3Fact4()
    ensures forall j :: 0 <= j < 1 ==> Occ([14, 10, 10, 10, 10, 2, 2], [14, 10, 2][j]) < 4
  {
  }

  lemma Reference3Fact5()
    ensures [10] + Take(Outside([14, 10, 10, 10, 10, 2, 2], [10]), 1) == [10, 14]
  {
  }

  lemma Reference3Fact6()
    ensures KindFacts(4, [14, 10, 10, 10, 10, 2, 2], [14, 10, 2], 1, [10, 14])
  {
    Reference3Fact2();
    Reference3Fact3();
    Reference3Fact4();
    Reference3Fact5();
  }

  lemma Reference3Fact7()
    ensures Ranks([Card(10, 's'), Card(10, 'd'), Card(10, 'c'), Card(10, 'h'), Card(14, 's'), Card(2, 'c'), Card(2, 'd')]) == [10, 10, 10, 10, 14, 2, 2]
  {
  }

  lemma Reference3Fact8()
    ensures SuitsOf([Card(10, 's'), Card(10, 'd'), Card(10, 'c'), Card(10, 'h'), Card(14, 's'), Card(2, 'c'), Card(2, 'd')]) == ['s', 'd', 'c', 'h', 's', 'c', 'd']
  {
  }

  lemma Reference3Fact9()
    ensures Ranks([Card(14, 's'), Card(10, 's'), Card(10, 'd'), Card(10, 'c'), Card(10, 'h'), Card(2, 'c'), Card(2, 'd')]) == [14, 10, 10, 10, 10, 2, 2]
  {
  }

  lemma Reference3Length(h: seq<Card>)
    requires Same(h, [Card(10, 's'), Card(10, 'd'), Card(10, 'c'), Card(10, 'h'), Card(14, 's'), Card(2, 'c'), Card(2, 'd')])
    ensures |h| == 7
  {
    SameEq(h, [Card(10, 's'), Card(10, 'd'), Card(10, 'c'), Card(10, 'h'), Card(14, 's'), Card(2, 'c'), Card(2, 'd')]);
  }

  lemma Reference3Misses(h: seq<Card>)
    requires Same(h, [Card(10, 's'), Card(10, 'd'), Card(10, 'c'), Card(10, 'h'), Card(14, 's'), Card(2, 'c'), Card(2, 'd')])
    ensures StraightFlush(h) == None
  {
    Reference3Cards(h);
    Reference3Fact1();
    NoSuitOfFive(h, ['s', 'd', 'c', 'h', 's', 'c', 'd']);
  }

  lemma Reference3Key(h: seq<Card>)
    requires Same(h, [Card(10, 's'), Card(10, 'd'), Card(10, 'c'), Card(10, 'h'), Card(14, 's'), Card(2, 'c'), Card(2, 'd')])
    ensures NOfAKind(4, h) == Some([10, 14])
  {
    Reference3Fact6();
    Reference3SortedRanks(h);
    KindIs(4, h, [14, 10, 2], 1, [10, 14]);
  }

  /** Reference hand 3 of the ranking test. */
  lemma Reference3(h: seq<Card>)
    requires Same(h, DecodeAll(["10s", "10d", "10c", "10h", "As", "2c", "2d"]))
    ensures |h| > 0 && RankHand(h) == Some(HandRank(8, RankList([10, 14])))
  {
    Reference3Decoded();
    Reference3Length(h);
    Reference3Misses(h);
    Reference3Key(h);
    RankByDetectors(h);
  }

  lemma Reference4Decoded6()
    ensures ValidTokens(["2d"]) && DecodeAll(["2d"]) == [Card(2, 'd')]
  {
  }

  lemma Reference4Decoded5()
    ensures ValidTokens(["2c", "2d"]) && DecodeAll(["2c", "2d"]) == [Card(2, 'c'), Card(2, 'd')]
  {
    Reference4Decoded6();
  }

  lemma Reference4Decoded4()
    ensures ValidTokens(["Ks", "2c", "2d"]) && DecodeAll(["Ks", "2c", "2d"]) == [Card(13, 's'), Card(2, 'c'), Card(2, 'd')]
  {
    Reference4Decoded5();
  }

  lemma Reference4Decoded3()
    ensures ValidTokens(["10h", "Ks", "2c", "2d"]) && DecodeAll(["10h", "Ks", "2c", "2d"]) == [Card(10, 'h'), Card(13, 's'), Card(2, 'c'), Card(2, 'd')]
  {
    Reference4Decoded4();
  }

  lemma Reference4Decoded2()
    ensures ValidTokens(["10c", "10h", "Ks", "2c", "2d"]) && DecodeAll(["10c", "10h", "Ks", "2c", "2d"]) == [Card(10, 'c'), Card(10, 'h'), Card(13, 's'), Card(2, 'c'), Card(2, 'd')]
  {
    Reference4Decoded3();
  }

  lemma Reference4Decoded1()
    ensures ValidTokens(["10d", "10c", "10h", "Ks", "2c", "2d"]) && DecodeAll(["10d", "10c", "10h", "Ks", "2c", "2d"]) == [Card(10, 'd'), Card(10, 'c'), Card(10, 'h'), Card(13, 's'), Card(2, 'c'), Card(2, 'd')]
  {
    Reference4Decoded2();
  }

  lemma Reference4Decoded()
    ensures ValidTokens(["10s", "10d", "10c", "10h", "Ks", "2c", "2d"]) && DecodeAll(["10s", "10d", "10c", "10h", "Ks", "2c", "2d"]) == [Card(10, 's'), Card(10, 'd'), Card(10, 'c'), Card(10, 'h'), Card(13, 's'), Card(2, 'c'), Card(2, 'd')]
  {
    Reference4Decoded1();
  }

  lemma Reference4Cards(h: seq<Card>)
    requires Same(h, [Card(10, 's'), Card(10, 'd'), Card(10, 'c'), Card(10, 'h'), Card(13, 's'), Card(2, 'c'), Card(2, 'd')])
    ensures |h| == 7 && Ranks(h) == [10, 10, 10, 10, 13, 2, 2] && SuitsOf(h) == ['s', 'd', 'c', 'h', 's', 'c', 'd']
  {
    SameEq(h, [Card(10, 's'), Card(10, 'd'), Card(10, 'c'), Card(10, 'h'), Card(13, 's'), Card(2, 'c'), Card(2, 'd')]);
    Reference4Fact7();
    Reference4Fact8();
  }

  lemma Reference4Sort6()
    ensures SortByRank([Card(2, 'd')]) == [Card(2, 'd')]
  {
  }

  lemma Reference4Sort5()
    ensures SortByRank([Card(2, 'c'), Card(2, 'd')]) == [Card(2, 'c'), Card(2, 'd')]
  {
    Reference4Sort6();
    SortStep(Card(2, 'c'), [Card(2, 'd')], [Card(2, 'd')], 0, [Card(2, 'c'), Card(2, 'd')]);
    assert [Card(2, 'c'), Card(2, 'd')] == [Card(2, 'c')] + [Card(2, 'd')];
  }

  lemma Reference4Sort4()
    ensures SortByRank([Card(13, 's'), Card(2, 'c'), Card(2, 'd')]) == [Card(13, 's'), Card(2, 'c'), Card(2, 'd')]
  {
    Reference4Sort5();
    SortStep(Card(13, 's'), [Card(2, 'c'), Card(2, 'd')], [Card(2, 'c'), Card(2, 'd')], 0, [Card(13, 's'), Card(2, 'c'), Card(2, 'd')]);
    assert [Card(13, 's'), Card(2, 'c'), Card(2, 'd')] == [Card(13, 's')] + [Card(2, 'c'), Card(2, 'd')];
  }

  lemma Reference4Sort3()
    ensures SortByRank([Card(10, 'h'), Card(13, 's'), Card(2, 'c'), Card(2, 'd')]) == [Card(13, 's'), Card(10, 'h'), Card(2, 'c'), Card(2, 'd')]
  {
    Reference4Sort4();
    SortStep(Card(10, 'h'), [Card(13, 's'), Card(2, 'c'), Card(2, 'd')], [Card(13, 's'), Card(2, 'c'), Card(2, 'd')], 1, [Card(13, 's'), Card(10, 'h'), Card(2, 'c'), Card(2, 'd')]);
    assert [Card(10, 'h'), Card(13, 's'), Card(2, 'c'), Card(2, 'd')] == [Card(10, 'h')] + [Card(13, 's'), Card(2, 'c'), Card(2, 'd')];
  }

  lemma Reference4Sort2()
    ensures SortByRank([Card(10, 'c'), Card(10, 'h'), Card(13, 's'), Card(2, 'c'), Card(2, 'd')]) == [Card(13, 's'), Card(10, 'c'), Card(10, 'h'), Card(2, 'c'), Card(2, 'd')]
  {
    Reference4Sort3();
    SortStep(Card(10, 'c'), [Card(10, 'h'), Card(13, 's'), Card(2, 'c'), Card(2, 'd')], [Card(13, 's'), Card(10, 'h'), Card(2, 'c'), Card(2, 'd')], 1, [Card(13, 's'), Card(10, 'c'), Card(10, 'h'), Card(2, 'c'), Card(2, 'd')]);
    assert [Card(10, 'c'), Card(10, 'h'), Card(13, 's'), Card(2, 'c'), Card(2, 'd')] == [Card(10, 'c')] + [Card(10, 'h'), Card(13, 's'), Card(2, 'c'), Card(2, 'd')];
  }

  lemma Reference4Sort1()
    ensures SortByRank([Card(10, 'd'), Card(10, 'c'), Card(10, 'h'), Card(13, 's'), Card(2, 'c'), Card(2, 'd')]) == [Card(13, 's'), Card(10, 'd'), Card(10, 'c'), Card(10, 'h'), Card(2, 'c'), Card(2, 'd')]
  {
    Reference4Sort2();
    SortStep(Card(10, 'd'), [Card(10, 'c'), Card(10, 'h'), Card(13, 's'), Card(2, 'c'), Card(2, 'd')], [Card(13, 's'), Card(10, 'c'), Card(10, 'h'), Card(2, 'c'), Card(2, 'd')], 1, [Card(13, 's'), Card(10, 'd'), Card(10, 'c'), Card(10, 'h'), Card(2, 'c'), Card(2, 'd')]);
    assert [Card(10, 'd'), Card(10, 'c'), Card(10, 'h'), Card(13, 's'), Card(2, 'c'), Card(2, 'd')] == [Card(10, 'd')] + [Card(10, 'c'), Card(10, 'h'), Card(13, 's'), Card(2, 'c'), Card(2, 'd')];
  }

  lemma Reference4Sort0()
    ensures SortByRank([Card(10, 's'), Card(10, 'd'), Card(10, 'c'), Card(10, 'h'), Card(13, 's'), Card(2, 'c'), Card(2, 'd')]) == [Card(13, 's'), Card(10, 's'), Card(10, 'd'), Card(10, 'c'), Card(10, 'h'), Card(2, 'c'), Card(2, 'd')]
  {
    Reference4Sort1();
    SortStep(Card(10, 's'), [Card(10, 'd'), Card(10, 'c'), Card(10, 'h'), Card(13, 's'), Card(2, 'c'), Card(2, 'd')], [Card(13, 's'), Card(10, 'd'), Card(10, 'c'), Card(10, 'h'), Card(2, 'c'), Card(2, 'd')], 1, [Card(13, 's'), Card(10, 's'), Card(10, 'd'), Card(10, 'c'), Card(10, 'h'), Card(2, 'c'), Card(2, 'd')]);
    assert [Card(10, 's'), Card(10, 'd'), Card(10, 'c'), Card(10, 'h'), Card(13, 's'), Card(2, 'c'), Card(2, 'd')] == [Card(10, 's')] + [Card(10, 'd'), Card(10, 'c'), Card(10, 'h'), Card(13, 's'), Card(2, 'c'), Card(2, 'd')];
  }

  lemma Reference4Sorted(h: seq<Card>)
    requires Same(h, [Card(10, 's'), Card(10, 'd'), Card(10, 'c'), Card(10, 'h'), Card(13, 's'), Card(2, 'c'), Card(2, 'd')])
    ensures Same(SortByRank(h), [Card(13, 's'), Card(10, 's'), Card(10, 'd'), Card(10, 'c'), Card(10, 'h'), Card(2, 'c'), Card(2, 'd')])
  {
    SameEq(h, [Card(10, 's'), Card(10, 'd'), Card(10, 'c'), Card(10, 'h'), Card(13, 's'), Card(2, 'c'), Card(2, 'd')]);
    Reference4Sort0();
    SameEq(SortByRank(h), [Card(13, 's'), Card(10, 's'), Card(10, 'd'), Card(10, 'c'), Card(10, 'h'), Card(2, 'c'), Card(2, 'd')]);
  }

  lemma Reference4SortedRanks(h: seq<Card>)
    requires Same(h, [Card(10, 's'), Card(10, 'd'), Card(10, 'c'), Card(10, 'h'), Card(13, 's'), Card(2, 'c'), Card(2, 'd')])
    ensures Ranks(SortByRank(h)) == [13, 10, 10, 10, 10, 2, 2]
  {
    Reference4Sorted(h);
    SameEq(SortByRank(h), [Card(13, 's'), Card(10, 's'), Card(10, 'd'), Card(10, 'c'), Card(10, 'h'), Card(2, 'c'), Card(2, 'd')]);
    Reference4Fact9();
  }

  lemma Reference4Fact1()
    ensures forall u :: Occ(['s', 'd', 'c', 'h', 's', 'c', 'd'], u) < 5
  {
  }

  lemma Reference4Fact2()
    ensures Dedup([13, 10, 10, 10, 10, 2, 2]) == [13, 10, 2]
  {
  }

  lemma Reference4Fact3()
    ensures Occ([13, 10, 10, 10, 10, 2, 2], 10) >= 4
  {
  }

  lemma Reference4Fact4()
    ensures forall j :: 0 <= j < 1 ==> Occ([13, 10, 10, 10, 10, 2, 2], [13, 10, 2][j]) < 4
  {
  }

  lemma Reference4Fact5()
    ensures [10] + Take(Outside([13, 10, 10, 10, 10, 2, 2], [10]), 1) == [10, 13]
  {
  }

  lemma Reference4Fact6()
    ensures KindFacts(4, [13, 10, 10, 10, 10, 2, 2], [13, 10, 2], 1, [10, 13])
  {
    Reference4Fact2();
    Reference4Fact3();
    Reference4Fact4();
    Reference4Fact5();
  }

  lemma Reference4Fact7()
    ensures Ranks([Card(10, 's'), Card(10, 'd'), Card(10, 'c'), Card(10, 'h'), Card(13, 's'), Card(2, 'c'), Card(2, 'd')]) == [10, 10, 10, 10, 13, 2, 2]
  {
  }

  lemma Reference4Fact8()
    ensures SuitsOf([Card(10, 's'), Card(10, 'd'), Card(10, 'c'), Card(10, 'h'), Card(13, 's'), Card(2, 'c'), Card(2, 'd')]) == ['s', 'd', 'c', 'h', 's', 'c', 'd']
  {
  }

  lemma Reference4Fact9()
    ensures Ranks([Card(13, 's'), Card(10, 's'), Card(10, 'd'), Card(10, 'c'), Card(10, 'h'), Card(2, 'c'), Card(2, 'd')]) == [13, 10, 10, 10, 10, 2, 2]
  {
  }

  lemma Reference4Length(h: seq<Card>)
    requires Same(h, [Card(10, 's'), Card(10, 'd'), Card(10, 'c'), Card(10, 'h'), Card(13, 's'), Card(2, 'c'), Card(2, 'd')])
    ensures |h| == 7
  {
    SameEq(h, [Card(10, 's'), Card(10, 'd'), Card(10, 'c'), Card(10, 'h'), Card(13, 's'), Card(2, 'c'), Card(2, 'd')]);
  }

  lemma Reference4Misses(h: seq<Card>)
    requires Same(h, [Card(10, 's'), Card(10, 'd'), Card(10, 'c'), Card(10, 'h'), Card(13, 's'), Card(2, 'c'), Card(2, 'd')])
    ensures StraightFlush(h) == None
  {
    Reference4Cards(h);
    Reference4Fact1();
    NoSuitOfFive(h, ['s', 'd', 'c', 'h', 's', 'c', 'd']);
  }

  lemma Reference4Key(h: seq<Card>)
    requires Same(h, [Card(10, 's'), Card(10, 'd'), Card(10, 'c'), Card(10, 'h'), Card(13, 's'), Card(2, 'c'), Card(2, 'd')])
    ensures NOfAKind(4, h) == Some([10, 13])
  {
    Reference4Fact6();
    Reference4SortedRanks(h);
    KindIs(4, h, [13, 10, 2], 1, [10, 13]);
  }

  /** Reference hand 4 of the ranking test. */
  lemma Reference4(h: seq<Card>)
    requires Same(h, DecodeAll(["10s", "10d", "10c", "10h", "Ks", "2c", "2d"]))
    ensures |h| > 0 && RankHand(h) == Some(HandRank(8, RankList([10, 13])))
  {
    Reference4Decoded();
    Reference4Length(h);
    Reference4Misses(h);
    Reference4Key(h);
    RankByDetectors(h);
  }

  lemma Reference5Decoded6()
    ensures ValidTokens(["2d"]) && DecodeAll(["2d"]) == [Card(2, 'd')]
  {
  }

  lemma Reference5Decoded5()
    ensures ValidTokens(["2c", "2d"]) && DecodeAll(["2c", "2d"]) == [Card(2, 'c'), Card(2, 'd')]
  {
    Reference5Decoded6();
  }

  lemma Reference5Decoded4()
    ensures ValidTokens(["Ks", "2c", "2d"]) && DecodeAll(["Ks", "2c", "2d"]) == [Card(13, 's'), Card(2, 'c'), Card(2, 'd')]
  {
    Reference5Decoded5();
  }

  lemma Reference5Decoded3()
    ensures ValidTokens(["Kh", "Ks", "2c", "2d"]) && DecodeAll(["Kh", "Ks", "2c", "2d"]) == [Card(13, 'h'), Card(13, 's'), Card(2, 'c'), Card(2, 'd')]
  {
    Reference5Decoded4();
  }

  lemma Reference5Decoded2()
    ensures ValidTokens(["Ah", "Kh", "Ks", "2c", "2d"]) && DecodeAll(["Ah", "Kh", "Ks", "2c", "2d"]) == [Card(14, 'h'), Card(13, 'h'), Card(13, 's'), Card(2, 'c'), Card(2, 'd')]
  {
    Reference5Decoded3();
  }

  lemma Reference5Decoded1()
    ensures ValidTokens(["Ad", "Ah", "Kh", "Ks", "2c", "2d"]) && DecodeAll(["Ad", "Ah", "Kh", "Ks", "2c", "2d"]) == [Card(14, 'd'), Card(14, 'h'), Card(13, 'h'), Card(13, 's'), Card(2, 'c'), Card(2, 'd')]
  {
    Reference5Decoded2();
  }

  lemma Reference5Decoded()
    ensures ValidTokens(["As", "Ad", "Ah", "Kh", "Ks", "2c", "2d"]) && DecodeAll(["As", "Ad", "Ah", "Kh", "Ks", "2c", "2d"]) == [Card(14, 's'), Card(14, 'd'), Card(14, 'h'), Card(13, 'h'), Card(13, 's'), Card(2, 'c'), Card(2, 'd')]
  {
    Reference5Decoded1();
  }

  lemma Reference5Cards(h: seq<Card>)
    requires Same(h, [Card(14, 's'), Card(14, 'd'), Card(14, 'h'), Card(13, 'h'), Card(13, 's'), Card(2, 'c'), Card(2, 'd')])
    ensures |h| == 7 && Ranks(h) == [14, 14, 14, 13, 13, 2, 2] && SuitsOf(h) == ['s', 'd', 'h', 'h', 's', 'c', 'd']
  {
    SameEq(h, [Card(14, 's'), Card(14, 'd'), Card(14, 'h'), Card(13, 'h'), Card(13, 's'), Card(2, 'c'), Card(2, 'd')]);
    Reference5Fact5();
    Reference5Fact6();
  }

  lemma Reference5Fact1()
    ensures forall u :: Occ(['s', 'd', 'h', 'h', 's', 'c', 'd'], u) < 5
  {
  }

  lemma Reference5Fact2()
    ensures forall r :: Occ([14, 14, 14, 13, 13, 2, 2], r) < 4
  {
  }

  lemma Reference5Fact3()
    ensures Occ([14, 14, 14, 13, 13, 2, 2], 14) == 3 && forall r :: Occ([14, 14, 14, 13, 13, 2, 2], r) == 3 ==> r <= 14
  {
  }

  lemma Reference5Fact4()
    ensures PairFor([14, 14, 14, 13, 13, 2, 2], 14, 13) && forall p :: PairFor([14, 14, 14, 13, 13, 2, 2], 14, p) ==> p <= 13
  {
  }

  lemma Reference5Fact5()
    ensures Ranks([Card(14, 's'), Card(14, 'd'), Card(14, 'h'), Card(13, 'h'), Card(13, 's'), Card(2, 'c'), Card(2, 'd')]) == [14, 14, 14, 13, 13, 2, 2]
  {
  }

  lemma Reference5Fact6()
    ensures SuitsOf([Card(14, 's'), Card(14, 'd'), Card(14, 'h'), Card(13, 'h'), Card(13, 's'), Card(2, 'c'), Card(2, 'd')]) == ['s', 'd', 'h', 'h', 's', 'c', 'd']
  {
  }

  lemma Reference5Length(h: seq<Card>)
    requires Same(h, [Card(14, 's'), Card(14, 'd'), Card(14, 'h'), Card(13, 'h'), Card(13, 's'), Card(2, 'c'), Card(2, 'd')])
    ensures |h| == 7
  {
    SameEq(h, [Card(14, 's'), Card(14, 'd'), Card(14, 'h'), Card(13, 'h'), Card(13, 's'), Card(2, 'c'), Card(2, 'd')]);
  }

  lemma Reference5Misses(h: seq<Card>)
    requires Same(h, [Card(14, 's'), Card(14, 'd'), Card(14, 'h'), Card(13, 'h'), Card(13, 's'), Card(2, 'c'), Card(2, 'd')])
    ensures StraightFlush(h) == None && NOfAKind(4, h) == None
  {
    Reference5Cards(h);
    Reference5Fact1();
    NoSuitOfFive(h, ['s', 'd', 'h', 'h', 's', 'c', 'd']);
    Reference5Fact2();
    KindNone(4, h, [14, 14, 14, 13, 13, 2, 2], 4);
  }

  lemma Reference5Key(h: seq<Card>)
    requires Same(h, [Card(14, 's'), Card(14, 'd'), Card(14, 'h'), Card(13, 'h'), Card(13, 's'), Card(2, 'c'), Card(2, 'd')])
    ensures FullHouse(h) == Some([14, 13])
  {
    Reference5Cards(h);
    Reference5Fact3();
    Reference5Fact4();
    FullHouseIs(h, [14, 14, 14, 13, 13, 2, 2], 14, 13);
  }

  /** Reference hand 5 of the ranking test. */
  lemma Reference5(h: seq<Card>)
    requires Same(h, DecodeAll(["As", "Ad", "Ah", "Kh", "Ks", "2c", "2d"]))
    ensures |h| > 0 && RankHand(h) == Some(HandRank(7, RankList([14, 13])))
  {
    Reference5Decoded();
    Reference5Length(h);
    Reference5Misses(h);
    Reference5Key(h);
    RankByDetectors(h);
  }

  lemma Reference6Decoded6()
    ensures ValidTokens(["2d"]) && DecodeAll(["2d"]) == [Card(2, 'd')]
  {
  }

  lemma Reference6Decoded5()
    ensures ValidTokens(["2c", "2d"]) && DecodeAll(["2c", "2d"]) == [Card(2, 'c'), Card(2, 'd')]
  {
    Reference6Decoded6();
  }

  lemma Reference6Decoded4()
    ensures ValidTokens(["Ks", "2c", "2d"]) && DecodeAll(["Ks", "2c", "2d"]) == [Card(13, 's'), Card(2, 'c'), Card(2, 'd')]
  {
    Reference6Decoded5();
  }

  lemma Reference6Decoded3()
    ensures ValidTokens(["Kh", "Ks", "2c", "2d"]) && DecodeAll(["Kh", "Ks", "2c", "2d"]) == [Card(13, 'h'), Card(13, 's'), Card(2, 'c'), Card(2, 'd')]
  {
    Reference6Decoded4();
  }

  lemma Reference6Decoded2()
    ensures ValidTokens(["3h", "Kh", "Ks", "2c", "2d"]) && DecodeAll(["3h", "Kh", "Ks", "2c", "2d"]) == [Card(3, 'h'), Card(13, 'h'), Card(13, 's'), Card(2, 'c'), Card(2, 'd')]
  {
    Reference6Decoded3();
  }

  lemma Reference6Decoded1()
    ensures ValidTokens(["3d", "3h", "Kh", "Ks", "2c", "2d"]) && DecodeAll(["3d", "3h", "Kh", "Ks", "2c", "2d"]) == [Card(3, 'd'), Card(3, 'h'), Card(13, 'h'), Card(13, 's'), Card(2, 'c'), Card(2, 'd')]
  {
    Reference6Decoded2();
  }

  lemma Reference6Decoded()
    ensures ValidTokens(["3s", "3d", "3h", "Kh", "Ks", "2c", "2d"]) && DecodeAll(["3s", "3d", "3h", "Kh", "Ks", "2c", "2d"]) == [Card(3, 's'), Card(3, 'd'), Card(3, 'h'), Card(13, 'h'), Card(13, 's'), Card(2, 'c'), Card(2, 'd')]
  {
    Reference6Decoded1();
  }

  lemma Reference6Cards(h: seq<Card>)
    requires Same(h, [Card(3, 's'), Card(3, 'd'), Card(3, 'h'), Card(13, 'h'), Card(13, 's'), Card(2, 'c'), Card(2, 'd')])
    ensures |h| == 7 && Ranks(h) == [3, 3, 3, 13, 13, 2, 2] && SuitsOf(h) == ['s', 'd', 'h', 'h', 's', 'c', 'd']
  {
    SameEq(h, [Card(3, 's'), Card(3, 'd'), Card(3, 'h'), Card(13, 'h'), Card(13, 's'), Card(2, 'c'), Card(2, 'd')]);
    Reference6Fact5();
    Reference6Fact6();
  }

  lemma Reference6Fact1()
    ensures forall u :: Occ(['s', 'd', 'h', 'h', 's', 'c', 'd'], u) < 5
  {
  }

  lemma Reference6Fact2()
    ensures forall r :: Occ([3, 3, 3, 13, 13, 2, 2], r) < 4
  {
  }

  lemma Reference6Fact3()
    ensures Occ([3, 3, 3, 13, 13, 2, 2], 3) == 3 && forall r :: Occ([3, 3, 3, 13, 13, 2, 2], r) == 3 ==> r <= 3
  {
  }

  lemma Reference6Fact4()
    ensures PairFor([3, 3, 3, 13, 13, 2, 2], 3, 13) && forall p :: PairFor([3, 3, 3, 13, 13, 2, 2], 3, p) ==> p <= 13
  {
  }

  lemma Reference6Fact5()
    ensures Ranks([Card(3, 's'), Card(3, 'd'), Card(3, 'h'), Card(13, 'h'), Card(13, 's'), Card(2, 'c'), Card(2, 'd')]) == [3, 3, 3, 13, 13, 2, 2]
  {
  }

  lemma Reference6Fact6()
    ensures SuitsOf([Card(3, 's'), Card(3, 'd'), Card(3, 'h'), Card(13, 'h'), Card(13, 's'), Card(2, 'c'), Card(2, 'd')]) == ['s', 'd', 'h', 'h', 's', 'c', 'd']
  {
  }

  lemma Reference6Length(h: seq<Card>)
    requires Same(h, [Card(3, 's'), Card(3, 'd'), Card(3, 'h'), Card(13, 'h'), Card(13, 's'), Card(2, 'c'), Card(2, 'd')])
    ensures |h| == 7
  {
    SameEq(h, [Card(3, 's'), Card(3, 'd'), Card(3, 'h'), Card(13, 'h'), Card(13, 's'), Card(2, 'c'), Card(2, 'd')]);
  }

  lemma Reference6Misses(h: seq<Card>)
    requires Same(h, [Card(3, 's'), Card(3, 'd'), Card(3, 'h'), Card(13, 'h'), Card(13, 's'), Card(2, 'c'), Card(2, 'd')])
    ensures StraightFlush(h) == None && NOfAKind(4, h) == None
  {
    Reference6Cards(h);
    Reference6Fact1();
    NoSuitOfFive(h, ['s', 'd', 'h', 'h', 's', 'c', 'd']);
    Reference6Fact2();
    KindNone(4, h, [3, 3, 3, 13, 13, 2, 2], 4);
  }

  lemma Reference6Key(h: seq<Card>)
    requires Same(h, [Card(3, 's'), Card(3, 'd'), Card(3, 'h'), Card(13, 'h'), Card(13, 's'), Card(2, 'c'), Card(2, 'd')])
    ensures FullHouse(h) == Some([3, 13])
  {
    Reference6Cards(h);
    Reference6Fact3();
    Reference6Fact4();
    FullHouseIs(h, [3, 3, 3, 13, 13, 2, 2], 3, 13);
  }

  /** Reference hand 6 of the ranking test. */
  lemma Reference6(h: seq<Card>)
    requires Same(h, DecodeAll(["3s", "3d", "3h", "Kh", "Ks", "2c", "2d"]))
    ensures |h| > 0 && RankHand(h) == Some(HandRank(7, RankList([3, 13])))
  {
    Reference6Decoded();
    Reference6Length(h);
    Reference6Misses(h);
    Reference6Key(h);
    RankByDetectors(h);
  }

  lemma Reference7Decoded6()
    ensures ValidTokens(["2d"]) && DecodeAll(["2d"]) == [Card(2, 'd')]
  {
  }

  lemma Reference7Decoded5()
    ensures ValidTokens(["2c", "2d"]) && DecodeAll(["2c", "2d"]) == [Card(2, 'c'), Card(2, 'd')]
  {
    Reference7Decoded6();
  }

  lemma Reference7Decoded4()
    ensures ValidTokens(["7s", "2c", "2d"]) && DecodeAll(["7s", "2c", "2d"]) == [Card(7, 's'), Card(2, 'c'), Card(2, 'd')]
  {
    Reference7Decoded5();
  }

  lemma Reference7Decoded3()
    ensures ValidTokens(["10s", "7s", "2c", "2d"]) && DecodeAll(["10s", "7s", "2c", "2d"]) == [Card(10, 's'), Card(7, 's'), Card(2, 'c'), Card(2, 'd')]
  {
    Reference7Decoded4();
  }

  lemma Reference7Decoded2()
    ensures ValidTokens(["4s", "10s", "7s", "2c", "2d"]) && DecodeAll(["4s", "10s", "7s", "2c", "2d"]) == [Card(4, 's'), Card(10, 's'), Card(7, 's'), Card(2, 'c'), Card(2, 'd')]
  {
    Reference7Decoded3();
  }

  lemma Reference7Decoded1()
    ensures ValidTokens(["Ks", "4s", "10s", "7s", "2c", "2d"]) && DecodeAll(["Ks", "4s", "10s", "7s", "2c", "2d"]) == [Card(13, 's'), Card(4, 's'), Card(10, 's'), Card(7, 's'), Card(2, 'c'), Card(2, 'd')]
  {
    Reference7Decoded2();
  }

  lemma Reference7Decoded()
    ensures ValidTokens(["3s", "Ks", "4s", "10s", "7s", "2c", "2d"]) && DecodeAll(["3s", "Ks", "4s", "10s", "7s", "2c", "2d"]) == [Card(3, 's'), Card(13, 's'), Card(4, 's'), Card(10, 's'), Card(7, 's'), Card(2, 'c'), Card(2, 'd')]
  {
    Reference7Decoded1();
  }

  lemma Reference7Cards(h: seq<Card>)
    requires Same(h, [Card(3, 's'), Card(13, 's'), Card(4, 's'), Card(10, 's'), Card(7, 's'), Card(2, 'c'), Card(2, 'd')])
    ensures |h| == 7 && Ranks(h) == [3, 13, 4, 10, 7, 2, 2] && SuitsOf(h) == ['s', 's', 's', 's', 's', 'c', 'd']
    ensures Ranks(OfSuit(h, 's')) == [3, 13, 4, 10, 7]
  {
    SameEq(h, [Card(3, 's'), Card(13, 's'), Card(4, 's'), Card(10, 's'), Card(7, 's'), Card(2, 'c'), Card(2, 'd')]);
    Reference7Fact8();
    Reference7Fact9();
    Reference7Fact10();
  }

  lemma Reference7Sort6()
    ensures SortByRank([Card(2, 'd')]) == [Card(2, 'd')]
  {
  }

  lemma Reference7Sort5()
    ensures SortByRank([Card(2, 'c'), Card(2, 'd')]) == [Card(2, 'c'), Card(2, 'd')]
  {
    Reference7Sort6();
    SortStep(Card(2, 'c'), [Card(2, 'd')], [Card(2, 'd')], 0, [Card(2, 'c'), Card(2, 'd')]);
    assert [Card(2, 'c'), Card(2, 'd')] == [Card(2, 'c')] + [Card(2, 'd')];
  }

  lemma Reference7Sort4()
    ensures SortByRank([Card(7, 's'), Card(2, 'c'), Card(2, 'd')]) == [Card(7, 's'), Card(2, 'c'), Card(2, 'd')]
  {
    Reference7Sort5();
    SortStep(Card(7, 's'), [Card(2, 'c'), Card(2, 'd')], [Card(2, 'c'), Card(2, 'd')], 0, [Card(7, 's'), Card(2, 'c'), Card(2, 'd')]);
    assert [Card(7, 's'), Card(2, 'c'), Card(2, 'd')] == [Card(7, 's')] + [Card(2, 'c'), Card(2, 'd')];
  }

  lemma Reference7Sort3()
    ensures SortByRank([Card(10, 's'), Card(7, 's'), Card(2, 'c'), Card(2, 'd')]) == [Card(10, 's'), Card(7, 's'), Card(2, 'c'), Card(2, 'd')]
  {
    Reference7Sort4();
    SortStep(Card(10, 's'), [Card(7, 's'), Card(2, 'c'), Card(2, 'd')], [Card(7, 's'), Card(2, 'c'), Card(2, 'd')], 0, [Card(10, 's'), Card(7, 's'), Card(2, 'c'), Card(2, 'd')]);
    assert [Card(10, 's'), Card(7, 's'), Card(2, 'c'), Card(2, 'd')] == [Card(10, 's')] + [Card(7, 's'), Card(2, 'c'), Card(2, 'd')];
  }

  lemma Reference7Sort2()
    ensures SortByRank([Card(4, 's'), Card(10, 's'), Card(7, 's'), Card(2, 'c'), Card(2, 'd')]) == [Card(10, 's'), Card(7, 's'), Card(4, 's'), Card(2, 'c'), Card(2, 'd')]
  {
    Reference7Sort3();
    SortStep(Card(4, 's'), [Card(10, 's'), Card(7, 's'), Card(2, 'c'), Card(2, 'd')], [Card(10, 's'), Card(7, 's'), Card(2, 'c'), Card(2, 'd')], 2, [Card(10, 's'), Card(7, 's'), Card(4, 's'), Card(2, 'c'), Card(2, 'd')]);
    assert [Card(4, 's'), Card(10, 's'), Card(7, 's'), Card(2, 'c'), Card(2, 'd')] == [Card(4, 's')] + [Card(10, 's'), Card(7, 's'), Card(2, 'c'), Card(2, 'd')];
  }

  lemma Reference7Sort1()
    ensures SortByRank([Card(13, 's'), Card(4, 's'), Card(10, 's'), Card(7, 's'), Card(2, 'c'), Card(2, 'd')]) == [Card(13, 's'), Card(10, 's'), Card(7, 's'), Card(4, 's'), Card(2, 'c'), Card(2, 'd')]
  {
    Reference7Sort2();
    SortStep(Card(13, 's'), [Card(4, 's'), Card(10, 's'), Card(7, 's'), Card(2, 'c'), Card(2, 'd')], [Card(10, 's'), Card(7, 's'), Card(4, 's'), Card(2, 'c'), Card(2, 'd')], 0, [Card(13, 's'), Card(10, 's'), Card(7, 's'), Card(4, 's'), Card(2, 'c'), Card(2, 'd')]);
    assert [Card(13, 's'), Card(4, 's'), Card(10, 's'), Card(7, 's'), Card(2, 'c'), Card(2, 'd')] == [Card(13, 's')] + [Card(4, 's'), Card(10, 's'), Card(7, 's'), Card(2, 'c'), Card(2, 'd')];
  }

  lemma Reference7Sort0()
    ensures SortByRank([Card(3, 's'), Card(13, 's'), Card(4, 's'), Card(10, 's'), Card(7, 's'), Card(2, 'c'), Card(2, 'd')]) == [Card(13, 's'), Card(10, 's'), Card(7, 's'), Card(4, 's'), Card(3, 's'), Card(2, 'c'), Card(2, 'd')]
  {
    Reference7Sort1();
    SortStep(Card(3, 's'), [Card(13, 's'), Card(4, 's'), Card(10, 's'), Card(7, 's'), Card(2, 'c'), Card(2, 'd')], [Card(13, 's'), Card(10, 's'), Card(7, 's'), Card(4, 's'), Card(2, 'c'), Card(2, 'd')], 4, [Card(13, 's'), Card(10, 's'), Card(7, 's'), Card(4, 's'), Card(3, 's'), Card(2, 'c'), Card(2, 'd')]);
    assert [Card(3, 's'), Card(13, 's'), Card(4, 's'), Card(10, 's'), Card(7, 's'), Card(2, 'c'), Card(2, 'd')] == [Card(3, 's')] + [Card(13, 's'), Card(4, 's'), Card(10, 's'), Card(7, 's'), Card(2, 'c'), Card(2, 'd')];
  }

  lemma Reference7Sorted(h: seq<Card>)
    requires Same(h, [Card(3, 's'), Card(13, 's'), Card(4, 's'), Card(10, 's'), Card(7, 's'), Card(2, 'c'), Card(2, 'd')])
    ensures Same(SortByRank(h), [Card(13, 's'), Card(10, 's'), Card(7, 's'), Card(4, 's'), Card(3, 's'), Card(2, 'c'), Card(2, 'd')])
  {
    SameEq(h, [Card(3, 's'), Card(13, 's'), Card(4, 's'), Card(10, 's'), Card(7, 's'), Card(2, 'c'), Card(2, 'd')]);
    Reference7Sort0();
    SameEq(SortByRank(h), [Card(13, 's'), Card(10, 's'), Card(7, 's'), Card(4, 's'), Card(3, 's'), Card(2, 'c'), Card(2, 'd')]);
  }

  lemma Reference7Fact1()
    ensures Occ(['s', 's', 's', 's', 's', 'c', 'd'], 's') >= 5
  {
  }

  lemma Reference7Fact2()
    ensures forall t :: !TopIn([3, 13, 4, 10, 7], t)
  {
  }

  lemma Reference7Fact3()
    ensures forall r :: Occ([3, 13, 4, 10, 7, 2, 2], r) < 3
  {
  }

  lemma Reference7Fact4()
    ensures SuitsOf([Card(13, 's'), Card(10, 's'), Card(7, 's'), Card(4, 's'), Card(3, 's'), Card(2, 'c'), Card(2, 'd')]) == ['s', 's', 's', 's', 's', 'c', 'd']
  {
  }

  lemma Reference7Fact5()
    ensures Occ(['s', 's', 's', 's', 's', 'c', 'd'], Suits[0]) >= 5
  {
  }

  lemma Reference7Fact6()
    ensures Ranks(OfSuit([Card(13, 's'), Card(10, 's'), Card(7, 's'), Card(4, 's'), Card(3, 's'), Card(2, 'c'), Card(2, 'd')], Suits[0])) == [13, 10, 7, 4, 3]
  {
  }

  lemma Reference7Fact7()
    ensures Take([13, 10, 7, 4, 3], 5) == [13, 10, 7, 4, 3]
  {
  }

  lemma Reference7Fact8()
    ensures Ranks([Card(3, 's'), Card(13, 's'), Card(4, 's'), Card(10, 's'), Card(7, 's'), Card(2, 'c'), Card(2, 'd')]) == [3, 13, 4, 10, 7, 2, 2]
  {
  }

  lemma Reference7Fact9()
    ensures SuitsOf([Card(3, 's'), Card(13, 's'), Card(4, 's'), Card(10, 's'), Card(7, 's'), Card(2, 'c'), Card(2, 'd')]) == ['s', 's', 's', 's', 's', 'c', 'd']
  {
  }

  lemma Reference7Fact10()
    ensures Ranks(OfSuit([Card(3, 's'), Card(13, 's'), Card(4, 's'), Card(10, 's'), Card(7, 's'), Card(2, 'c'), Card(2, 'd')], 's')) == [3, 13, 4, 10, 7]
  {
  }

  lemma Reference7Length(h: seq<Card>)
    requires Same(h, [Card(3, 's'), Card(13, 's'), Card(4, 's'), Card(10, 's'), Card(7, 's'), Card(2, 'c'), Card(2, 'd')])
    ensures |h| == 7
  {
    SameEq(h, [Card(3, 's'), Card(13, 's'), Card(4, 's'), Card(10, 's'), Card(7, 's'), Card(2, 'c'), Card(2, 'd')]);
  }

  lemma Reference7Misses(h: seq<Card>)
    requires Same(h, [Card(3, 's'), Card(13, 's'), Card(4, 's'), Card(10, 's'), Card(7, 's'), Card(2, 'c'), Card(2, 'd')])
    ensures StraightFlush(h) == None && NOfAKind(4, h) == None && FullHouse(h) == None
  {
    Reference7Cards(h);
    Reference7Fact1();
    Reference7Fact2();
    NoStraightInSuit(h, ['s', 's', 's', 's', 's', 'c', 'd'], 's', [3, 13, 4, 10, 7]);
    Reference7Fact3();
    KindNone(4, h, [3, 13, 4, 10, 7, 2, 2], 3);
    Reference7Fact3();
    NoTriple(h, [3, 13, 4, 10, 7, 2, 2], 3);
  }

  lemma Reference7Key(h: seq<Card>)
    requires Same(h, [Card(3, 's'), Card(13, 's'), Card(4, 's'), Card(10, 's'), Card(7, 's'), Card(2, 'c'), Card(2, 'd')])
    ensures Flush(h) == Some([13, 10, 7, 4, 3])
  {
    Reference7Sorted(h);
    Reference7Fact4();
    Reference7Fact5();
    Reference7Fact6();
    Reference7Fact7();
    FlushIs(h, [Card(13, 's'), Card(10, 's'), Card(7, 's'), Card(4, 's'), Card(3, 's'), Card(2, 'c'), Card(2, 'd')], ['s', 's', 's', 's', 's', 'c', 'd'], 0, [13, 10, 7, 4, 3]);
  }

  /** Reference hand 7 of the ranking test. */
  lemma Reference7(h: seq<Card>)
    requires Same(h, DecodeAll(["3s", "Ks", "4s", "10s", "7s", "2c", "2d"]))
    ensures |h| > 0 && RankHand(h) == Some(HandRank(6, RankList([13, 10, 7, 4, 3])))
  {
    Reference7Decoded();
    Reference7Length(h);
    Reference7Misses(h);
    Reference7Key(h);
    RankByDetectors(h);
  }

  lemma Reference8Decoded6()
    ensures ValidTokens(["2d"]) && DecodeAll(["2d"]) == [Card(2, 'd')]
  {
  }

  lemma Reference8Decoded5()
    ensures ValidTokens(["2c", "2d"]) && DecodeAll(["2c", "2d"]) == [Card(2, 'c'), Card(2, 'd')]
  {
    Reference8Decoded6();
  }

  lemma Reference8Decoded4()
    ensures ValidTokens(["7s", "2c", "2d"]) && DecodeAll(["7s", "2c", "2d"]) == [Card(7, 's'), Card(2, 'c'), Card(2, 'd')]
  {
    Reference8Decoded5();
  }

  lemma Reference8Decoded3()
    ensures ValidTokens(["10s", "7s", "2c", "2d"]) && DecodeAll(["10s", "7s", "2c", "2d"]) == [Card(10, 's'), Card(7, 's'), Card(2, 'c'), Card(2, 'd')]
  {
    Reference8Decoded4();
  }

  lemma Reference8Decoded2()
    ensures ValidTokens(["4s", "10s", "7s", "2c", "2d"]) && DecodeAll(["4s", "10s", "7s", "2c", "2d"]) == [Card(4, 's'), Card(10, 's'), Card(7, 's'), Card(2, 'c'), Card(2, 'd')]
  {
    Reference8Decoded3();
  }

  lemma Reference8Decoded1()
    ensures ValidTokens(["Qs", "4s", "10s", "7s", "2c", "2d"]) && DecodeAll(["Qs", "4s", "10s", "7s", "2c", "2d"]) == [Card(12, 's'), Card(4, 's'), Card(10, 's'), Card(7, 's'), Card(2, 'c'), Card(2, 'd')]
  {
    Reference8Decoded2();
  }

  lemma Reference8Decoded()
    ensures ValidTokens(["3s", "Qs", "4s", "10s", "7s", "2c", "2d"]) && DecodeAll(["3s", "Qs", "4s", "10s", "7s", "2c", "2d"]) == [Card(3, 's'), Card(12, 's'), Card(4, 's'), Card(10, 's'), Card(7, 's'), Card(2, 'c'), Card(2, 'd')]
  {
    Reference8Decoded1();
  }

  lemma Reference8Cards(h: seq<Card>)
    requires Same(h, [Card(3, 's'), Card(12, 's'), Card(4, 's'), Card(10, 's'), Card(7, 's'), Card(2, 'c'), Card(2, 'd')])
    ensures |h| == 7 && Ranks(h) == [3, 12, 4, 10, 7, 2, 2] && SuitsOf(h) == ['s', 's', 's', 's', 's', 'c', 'd']
    ensures Ranks(OfSuit(h, 's')) == [3, 12, 4, 10, 7]
  {
    SameEq(h, [Card(3, 's'), Card(12, 's'), Card(4, 's'), Card(10, 's'), Card(7, 's'), Card(2, 'c'), Card(2, 'd')]);
    Reference8Fact8();
    Reference8Fact9();
    Reference8Fact10();
  }

  lemma Reference8Sort6()
    ensures SortByRank([Card(2, 'd')]) == [Card(2, 'd')]
  {
  }

  lemma Reference8Sort5()
    ensures SortByRank([Card(2, 'c'), Card(2, 'd')]) == [Card(2, 'c'), Card(2, 'd')]
  {
    Reference8Sort6();
    SortStep(Card(2, 'c'), [Card(2, 'd')], [Card(2, 'd')], 0, [Card(2, 'c'), Card(2, 'd')]);
    assert [Card(2, 'c'), Card(2, 'd')] == [Card(2, 'c')] + [Card(2, 'd')];
  }

  lemma Reference8Sort4()
    ensures SortByRank([Card(7, 's'), Card(2, 'c'), Card(2, 'd')]) == [Card(7, 's'), Card(2, 'c'), Card(2, 'd')]
  {
    Reference8Sort5();
    SortStep(Card(7, 's'), [Card(2, 'c'), Card(2, 'd')], [Card(2, 'c'), Card(2, 'd')], 0, [Card(7, 's'), Card(2, 'c'), Card(2, 'd')]);
    assert [Card(7, 's'), Card(2, 'c'), Card(2, 'd')] == [Card(7, 's')] + [Card(2, 'c'), Card(2, 'd')];
  }

  lemma Reference8Sort3()
    ensures SortByRank([Card(10, 's'), Card(7, 's'), Card(2, 'c'), Card(2, 'd')]) == [Card(10, 's'), Card(7, 's'), Card(2, 'c'), Card(2, 'd')]
  {
    Reference8Sort4();
    SortStep(Card(10, 's'), [Card(7, 's'), Card(2, 'c'), Card(2, 'd')], [Card(7, 's'), Card(2, 'c'), Card(2, 'd')], 0, [Card(10, 's'), Card(7, 's'), Card(2, 'c'), Card(2, 'd')]);
    assert [Card(10, 's'), Card(7, 's'), Card(2, 'c'), Card(2, 'd')] == [Card(10, 's')] + [Card(7, 's'), Card(2, 'c'), Card(2, 'd')];
  }

  lemma Reference8Sort2()
    ensures SortByRank([Card(4, 's'), Card(10, 's'), Card(7, 's'), Card(2, 'c'), Card(2, 'd')]) == [Card(10, 's'), Card(7, 's'), Card(4, 's'), Card(2, 'c'), Card(2, 'd')]
  {
    Reference8Sort3();
    SortStep(Card(4, 's'), [Card(10, 's'), Card(7, 's'), Card(2, 'c'), Card(2, 'd')], [Card(10, 's'), Card(7, 's'), Card(2, 'c'), Card(2, 'd')], 2, [Card(10, 's'), Card(7, 's'), Card(4, 's'), Card(2, 'c'), Card(2, 'd')]);
    assert [Card(4, 's'), Card(10, 's'), Card(7, 's'), Card(2, 'c'), Card(2, 'd')] == [Card(4, 's')] + [Card(10, 's'), Card(7, 's'), Card(2, 'c'), Card(2, 'd')];
  }

  lemma Reference8Sort1()
    ensures SortByRank([Card(12, 's'), Card(4, 's'), Card(10, 's'), Card(7, 's'), Card(2, 'c'), Card(2, 'd')]) == [Card(12, 's'), Card(10, 's'), Card(7, 's'), Card(4, 's'), Card(2, 'c'), Card(2, 'd')]
  {
    Reference8Sort2();
    SortStep(Card(12, 's'), [Card(4, 's'), Card(10, 's'), Card(7, 's'), Card(2, 'c'), Card(2, 'd')], [Card(10, 's'), Card(7, 's'), Card(4, 's'), Card(2, 'c'), Card(2, 'd')], 0, [Card(12, 's'), Card(10, 's'), Card(7, 's'), Card(4, 's'), Card(2, 'c'), Card(2, 'd')]);
    assert [Card(12, 's'), Card(4, 's'), Card(10, 's'), Card(7, 's'), Card(2, 'c'), Card(2, 'd')] == [Card(12, 's')] + [Card(4, 's'), Card(10, 's'), Card(7, 's'), Card(2, 'c'), Card(2, 'd')];
  }

  lemma Reference8Sort0()
    ensures SortByRank([Card(3, 's'), Card(12, 's'), Card(4, 's'), Card(10, 's'), Card(7, 's'), Card(2, 'c'), Card(2, 'd')]) == [Card(12, 's'), Card(10, 's'), Card(7, 's'), Card(4, 's'), Card(3, 's'), Card(2, 'c'), Card(2, 'd')]
  {
    Reference8Sort1();
    SortStep(Card(3, 's'), [Card(12, 's'), Card(4, 's'), Card(10, 's'), Card(7, 's'), Card(2, 'c'), Card(2, 'd')], [Card(12, 's'), Card(10, 's'), Card(7, 's'), Card(4, 's'), Card(2, 'c'), Card(2, 'd')], 4, [Card(12, 's'), Card(10, 's'), Card(7, 's'), Card(4, 's'), Card(3, 's'), Card(2, 'c'), Card(2, 'd')]);
    assert [Card(3, 's'), Card(12, 's'), Card(4, 's'), Card(10, 's'), Card(7, 's'), Card(2, 'c'), Card(2, 'd')] == [Card(3, 's')] + [Card(12, 's'), Card(4, 's'), Card(10, 's'), Card(7, 's'), Card(2, 'c'), Card(2, 'd')];
  }

  lemma Reference8Sorted(h: seq<Card>)
    requires Same(h, [Card(3, 's'), Card(12, 's'), Card(4, 's'), Card(10, 's'), Card(7, 's'), Card(2, 'c'), Card(2, 'd')])
    ensures Same(SortByRank(h), [Card(12, 's'), Card(10, 's'), Card(7, 's'), Card(4, 's'), Card(3, 's'), Card(2, 'c'), Card(2, 'd')])
  {
    SameEq(h, [Card(3, 's'), Card(12, 's'), Card(4, 's'), Card(10, 's'), Card(7, 's'), Card(2, 'c'), Card(2, 'd')]);
    Reference8Sort0();
    SameEq(SortByRank(h), [Card(12, 's'), Card(10, 's'), Card(7, 's'), Card(4, 's'), Card(3, 's'), Card(2, 'c'), Card(2, 'd')]);
  }

  lemma Reference8Fact1()
    ensures Occ(['s', 's', 's', 's', 's', 'c', 'd'], 's') >= 5
  {
  }

  lemma Reference8Fact2()
    ensures forall t :: !TopIn([3, 12, 4, 10, 7], t)
  {
  }

  lemma Reference8Fact3()
    ensures forall r :: Occ([3, 12, 4, 10, 7, 2, 2], r) < 3
  {
  }

  lemma Reference8Fact4()
    ensures SuitsOf([Card(12, 's'), Card(10, 's'), Card(7, 's'), Card(4, 's'), Card(3, 's'), Card(2, 'c'), Card(2, 'd')]) == ['s', 's', 's', 's', 's', 'c', 'd']
  {
  }

  lemma Reference8Fact5()
    ensures Occ(['s', 's', 's', 's', 's', 'c', 'd'], Suits[0]) >= 5
  {
  }

  lemma Reference8Fact6()
    ensures Ranks(OfSuit([Card(12, 's'), Card(10, 's'), Card(7, 's'), Card(4, 's'), Card(3, 's'), Card(2, 'c'), Card(2, 'd')], Suits[0])) == [12, 10, 7, 4, 3]
  {
  }

  lemma Reference8Fact7()
    ensures Take([12, 10, 7, 4, 3], 5) == [12, 10, 7, 4, 3]
  {
  }

  lemma Reference8Fact8()
    ensures Ranks([Card(3, 's'), Card(12, 's'), Card(4, 's'), Card(10, 's'), Card(7, 's'), Card(2, 'c'), Card(2, 'd')]) == [3, 12, 4, 10, 7, 2, 2]
  {
  }

  lemma Reference8Fact9()
    ensures SuitsOf([Card(3, 's'), Card(12, 's'), Card(4, 's'), Card(10, 's'), Card(7, 's'), Card(2, 'c'), Card(2, 'd')]) == ['s', 's', 's', 's', 's', 'c', 'd']
  {
  }

  lemma Reference8Fact10()
    ensures Ranks(OfSuit([Card(3, 's'), Card(12, 's'), Card(4, 's'), Card(10, 's'), Card(7, 's'), Card(2, 'c'), Card(2, 'd')], 's')) == [3, 12, 4, 10, 7]
  {
  }

  lemma Reference8Length(h: seq<Card>)
    requires Same(h, [Card(3, 's'), Card(12, 's'), Card(4, 's'), Card(10, 's'), Card(7, 's'), Card(2, 'c'), Card(2, 'd')])
    ensures |h| == 7
  {
    SameEq(h, [Card(3, 's'), Card(12, 's'), Card(4, 's'), Card(10, 's'), Card(7, 's'), Card(2, 'c'), Card(2, 'd')]);
  }

  lemma Reference8Misses(h: seq<Card>)
    requires Same(h, [Card(3, 's'), Card(12, 's'), Card(4, 's'), Card(10, 's'), Card(7, 's'), Card(2, 'c'), Card(2, 'd')])
    ensures StraightFlush(h) == None && NOfAKind(4, h) == None && FullHouse(h) == None
  {
    Reference8Cards(h);
    Reference8Fact1();
    Reference8Fact2();
    NoStraightInSuit(h, ['s', 's', 's', 's', 's', 'c', 'd'], 's', [3, 12, 4, 10, 7]);
    Reference8Fact3();
    KindNone(4, h, [3, 12, 4, 10, 7, 2, 2], 3);
    Reference8Fact3();
    NoTriple(h, [3, 12, 4, 10, 7, 2, 2], 3);
  }

  lemma Reference8Key(h: seq<Card>)
    requires Same(h, [Card(3, 's'), Card(12, 's'), Card(4, 's'), Card(10, 's'), Card(7, 's'), Card(2, 'c'), Card(2, 'd')])
    ensures Flush(h) == Some([12, 10, 7, 4, 3])
  {
    Reference8Sorted(h);
    Reference8Fact4();
    Reference8Fact5();
    Reference8Fact6();
    Reference8Fact7();
    FlushIs(h, [Card(12, 's'), Card(10, 's'), Card(7, 's'), Card(4, 's'), Card(3, 's'), Card(2, 'c'), Card(2, 'd')], ['s', 's', 's', 's', 's', 'c', 'd'], 0, [12, 10, 7, 4, 3]);
  }

  /** Reference hand 8 of the ranking test. */
  lemma Reference8(h: seq<Card>)
    requires Same(h, DecodeAll(["3s", "Qs", "4s", "10s", "7s", "2c", "2d"]))
    ensures |h| > 0 && RankHand(h) == Some(HandRank(6, RankList([12, 10, 7, 4, 3])))
  {
    Reference8Decoded();
    Reference8Length(h);
    Reference8Misses(h);
    Reference8Key(h);
    RankByDetectors(h);
  }

  lemma Reference9Decoded6()
    ensures ValidTokens(["2d"]) && DecodeAll(["2d"]) == [Card(2, 'd')]
  {
  }

  lemma Reference9Decoded5()
    ensures ValidTokens(["2c", "2d"]) && DecodeAll(["2c", "2d"]) == [Card(2, 'c'), Card(2, 'd')]
  {
    Reference9Decoded6();
  }

  lemma Reference9Decoded4()
    ensures ValidTokens(["7c", "2c", "2d"]) && DecodeAll(["7c", "2c", "2d"]) == [Card(7, 'c'), Card(2, 'c'), Card(2, 'd')]
  {
    Reference9Decoded5();
  }

  lemma Reference9Decoded3()
    ensures ValidTokens(["6d", "7c", "2c", "2d"]) && DecodeAll(["6d", "7c", "2c", "2d"]) == [Card(6, 'd'), Card(7, 'c'), Card(2, 'c'), Card(2, 'd')]
  {
    Reference9Decoded4();
  }

  lemma Reference9Decoded2()
    ensures ValidTokens(["5h", "6d", "7c", "2c", "2d"]) && DecodeAll(["5h", "6d", "7c", "2c", "2d"]) == [Card(5, 'h'), Card(6, 'd'), Card(7, 'c'), Card(2, 'c'), Card(2, 'd')]
  {
    Reference9Decoded3();
  }

  lemma Reference9Decoded1()
    ensures ValidTokens(["4d", "5h", "6d", "7c", "2c", "2d"]) && DecodeAll(["4d", "5h", "6d", "7c", "2c", "2d"]) == [Card(4, 'd'), Card(5, 'h'), Card(6, 'd'), Card(7, 'c'), Card(2, 'c'), Card(2, 'd')]
  {
    Reference9Decoded2();
  }

  lemma Reference9Decoded()
    ensures ValidTokens(["3s", "4d", "5h", "6d", "7c", "2c", "2d"]) && DecodeAll(["3s", "4d", "5h", "6d", "7c", "2c", "2d"]) == [Card(3, 's'), Card(4, 'd'), Card(5, 'h'), Card(6, 'd'), Card(7, 'c'), Card(2, 'c'), Card(2, 'd')]
  {
    Reference9Decoded1();
  }

  lemma Reference9Cards(h: seq<Card>)
    requires Same(h, [Card(3, 's'), Card(4, 'd'), Card(5, 'h'), Card(6, 'd'), Card(7, 'c'), Card(2, 'c'), Card(2, 'd')])
    ensures |h| == 7 && Ranks(h) == [3, 4, 5, 6, 7, 2, 2] && SuitsOf(h) == ['s', 'd', 'h', 'd', 'c', 'c', 'd']
  {
    SameEq(h, [Card(3, 's'), Card(4, 'd'), Card(5, 'h'), Card(6, 'd'), Card(7, 'c'), Card(2, 'c'), Card(2, 'd')]);
    Reference9Fact4();
    Reference9Fact5();
  }

  lemma Reference9Fact1()
    ensures forall u :: Occ(['s', 'd', 'h', 'd', 'c', 'c', 'd'], u) < 5
  {
  }

  lemma Reference9Fact2()
    ensures forall r :: Occ([3, 4, 5, 6, 7, 2, 2], r) < 3
  {
  }

  lemma Reference9Fact3()
    ensures TopIn([3, 4, 5, 6, 7, 2, 2], 7) && forall t :: t > 7 ==> !TopIn([3, 4, 5, 6, 7, 2, 2], t)
  {
  }

  lemma Reference9Fact4()
    ensures Ranks([Card(3, 's'), Card(4, 'd'), Card(5, 'h'), Card(6, 'd'), Card(7, 'c'), Card(2, 'c'), Card(2, 'd')]) == [3, 4, 5, 6, 7, 2, 2]
  {
  }

  lemma Reference9Fact5()
    ensures SuitsOf([Card(3, 's'), Card(4, 'd'), Card(5, 'h'), Card(6, 'd'), Card(7, 'c'), Card(2, 'c'), Card(2, 'd')]) == ['s', 'd', 'h', 'd', 'c', 'c', 'd']
  {
  }

  lemma Reference9Length(h: seq<Card>)
    requires Same(h, [Card(3, 's'), Card(4, 'd'), Card(5, 'h'), Card(6, 'd'), Card(7, 'c'), Card(2, 'c'), Card(2, 'd')])
    ensures |h| == 7
  {
    SameEq(h, [Card(3, 's'), Card(4, 'd'), Card(5, 'h'), Card(6, 'd'), Card(7, 'c'), Card(2, 'c'), Card(2, 'd')]);
  }

  lemma Reference9Misses(h: seq<Card>)
    requires Same(h, [Card(3, 's'), Card(4, 'd'), Card(5, 'h'), Card(6, 'd'), Card(7, 'c'), Card(2, 'c'), Card(2, 'd')])
    ensures StraightFlush(h) == None && NOfAKind(4, h) == None && FullHouse(h) == None && Flush(h) == None
  {
    Reference9Cards(h);
    Reference9Fact1();
    NoSuitOfFive(h, ['s', 'd', 'h', 'd', 'c', 'c', 'd']);
    Reference9Fact2();
    KindNone(4, h, [3, 4, 5, 6, 7, 2, 2], 3);
    Reference9Fact2();
    NoTriple(h, [3, 4, 5, 6, 7, 2, 2], 3);
  }

  lemma Reference9Key(h: seq<Card>)
    requires Same(h, [Card(3, 's'), Card(4, 'd'), Card(5, 'h'), Card(6, 'd'), Card(7, 'c'), Card(2, 'c'), Card(2, 'd')])
    ensures Straight(h) == Some(7)
  {
    Reference9Cards(h);
    Reference9Fact3();
    StraightIs(h, [3, 4, 5, 6, 7, 2, 2], 7);
  }

  /** Reference hand 9 of the ranking test. */
  lemma Reference9(h: seq<Card>)
    requires Same(h, DecodeAll(["3s", "4d", "5h", "6d", "7c", "2c", "2d"]))
    ensures |h| > 0 && RankHand(h) == Some(HandRank(5, HighRank(7)))
  {
    Reference9Decoded();
    Reference9Length(h);
    Reference9Misses(h);
    Reference9Key(h);
    RankByDetectors(h);
  }

  lemma Reference10Decoded6()
    ensures ValidTokens(["2d"]) && DecodeAll(["2d"]) == [Card(2, 'd')]
  {
  }

  lemma Reference10Decoded5()
    ensures ValidTokens(["7c", "2d"]) && DecodeAll(["7c", "2d"]) == [Card(7, 'c'), Card(2, 'd')]
  {
    Reference10Decoded6();
  }

  lemma Reference10Decoded4()
    ensures ValidTokens(["5h", "7c", "2d"]) && DecodeAll(["5h", "7c", "2d"]) == [Card(5, 'h'), Card(7, 'c'), Card(2, 'd')]
  {
    Reference10Decoded5();
  }

  lemma Reference10Decoded3()
    ensures ValidTokens(["4d", "5h", "7c", "2d"]) && DecodeAll(["4d", "5h", "7c", "2d"]) == [Card(4, 'd'), Card(5, 'h'), Card(7, 'c'), Card(2, 'd')]
  {
    Reference10Decoded4();
  }

  lemma Reference10Decoded2()
    ensures ValidTokens(["3s", "4d", "5h", "7c", "2d"]) && DecodeAll(["3s", "4d", "5h", "7c", "2d"]) == [Card(3, 's'), Card(4, 'd'), Card(5, 'h'), Card(7, 'c'), Card(2, 'd')]
  {
    Reference10Decoded3();
  }

  lemma Reference10Decoded1()
    ensures ValidTokens(["2c", "3s", "4d", "5h", "7c", "2d"]) && DecodeAll(["2c", "3s", "4d", "5h", "7c", "2d"]) == [Card(2, 'c'), Card(3, 's'), Card(4, 'd'), Card(5, 'h'), Card(7, 'c'), Card(2, 'd')]
  {
    Reference10Decoded2();
  }

  lemma Reference10Decoded()
    ensures ValidTokens(["As", "2c", "3s", "4d", "5h", "7c", "2d"]) && DecodeAll(["As", "2c", "3s", "4d", "5h", "7c", "2d"]) == [Card(14, 's'), Card(2, 'c'), Card(3, 's'), Card(4, 'd'), Card(5, 'h'), Card(7, 'c'), Card(2, 'd')]
  {
    Reference10Decoded1();
  }

  lemma Reference10Cards(h: seq<Card>)
    requires Same(h, [Card(14, 's'), Card(2, 'c'), Card(3, 's'), Card(4, 'd'), Card(5, 'h'), Card(7, 'c'), Card(2, 'd')])
    ensures |h| == 7 && Ranks(h) == [14, 2, 3, 4, 5, 7, 2] && SuitsOf(h) == ['s', 'c', 's', 'd', 'h', 'c', 'd']
  {
    SameEq(h, [Card(14, 's'), Card(2, 'c'), Card(3, 's'), Card(4, 'd'), Card(5, 'h'), Card(7, 'c'), Card(2, 'd')]);
    Reference10Fact4();
    Reference10Fact5();
  }

  lemma Reference10Fact1()
    ensures forall u :: Occ(['s', 'c', 's', 'd', 'h', 'c', 'd'], u) < 5
  {
  }

  lemma Reference10Fact2()
    ensures forall r :: Occ([14, 2, 3, 4, 5, 7, 2], r) < 3
  {
  }

  lemma Reference10Fact3()
    ensures TopIn([14, 2, 3, 4, 5, 7, 2], 5) && forall t :: t > 5 ==> !TopIn([14, 2, 3, 4, 5, 7, 2], t)
  {
  }

  lemma Reference10Fact4()
    ensures Ranks([Card(14, 's'), Card(2, 'c'), Card(3, 's'), Card(4, 'd'), Card(5, 'h'), Card(7, 'c'), Card(2, 'd')]) == [14, 2, 3, 4, 5, 7, 2]
  {
  }

  lemma Reference10Fact5()
    ensures SuitsOf([Card(14, 's'), Card(2, 'c'), Card(3, 's'), Card(4, 'd'), Card(5, 'h'), Card(7, 'c'), Card(2, 'd')]) == ['s', 'c', 's', 'd', 'h', 'c', 'd']
  {
  }

  lemma Reference10Length(h: seq<Card>)
    requires Same(h, [Card(14, 's'), Card(2, 'c'), Card(3, 's'), Card(4, 'd'), Card(5, 'h'), Card(7, 'c'), Card(2, 'd')])
    ensures |h| == 7
  {
    SameEq(h, [Card(14, 's'), Card(2, 'c'), Card(3, 's'), Card(4, 'd'), Card(5, 'h'), Card(7, 'c'), Card(2, 'd')]);
  }

  lemma Reference10Misses(h: seq<Card>)
    requires Same(h, [Card(14, 's'), Card(2, 'c'), Card(3, 's'), Card(4, 'd'), Card(5, 'h'), Card(7, 'c'), Card(2, 'd')])
    ensures StraightFlush(h) == None && NOfAKind(4, h) == None && FullHouse(h) == None && Flush(h) == None
  {
    Reference10Cards(h);
    Reference10Fact1();
    NoSuitOfFive(h, ['s', 'c', 's', 'd', 'h', 'c', 'd']);
    Reference10Fact2();
    KindNone(4, h, [14, 2, 3, 4, 5, 7, 2], 3);
    Reference10Fact2();
    NoTriple(h, [14, 2, 3, 4, 5, 7, 2], 3);
  }

  lemma Reference10Key(h: seq<Card>)
    requires Same(h, [Card(14, 's'), Card(2, 'c'), Card(3, 's'), Card(4, 'd'), Card(5, 'h'), Card(7, 'c'), Card(2, 'd')])
    ensures Straight(h) == Some(5)
  {
    Reference10Cards(h);
    Reference10Fact3();
    StraightIs(h, [14, 2, 3, 4, 5, 7, 2], 5);
  }

  /** Reference hand 10 of the ranking test. */
  lemma Reference10(h: seq<Card>)
    requires Same(h, DecodeAll(["As", "2c", "3s", "4d", "5h", "7c", "2d"]))
    ensures |h| > 0 && RankHand(h) == Some(HandRank(5, HighRank(5)))
  {
    Reference10Decoded();
    Reference10Length(h);
    Reference10Misses(h);
    Reference10Key(h);
    RankByDetectors(h);
  }

  lemma Reference11Decoded6()
    ensures ValidTokens(["2d"]) && DecodeAll(["2d"]) == [Card(2, 'd')]
  {
  }

  lemma Reference11Decoded5()
    ensures ValidTokens(["3c", "2d"]) && DecodeAll(["3c", "2d"]) == [Card(3, 'c'), Card(2, 'd')]
  {
    Reference11Decoded6();
  }

  lemma Reference11Decoded4()
    ensures ValidTokens(["Ks", "3c", "2d"]) && DecodeAll(["Ks", "3c", "2d"]) == [Card(13, 's'), Card(3, 'c'), Card(2, 'd')]
  {
    Reference11Decoded5();
  }

  lemma Reference11Decoded3()
    ensures ValidTokens(["Ah", "Ks", "3c", "2d"]) && DecodeAll(["Ah", "Ks", "3c", "2d"]) == [Card(14, 'h'), Card(13, 's'), Card(3, 'c'), Card(2, 'd')]
  {
    Reference11Decoded4();
  }

  lemma Reference11Decoded2()
    ensures ValidTokens(["10c", "Ah", "Ks", "3c", "2d"]) && DecodeAll(["10c", "Ah", "Ks", "3c", "2d"]) == [Card(10, 'c'), Card(14, 'h'), Card(13, 's'), Card(3, 'c'), Card(2, 'd')]
  {
    Reference11Decoded3();
  }

  lemma Reference11Decoded1()
    ensures ValidTokens(["10d", "10c", "Ah", "Ks", "3c", "2d"]) && DecodeAll(["10d", "10c", "Ah", "Ks", "3c", "2d"]) == [Card(10, 'd'), Card(10, 'c'), Card(14, 'h'), Card(13, 's'), Card(3, 'c'), Card(2, 'd')]
  {
    Reference11Decoded2();
  }

  lemma Reference11Decoded()
    ensures ValidTokens(["10s", "10d", "10c", "Ah", "Ks", "3c", "2d"]) && DecodeAll(["10s", "10d", "10c", "Ah", "Ks", "3c", "2d"]) == [Card(10, 's'), Card(10, 'd'), Card(10, 'c'), Card(14, 'h'), Card(13, 's'), Card(3, 'c'), Card(2, 'd')]
  {
    Reference11Decoded1();
  }

  lemma Reference11Cards(h: seq<Card>)
    requires Same(h, [Card(10, 's'), Card(10, 'd'), Card(10, 'c'), Card(14, 'h'), Card(13, 's'), Card(3, 'c'), Card(2, 'd')])
    ensures |h| == 7 && Ranks(h) == [10, 10, 10, 14, 13, 3, 2] && SuitsOf(h) == ['s', 'd', 'c', 'h', 's', 'c', 'd']
  {
    SameEq(h, [Card(10, 's'), Card(10, 'd'), Card(10, 'c'), Card(14, 'h'), Card(13, 's'), Card(3, 'c'), Card(2, 'd')]);
    Reference11Fact10();
    Reference11Fact11();
  }

  lemma Reference11Sort6()
    ensures SortByRank([Card(2, 'd')]) == [Card(2, 'd')]
  {
  }

  lemma Reference11Sort5()
    ensures SortByRank([Card(3, 'c'), Card(2, 'd')]) == [Card(3, 'c'), Card(2, 'd')]
  {
    Reference11Sort6();
    SortStep(Card(3, 'c'), [Card(2, 'd')], [Card(2, 'd')], 0, [Card(3, 'c'), Card(2, 'd')]);
    assert [Card(3, 'c'), Card(2, 'd')] == [Card(3, 'c')] + [Card(2, 'd')];
  }

  lemma Reference11Sort4()
    ensures SortByRank([Card(13, 's'), Card(3, 'c'), Card(2, 'd')]) == [Card(13, 's'), Card(3, 'c'), Card(2, 'd')]
  {
    Reference11Sort5();
    SortStep(Card(13, 's'), [Card(3, 'c'), Card(2, 'd')], [Card(3, 'c'), Card(2, 'd')], 0, [Card(13, 's'), Card(3, 'c'), Card(2, 'd')]);
    assert [Card(13, 's'), Card(3, 'c'), Card(2, 'd')] == [Card(13, 's')] + [Card(3, 'c'), Card(2, 'd')];
  }

  lemma Reference11Sort3()
    ensures SortByRank([Card(14, 'h'), Card(13, 's'), Card(3, 'c'), Card(2, 'd')]) == [Card(14, 'h'), Card(13, 's'), Card(3, 'c'), Card(2, 'd')]
  {
    Reference11Sort4();
    SortStep(Card(14, 'h'), [Card(13, 's'), Card(3, 'c'), Card(2, 'd')], [Card(13, 's'), Card(3, 'c'), Card(2, 'd')], 0, [Card(14, 'h'), Card(13, 's'), Card(3, 'c'), Card(2, 'd')]);
    assert [Card(14, 'h'), Card(13, 's'), Card(3, 'c'), Card(2, 'd')] == [Card(14, 'h')] + [Card(13, 's'), Card(3, 'c'), Card(2, 'd')];
  }

  lemma Reference11Sort2()
    ensures SortByRank([Card(10, 'c'), Card(14, 'h'), Card(13, 's'), Card(3, 'c'), Card(2, 'd')]) == [Card(14, 'h'), Card(13, 's'), Card(10, 'c'), Card(3, 'c'), Card(2, 'd')]
  {
    Reference11Sort3();
    SortStep(Card(10, 'c'), [Card(14, 'h'), Card(13, 's'), Card(3, 'c'), Card(2, 'd')], [Card(14, 'h'), Card(13, 's'), Card(3, 'c'), Card(2, 'd')], 2, [Card(14, 'h'), Card(13, 's'), Card(10, 'c'), Card(3, 'c'), Card(2, 'd')]);
    assert [Card(10, 'c'), Card(14, 'h'), Card(13, 's'), Card(3, 'c'), Card(2, 'd')] == [Card(10, 'c')] + [Card(14, 'h'), Card(13, 's'), Card(3, 'c'), Card(2, 'd')];
  }

  lemma Reference11Sort1()
    ensures SortByRank([Card(10, 'd'), Card(10, 'c'), Card(14, 'h'), Card(13, 's'), Card(3, 'c'), Card(2, 'd')]) == [Card(14, 'h'), Card(13, 's'), Card(10, 'd'), Card(10, 'c'), Card(3, 'c'), Card(2, 'd')]
  {
    Reference11Sort2();
    SortStep(Card(10, 'd'), [Card(10, 'c'), Card(14, 'h'), Card(13, 's'), Card(3, 'c'), Card(2, 'd')], [Card(14, 'h'), Card(13, 's'), Card(10, 'c'), Card(3, 'c'), Card(2, 'd')], 2, [Card(14, 'h'), Card(13, 's'), Card(10, 'd'), Card(10, 'c'), Card(3, 'c'), Card(2, 'd')]);
    assert [Card(10, 'd'), Card(10, 'c'), Card(14, 'h'), Card(13, 's'), Card(3, 'c'), Card(2, 'd')] == [Card(10, 'd')] + [Card(10, 'c'), Card(14, 'h'), Card(13, 's'), Card(3, 'c'), Card(2, 'd')];
  }

  lemma Reference11Sort0()
    ensures SortByRank([Card(10, 's'), Card(10, 'd'), Card(10, 'c'), Card(14, 'h'), Card(13, 's'), Card(3, 'c'), Card(2, 'd')]) == [Card(14, 'h'), Card(13, 's'), Card(10, 's'), Card(10, 'd'), Card(10, 'c'), Card(3, 'c'), Card(2, 'd')]
  {
    Reference11Sort1();
    SortStep(Card(10, 's'), [Card(10, 'd'), Card(10, 'c'), Card(14, 'h'), Card(13, 's'), Card(3, 'c'), Card(2, 'd')], [Card(14, 'h'), Card(13, 's'), Card(10, 'd'), Card(10, 'c'), Card(3, 'c'), Card(2, 'd')], 2, [Card(14, 'h'), Card(13, 's'), Card(10, 's'), Card(10, 'd'), Card(10, 'c'), Card(3, 'c'), Card(2, 'd')]);
    assert [Card(10, 's'), Card(10, 'd'), Card(10, 'c'), Card(14, 'h'), Card(13, 's'), Card(3, 'c'), Card(2, 'd')] == [Card(10, 's')] + [Card(10, 'd'), Card(10, 'c'), Card(14, 'h'), Card(13, 's'), Card(3, 'c'), Card(2, 'd')];
  }

  lemma Reference11Sorted(h: seq<Card>)
    requires Same(h, [Card(10, 's'), Card(10, 'd'), Card(10, 'c'), Card(14, 'h'), Card(13, 's'), Card(3, 'c'), Card(2, 'd')])
    ensures Same(SortByRank(h), [Card(14, 'h'), Card(13, 's'), Card(10, 's'), Card(10, 'd'), Card(10, 'c'), Card(3, 'c'), Card(2, 'd')])
  {
    SameEq(h, [Card(10, 's'), Card(10, 'd'), Card(10, 'c'), Card(14, 'h'), Card(13, 's'), Card(3, 'c'), Card(2, 'd')]);
    Reference11Sort0();
    SameEq(SortByRank(h), [Card(14, 'h'), Card(13, 's'), Card(10, 's'), Card(10, 'd'), Card(10, 'c'), Card(3, 'c'), Card(2, 'd')]);
  }

  lemma Reference11SortedRanks(h: seq<Card>)
    requires Same(h, [Card(10, 's'), Card(10, 'd'), Card(10, 'c'), Card(14, 'h'), Card(13, 's'), Card(3, 'c'), Card(2, 'd')])
    ensures Ranks(SortByRank(h)) == [14, 13, 10, 10, 10, 3, 2]
  {
    Reference11Sorted(h);
    SameEq(SortByRank(h), [Card(14, 'h'), Card(13, 's'), Card(10, 's'), Card(10, 'd'), Card(10, 'c'), Card(3, 'c'), Card(2, 'd')]);
    Reference11Fact12();
  }

  lemma Reference11Fact1()
    ensures forall u :: Occ(['s', 'd', 'c', 'h', 's', 'c', 'd'], u) < 5
  {
  }

  lemma Reference11Fact2()
    ensures forall r :: Occ([10, 10, 10, 14, 13, 3, 2], r) < 4
  {
  }

  lemma Reference11Fact3()
    ensures forall t, p :: !(Occ([10, 10, 10, 14, 13, 3, 2], t) == 3 && PairFor([10, 10, 10, 14, 13, 3, 2], t, p))
  {
  }

  lemma Reference11Fact4()
    ensures forall t :: !TopIn([10, 10, 10, 14, 13, 3, 2], t)
  {
  }

  lemma Reference11Fact5()
    ensures Dedup([14, 13, 10, 10, 10, 3, 2]) == [14, 13, 10, 3, 2]
  {
  }

  lemma Reference11Fact6()
    ensures Occ([14, 13, 10, 10, 10, 3, 2], 10) >= 3
  {
  }

  lemma Reference11Fact7()
    ensures forall j :: 0 <= j < 2 ==> Occ([14, 13, 10, 10, 10, 3, 2], [14, 13, 10, 3, 2][j]) < 3
  {
  }

  lemma Reference11Fact8()
    ensures [10] + Take(Outside([14, 13, 10, 10, 10, 3, 2], [10]), 2) == [10, 14, 13]
  {
  }

  lemma Reference11Fact9()
    ensures KindFacts(3, [14, 13, 10, 10, 10, 3, 2], [14, 13, 10, 3, 2], 2, [10, 14, 13])
  {
    Reference11Fact5();
    Reference11Fact6();
    Reference11Fact7();
    Reference11Fact8();
  }

  lemma Reference11Fact10()
    ensures Ranks([Card(10, 's'), Card(10, 'd'), Card(10, 'c'), Card(14, 'h'), Card(13, 's'), Card(3, 'c'), Card(2, 'd')]) == [10, 10, 10, 14, 13, 3, 2]
  {
  }

  lemma Reference11Fact11()
    ensures SuitsOf([Card(10, 's'), Card(10, 'd'), Card(10, 'c'), Card(14, 'h'), Card(13, 's'), Card(3, 'c'), Card(2, 'd')]) == ['s', 'd', 'c', 'h', 's', 'c', 'd']
  {
  }

  lemma Reference11Fact12()
    ensures Ranks([Card(14, 'h'), Card(13, 's'), Card(10, 's'), Card(10, 'd'), Card(10, 'c'), Card(3, 'c'), Card(2, 'd')]) == [14, 13, 10, 10, 10, 3, 2]
  {
  }

  lemma Reference11Length(h: seq<Card>)
    requires Same(h, [Card(10, 's'), Card(10, 'd'), Card(10, 'c'), Card(14, 'h'), Card(13, 's'), Card(3, 'c'), Card(2, 'd')])
    ensures |h| == 7
  {
    SameEq(h, [Card(10, 's'), Card(10, 'd'), Card(10, 'c'), Card(14, 'h'), Card(13, 's'), Card(3, 'c'), Card(2, 'd')]);
  }

  lemma Reference11Misses(h: seq<Card>)
    requires Same(h, [Card(10, 's'), Card(10, 'd'), Card(10, 'c'), Card(14, 'h'), Card(13, 's'), Card(3, 'c'), Card(2, 'd')])
    ensures StraightFlush(h) == None && NOfAKind(4, h) == None && FullHouse(h) == None && Flush(h) == None && Straight(h) == None
  {
    Reference11Cards(h);
    Reference11Fact1();
    NoSuitOfFive(h, ['s', 'd', 'c', 'h', 's', 'c', 'd']);
    Reference11Fact2();
    KindNone(4, h, [10, 10, 10, 14, 13, 3, 2], 4);
    Reference11Fact3();
    NoPairForTriple(h, [10, 10, 10, 14, 13, 3, 2]);
    Reference11Fact4();
    NoStraight(h, [10, 10, 10, 14, 13, 3, 2]);
  }

  lemma Reference11Key(h: seq<Card>)
    requires Same(h, [Card(10, 's'), Card(10, 'd'), Card(10, 'c'), Card(14, 'h'), Card(13, 's'), Card(3, 'c'), Card(2, 'd')])
    ensures NOfAKind(3, h) == Some([10, 14, 13])
  {
    Reference11Fact9();
    Reference11SortedRanks(h);
    KindIs(3, h, [14, 13, 10, 3, 2], 2, [10, 14, 13]);
  }

  /** Reference hand 11 of the ranking test. */
  lemma Reference11(h: seq<Card>)
    requires Same(h, DecodeAll(["10s", "10d", "10c", "Ah", "Ks", "3c", "2d"]))
    ensures |h| > 0 && RankHand(h) == Some(HandRank(4, RankList([10, 14, 13])))
  {
    Reference11Decoded();
    Reference11Length(h);
    Reference11Misses(h);
    Reference11Key(h);
    RankByDetectors(h);
  }

  lemma Reference12Decoded6()
    ensures ValidTokens(["2d"]) && DecodeAll(["2d"]) == [Card(2, 'd')]
  {
  }

  lemma Reference12Decoded5()
    ensures ValidTokens(["3c", "2d"]) && DecodeAll(["3c", "2d"]) == [Card(3, 'c'), Card(2, 'd')]
  {
    Reference12Decoded6();
  }

  lemma Reference12Decoded4()
    ensures ValidTokens(["Qs", "3c", "2d"]) && DecodeAll(["Qs", "3c", "2d"]) == [Card(12, 's'), Card(3, 'c'), Card(2, 'd')]
  {
    Reference12Decoded5();
  }

  lemma Reference12Decoded3()
    ensures ValidTokens(["Ah", "Qs", "3c", "2d"]) && DecodeAll(["Ah", "Qs", "3c", "2d"]) == [Card(14, 'h'), Card(12, 's'), Card(3, 'c'), Card(2, 'd')]
  {
    Reference12Decoded4();
  }

  lemma Reference12Decoded2()
    ensures ValidTokens(["10c", "Ah", "Qs", "3c", "2d"]) && DecodeAll(["10c", "Ah", "Qs", "3c", "2d"]) == [Card(10, 'c'), Card(14, 'h'), Card(12, 's'), Card(3, 'c'), Card(2, 'd')]
  {
    Reference12Decoded3();
  }

  lemma Reference12Decoded1()
    ensures ValidTokens(["10d", "10c", "Ah", "Qs", "3c", "2d"]) && DecodeAll(["10d", "10c", "Ah", "Qs", "3c", "2d"]) == [Card(10, 'd'), Card(10, 'c'), Card(14, 'h'), Card(12, 's'), Card(3, 'c'), Card(2, 'd')]
  {
    Reference12Decoded2();
  }

  lemma Reference12Decoded()
    ensures ValidTokens(["10s", "10d", "10c", "Ah", "Qs", "3c", "2d"]) && DecodeAll(["10s", "10d", "10c", "Ah", "Qs", "3c", "2d"]) == [Card(10, 's'), Card(10, 'd'), Card(10, 'c'), Card(14, 'h'), Card(12, 's'), Card(3, 'c'), Card(2, 'd')]
  {
    Reference12Decoded1();
  }

  lemma Reference12Cards(h: seq<Card>)
    requires Same(h, [Card(10, 's'), Card(10, 'd'), Card(10, 'c'), Card(14, 'h'), Card(12, 's'), Card(3, 'c'), Card(2, 'd')])
    ensures |h| == 7 && Ranks(h) == [10, 10, 10, 14, 12, 3, 2] && SuitsOf(h) == ['s', 'd', 'c', 'h', 's', 'c', 'd']
  {
    SameEq(h, [Card(10, 's'), Card(10, 'd'), Card(10, 'c'), Card(14, 'h'), Card(12, 's'), Card(3, 'c'), Card(2, 'd')]);
    Reference12Fact10();
    Reference12Fact11();
  }

  lemma Reference12Sort6()
    ensures SortByRank([Card(2, 'd')]) == [Card(2, 'd')]
  {
  }

  lemma Reference12Sort5()
    ensures SortByRank([Card(3, 'c'), Card(2, 'd')]) == [Card(3, 'c'), Card(2, 'd')]
  {
    Reference12Sort6();
    SortStep(Card(3, 'c'), [Card(2, 'd')], [Card(2, 'd')], 0, [Card(3, 'c'), Card(2, 'd')]);
    assert [Card(3, 'c'), Card(2, 'd')] == [Card(3, 'c')] + [Card(2, 'd')];
  }

  lemma Reference12Sort4()
    ensures SortByRank([Card(12, 's'), Card(3, 'c'), Card(2, 'd')]) == [Card(12, 's'), Card(3, 'c'), Card(2, 'd')]
  {
    Reference12Sort5();
    SortStep(Card(12, 's'), [Card(3, 'c'), Card(2, 'd')], [Card(3, 'c'), Card(2, 'd')], 0, [Card(12, 's'), Card(3, 'c'), Card(2, 'd')]);
    assert [Card(12, 's'), Card(3, 'c'), Card(2, 'd')] == [Card(12, 's')] + [Card(3, 'c'), Card(2, 'd')];
  }

  lemma Reference12Sort3()
    ensures SortByRank([Card(14, 'h'), Card(12, 's'), Card(3, 'c'), Card(2, 'd')]) == [Card(14, 'h'), Card(12, 's'), Card(3, 'c'), Card(2, 'd')]
  {
    Reference12Sort4();
    SortStep(Card(14, 'h'), [Card(12, 's'), Card(3, 'c'), Card(2, 'd')], [Card(12, 's'), Card(3, 'c'), Card(2, 'd')], 0, [Card(14, 'h'), Card(12, 's'), Card(3, 'c'), Card(2, 'd')]);
    assert [Card(14, 'h'), Card(12, 's'), Card(3, 'c'), Card(2, 'd')] == [Card(14, 'h')] + [Card(12, 's'), Card(3, 'c'), Card(2, 'd')];
  }

  lemma Reference12Sort2()
    ensures SortByRank([Card(10, 'c'), Card(14, 'h'), Card(12, 's'), Card(3, 'c'), Card(2, 'd')]) == [Card(14, 'h'), Card(12, 's'), Card(10, 'c'), Card(3, 'c'), Card(2, 'd')]
  {
    Reference12Sort3();
    SortStep(Card(10, 'c'), [Card(14, 'h'), Card(12, 's'), Card(3, 'c'), Card(2, 'd')], [Card(14, 'h'), Card(12, 's'), Card(3, 'c'), Card(2, 'd')], 2, [Card(14, 'h'), Card(12, 's'), Card(10, 'c'), Card(3, 'c'), Card(2, 'd')]);
    assert [Card(10, 'c'), Card(14, 'h'), Card(12, 's'), Card(3, 'c'), Card(2, 'd')] == [Card(10, 'c')] + [Card(14, 'h'), Card(12, 's'), Card(3, 'c'), Card(2, 'd')];
  }

  lemma Reference12Sort1()
    ensures SortByRank([Card(10, 'd'), Card(10, 'c'), Card(14, 'h'), Card(12, 's'), Card(3, 'c'), Card(2, 'd')]) == [Card(14, 'h'), Card(12, 's'), Card(10, 'd'), Card(10, 'c'), Card(3, 'c'), Card(2, 'd')]
  {
    Reference12Sort2();
    SortStep(Card(10, 'd'), [Card(10, 'c'), Card(14, 'h'), Card(12, 's'), Card(3, 'c'), Card(2, 'd')], [Card(14, 'h'), Card(12, 's'), Card(10, 'c'), Card(3, 'c'), Card(2, 'd')], 2, [Card(14, 'h'), Card(12, 's'), Card(10, 'd'), Card(10, 'c'), Card(3, 'c'), Card(2, 'd')]);
    assert [Card(10, 'd'), Card(10, 'c'), Card(14, 'h'), Card(12, 's'), Card(3, 'c'), Card(2, 'd')] == [Card(10, 'd')] + [Card(10, 'c'), Card(14, 'h'), Card(12, 's'), Card(3, 'c'), Card(2, 'd')];
  }

  lemma Reference12Sort0()
    ensures SortByRank([Card(10, 's'), Card(10, 'd'), Card(10, 'c'), Card(14, 'h'), Card(12, 's'), Card(3, 'c'), Card(2, 'd')]) == [Card(14, 'h'), Card(12, 's'), Card(10, 's'), Card(10, 'd'), Card(10, 'c'), Card(3, 'c'), Card(2, 'd')]
  {
    Reference12Sort1();
    SortStep(Card(10, 's'), [Card(10, 'd'), Card(10, 'c'), Card(14, 'h'), Card(12, 's'), Card(3, 'c'), Card(2, 'd')], [Card(14, 'h'), Card(12, 's'), Card(10, 'd'), Card(10, 'c'), Card(3, 'c'), Card(2, 'd')], 2, [Card(14, 'h'), Card(12, 's'), Card(10, 's'), Card(10, 'd'), Card(10, 'c'), Card(3, 'c'), Card(2, 'd')]);
    assert [Card(10, 's'), Card(10, 'd'), Card(10, 'c'), Card(14, 'h'), Card(12, 's'), Card(3, 'c'), Card(2, 'd')] == [Card(10, 's')] + [Card(10, 'd'), Card(10, 'c'), Card(14, 'h'), Card(12, 's'), Card(3, 'c'), Card(2, 'd')];
  }

  lemma Reference12Sorted(h: seq<Card>)
    requires Same(h, [Card(10, 's'), Card(10, 'd'), Card(10, 'c'), Card(14, 'h'), Card(12, 's'), Card(3, 'c'), Card(2, 'd')])
    ensures Same(SortByRank(h), [Card(14, 'h'), Card(12, 's'), Card(10, 's'), Card(10, 'd'), Card(10, 'c'), Card(3, 'c'), Card(2, 'd')])
  {
    SameEq(h, [Card(10, 's'), Card(10, 'd'), Card(10, 'c'), Card(14, 'h'), Card(12, 's'), Card(3, 'c'), Card(2, 'd')]);
    Reference12Sort0();
    SameEq(SortByRank(h), [Card(14, 'h'), Card(12, 's'), Card(10, 's'), Card(10, 'd'), Card(10, 'c'), Card(3, 'c'), Card(2, 'd')]);
  }

  lemma Reference12SortedRanks(h: seq<Card>)
    requires Same(h, [Card(10, 's'), Card(10, 'd'), Card(10, 'c'), Card(14, 'h'), Card(12, 's'), Card(3, 'c'), Card(2, 'd')])
    ensures Ranks(SortByRank(h)) == [14, 12, 10, 10, 10, 3, 2]
  {
    Reference12Sorted(h);
    SameEq(SortByRank(h), [Card(14, 'h'), Card(12, 's'), Card(10, 's'), Card(10, 'd'), Card(10, 'c'), Card(3, 'c'), Card(2, 'd')]);
    Reference12Fact12();
  }

  lemma Reference12Fact1()
    ensures forall u :: Occ(['s', 'd', 'c', 'h', 's', 'c', 'd'], u) < 5
  {
  }

  lemma Reference12Fact2()
    ensures forall r :: Occ([10, 10, 10, 14, 12, 3, 2], r) < 4
  {
  }

  lemma Reference12Fact3()
    ensures forall t, p :: !(Occ([10, 10, 10, 14, 12, 3, 2], t) == 3 && PairFor([10, 10, 10, 14, 12, 3, 2], t, p))
  {
  }

  lemma Reference12Fact4()
    ensures forall t :: !TopIn([10, 10, 10, 14, 12, 3, 2], t)
  {
  }

  lemma Reference12Fact5()
    ensures Dedup([14, 12, 10, 10, 10, 3, 2]) == [14, 12, 10, 3, 2]
  {
  }

  lemma Reference12Fact6()
    ensures Occ([14, 12, 10, 10, 10, 3, 2], 10) >= 3
  {
  }

  lemma Reference12Fact7()
    ensures forall j :: 0 <= j < 2 ==> Occ([14, 12, 10, 10, 10, 3, 2], [14, 12, 10, 3, 2][j]) < 3
  {
  }

  lemma Reference12Fact8()
    ensures [10] + Take(Outside([14, 12, 10, 10, 10, 3, 2], [10]), 2) == [10, 14, 12]
  {
  }

  lemma Reference12Fact9()
    ensures KindFacts(3, [14, 12, 10, 10, 10, 3, 2], [14, 12, 10, 3, 2], 2, [10, 14, 12])
  {
    Reference12Fact5();
    Reference12Fact6();
    Reference12Fact7();
    Reference12Fact8();
  }

  lemma Reference12Fact10()
    ensures Ranks([Card(10, 's'), Card(10, 'd'), Card(10, 'c'), Card(14, 'h'), Card(12, 's'), Card(3, 'c'), Card(2, 'd')]) == [10, 10, 10, 14, 12, 3, 2]
  {
  }

  lemma Reference12Fact11()
    ensures SuitsOf([Card(10, 's'), Card(10, 'd'), Card(10, 'c'), Card(14, 'h'), Card(12, 's'), Card(3, 'c'), Card(2, 'd')]) == ['s', 'd', 'c', 'h', 's', 'c', 'd']
  {
  }

  lemma Reference12Fact12()
    ensures Ranks([Card(14, 'h'), Card(12, 's'), Card(10, 's'), Card(10, 'd'), Card(10, 'c'), Card(3, 'c'), Card(2, 'd')]) == [14, 12, 10, 10, 10, 3, 2]
  {
  }

  lemma Reference12Length(h: seq<Card>)
    requires Same(h, [Card(10, 's'), Card(10, 'd'), Card(10, 'c'), Card(14, 'h'), Card(12, 's'), Card(3, 'c'), Card(2, 'd')])
    ensures |h| == 7
  {
    SameEq(h, [Card(10, 's'), Card(10, 'd'), Card(10, 'c'), Card(14, 'h'), Card(12, 's'), Card(3, 'c'), Card(2, 'd')]);
  }

  lemma Reference12Misses(h: seq<Card>)
    requires Same(h, [Card(10, 's'), Card(10, 'd'), Card(10, 'c'), Card(14, 'h'), Card(12, 's'), Card(3, 'c'), Card(2, 'd')])
    ensures StraightFlush(h) == None && NOfAKind(4, h) == None && FullHouse(h) == None && Flush(h) == None && Straight(h) == None
  {
    Reference12Cards(h);
    Reference12Fact1();
    NoSuitOfFive(h, ['s', 'd', 'c', 'h', 's', 'c', 'd']);
    Reference12Fact2();
    KindNone(4, h, [10, 10, 10, 14, 12, 3, 2], 4);
    Reference12Fact3();
    NoPairForTriple(h, [10, 10, 10, 14, 12, 3, 2]);
    Reference12Fact4();
    NoStraight(h, [10, 10, 10, 14, 12, 3, 2]);
  }

  lemma Reference12Key(h: seq<Card>)
    requires Same(h, [Card(10, 's'), Card(10, 'd'), Card(10, 'c'), Card(14, 'h'), Card(12, 's'), Card(3, 'c'), Card(2, 'd')])
    ensures NOfAKind(3, h) == Some([10, 14, 12])
  {
    Reference12Fact9();
    Reference12SortedRanks(h);
    KindIs(3, h, [14, 12, 10, 3, 2], 2, [10, 14, 12]);
  }

  /** Reference hand 12 of the ranking test. */
  lemma Reference12(h: seq<Card>)
    requires Same(h, DecodeAll(["10s", "10d", "10c", "Ah", "Qs", "3c", "2d"]))
    ensures |h| > 0 && RankHand(h) == Some(HandRank(4, RankList([10, 14, 12])))
  {
    Reference12Decoded();
    Reference12Length(h);
    Reference12Misses(h);
    Reference12Key(h);
    RankByDetectors(h);
  }

  lemma Reference13Decoded6()
    ensures ValidTokens(["6d"]) && DecodeAll(["6d"]) == [Card(6, 'd')]
  {
  }

  lemma Reference13Decoded5()
    ensures ValidTokens(["2h", "6d"]) && DecodeAll(["2h", "6d"]) == [Card(2, 'h'), Card(6, 'd')]
  {
    Reference13Decoded6();
  }

  lemma Reference13Decoded4()
    ensures ValidTokens(["4c", "2h", "6d"]) && DecodeAll(["4c", "2h", "6d"]) == [Card(4, 'c'), Card(2, 'h'), Card(6, 'd')]
  {
    Reference13Decoded5();
  }

  lemma Reference13Decoded3()
    ensures ValidTokens(["4c", "4c", "2h", "6d"]) && DecodeAll(["4c", "4c", "2h", "6d"]) == [Card(4, 'c'), Card(4, 'c'), Card(2, 'h'), Card(6, 'd')]
  {
    Reference13Decoded4();
  }

  lemma Reference13Decoded2()
    ensures ValidTokens(["Kh", "4c", "4c", "2h", "6d"]) && DecodeAll(["Kh", "4c", "4c", "2h", "6d"]) == [Card(13, 'h'), Card(4, 'c'), Card(4, 'c'), Card(2, 'h'), Card(6, 'd')]
  {
    Reference13Decoded3();
  }

  lemma Reference13Decoded1()
    ensures ValidTokens(["10d", "Kh", "4c", "4c", "2h", "6d"]) && DecodeAll(["10d", "Kh", "4c", "4c", "2h", "6d"]) == [Card(10, 'd'), Card(13, 'h'), Card(4, 'c'), Card(4, 'c'), Card(2, 'h'), Card(6, 'd')]
  {
    Reference13Decoded2();
  }

  lemma Reference13Decoded()
    ensures ValidTokens(["10s", "10d", "Kh", "4c", "4c", "2h", "6d"]) && DecodeAll(["10s", "10d", "Kh", "4c", "4c", "2h", "6d"]) == [Card(10, 's'), Card(10, 'd'), Card(13, 'h'), Card(4, 'c'), Card(4, 'c'), Card(2, 'h'), Card(6, 'd')]
  {
    Reference13Decoded1();
  }

  lemma Reference13Cards(h: seq<Card>)
    requires Same(h, [Card(10, 's'), Card(10, 'd'), Card(13, 'h'), Card(4, 'c'), Card(4, 'c'), Card(2, 'h'), Card(6, 'd')])
    ensures |h| == 7 && Ranks(h) == [10, 10, 13, 4, 4, 2, 6] && SuitsOf(h) == ['s', 'd', 'h', 'c', 'c', 'h', 'd']
  {
    SameEq(h, [Card(10, 's'), Card(10, 'd'), Card(13, 'h'), Card(4, 'c'), Card(4, 'c'), Card(2, 'h'), Card(6, 'd')]);
    Reference13Fact7();
    Reference13Fact8();
  }

  lemma Reference13Fact1()
    ensures forall u :: Occ(['s', 'd', 'h', 'c', 'c', 'h', 'd'], u) < 5
  {
  }

  lemma Reference13Fact2()
    ensures forall r :: Occ([10, 10, 13, 4, 4, 2, 6], r) < 3
  {
  }

  lemma Reference13Fact3()
    ensures forall t :: !TopIn([10, 10, 13, 4, 4, 2, 6], t)
  {
  }

  lemma Reference13Fact4()
    ensures Occ([10, 10, 13, 4, 4, 2, 6], 10) == 2 && Occ([10, 10, 13, 4, 4, 2, 6], 4) == 2
  {
  }

  lemma Reference13Fact5()
    ensures forall r :: Occ([10, 10, 13, 4, 4, 2, 6], r) == 2 ==> r == 10 || r <= 4
  {
  }

  lemma Reference13Fact6()
    ensures 13 in [10, 10, 13, 4, 4, 2, 6] && forall x :: x in [10, 10, 13, 4, 4, 2, 6] && x != 10 && x != 4 ==> x <= 13
  {
  }

  lemma Reference13Fact7()
    ensures Ranks([Card(10, 's'), Card(10, 'd'), Card(13, 'h'), Card(4, 'c'), Card(4, 'c'), Card(2, 'h'), Card(6, 'd')]) == [10, 10, 13, 4, 4, 2, 6]
  {
  }

  lemma Reference13Fact8()
    ensures SuitsOf([Card(10, 's'), Card(10, 'd'), Card(13, 'h'), Card(4, 'c'), Card(4, 'c'), Card(2, 'h'), Card(6, 'd')]) == ['s', 'd', 'h', 'c', 'c', 'h', 'd']
  {
  }

  lemma Reference13Length(h: seq<Card>)
    requires Same(h, [Card(10, 's'), Card(10, 'd'), Card(13, 'h'), Card(4, 'c'), Card(4, 'c'), Card(2, 'h'), Card(6, 'd')])
    ensures |h| == 7
  {
    SameEq(h, [Card(10, 's'), Card(10, 'd'), Card(13, 'h'), Card(4, 'c'), Card(4, 'c'), Card(2, 'h'), Card(6, 'd')]);
  }

  lemma Reference13Misses(h: seq<Card>)
    requires Same(h, [Card(10, 's'), Card(10, 'd'), Card(13, 'h'), Card(4, 'c'), Card(4, 'c'), Card(2, 'h'), Card(6, 'd')])
    ensures StraightFlush(h) == None && NOfAKind(4, h) == None && FullHouse(h) == None && Flush(h) == None && Straight(h) == None && NOfAKind(3, h) == None
  {
    Reference13Cards(h);
    Reference13Fact1();
    NoSuitOfFive(h, ['s', 'd', 'h', 'c', 'c', 'h', 'd']);
    Reference13Fact2();
    KindNone(4, h, [10, 10, 13, 4, 4, 2, 6], 3);
    Reference13Fact2();
    NoTriple(h, [10, 10, 13, 4, 4, 2, 6], 3);
    Reference13Fact3();
    NoStraight(h, [10, 10, 13, 4, 4, 2, 6]);
    Reference13Fact2();
    KindNone(3, h, [10, 10, 13, 4, 4, 2, 6], 3);
  }

  lemma Reference13Key(h: seq<Card>)
    requires Same(h, [Card(10, 's'), Card(10, 'd'), Card(13, 'h'), Card(4, 'c'), Card(4, 'c'), Card(2, 'h'), Card(6, 'd')])
    ensures TwoPairs(h) == Some([10, 4, 13])
  {
    Reference13Cards(h);
    Reference13Fact4();
    Reference13Fact5();
    Reference13Fact6();
    TwoPairsIs(h, [10, 10, 13, 4, 4, 2, 6], 10, 4, 13);
  }

  /** Reference hand 13 of the ranking test. */
  lemma Reference13(h: seq<Card>)
    requires Same(h, DecodeAll(["10s", "10d", "Kh", "4c", "4c", "2h", "6d"]))
    ensures |h| > 0 && RankHand(h) == Some(HandRank(3, RankList([10, 4, 13])))
  {
    Reference13Decoded();
    Reference13Length(h);
    Reference13Misses(h);
    Reference13Key(h);
    RankByDetectors(h);
  }

  lemma Reference14Decoded6()
    ensures ValidTokens(["6d"]) && DecodeAll(["6d"]) == [Card(6, 'd')]
  {
  }

  lemma Reference14Decoded5()
    ensures ValidTokens(["2h", "6d"]) && DecodeAll(["2h", "6d"]) == [Card(2, 'h'), Card(6, 'd')]
  {
    Reference14Decoded6();
  }

  lemma Reference14Decoded4()
    ensures ValidTokens(["3c", "2h", "6d"]) && DecodeAll(["3c", "2h", "6d"]) == [Card(3, 'c'), Card(2, 'h'), Card(6, 'd')]
  {
    Reference14Decoded5();
  }

  lemma Reference14Decoded3()
    ensures ValidTokens(["3c", "3c", "2h", "6d"]) && DecodeAll(["3c", "3c", "2h", "6d"]) == [Card(3, 'c'), Card(3, 'c'), Card(2, 'h'), Card(6, 'd')]
  {
    Reference14Decoded4();
  }

  lemma Reference14Decoded2()
    ensures ValidTokens(["Ah", "3c", "3c", "2h", "6d"]) && DecodeAll(["Ah", "3c", "3c", "2h", "6d"]) == [Card(14, 'h'), Card(3, 'c'), Card(3, 'c'), Card(2, 'h'), Card(6, 'd')]
  {
    Reference14Decoded3();
  }

  lemma Reference14Decoded1()
    ensures ValidTokens(["10d", "Ah", "3c", "3c", "2h", "6d"]) && DecodeAll(["10d", "Ah", "3c", "3c", "2h", "6d"]) == [Card(10, 'd'), Card(14, 'h'), Card(3, 'c'), Card(3, 'c'), Card(2, 'h'), Card(6, 'd')]
  {
    Reference14Decoded2();
  }

  lemma Reference14Decoded()
    ensures ValidTokens(["10s", "10d", "Ah", "3c", "3c", "2h", "6d"]) && DecodeAll(["10s", "10d", "Ah", "3c", "3c", "2h", "6d"]) == [Card(10, 's'), Card(10, 'd'), Card(14, 'h'), Card(3, 'c'), Card(3, 'c'), Card(2, 'h'), Card(6, 'd')]
  {
    Reference14Decoded1();
  }

  lemma Reference14Cards(h: seq<Card>)
    requires Same(h, [Card(10, 's'), Card(10, 'd'), Card(14, 'h'), Card(3, 'c'), Card(3, 'c'), Card(2, 'h'), Card(6, 'd')])
    ensures |h| == 7 && Ranks(h) == [10, 10, 14, 3, 3, 2, 6] && SuitsOf(h) == ['s', 'd', 'h', 'c', 'c', 'h', 'd']
  {
    SameEq(h, [Card(10, 's'), Card(10, 'd'), Card(14, 'h'), Card(3, 'c'), Card(3, 'c'), Card(2, 'h'), Card(6, 'd')]);
    Reference14Fact7();
    Reference14Fact8();
  }

  lemma Reference14Fact1()
    ensures forall u :: Occ(['s', 'd', 'h', 'c', 'c', 'h', 'd'], u) < 5
  {
  }

  lemma Reference14Fact2()
    ensures forall r :: Occ([10, 10, 14, 3, 3, 2, 6], r) < 3
  {
  }

  lemma Reference14Fact3()
    ensures forall t :: !TopIn([10, 10, 14, 3, 3, 2, 6], t)
  {
  }

  lemma Reference14Fact4()
    ensures Occ([10, 10, 14, 3, 3, 2, 6], 10) == 2 && Occ([10, 10, 14, 3, 3, 2, 6], 3) == 2
  {
  }

  lemma Reference14Fact5()
    ensures forall r :: Occ([10, 10, 14, 3, 3, 2, 6], r) == 2 ==> r == 10 || r <= 3
  {
  }

  lemma Reference14Fact6()
    ensures 14 in [10, 10, 14, 3, 3, 2, 6] && forall x :: x in [10, 10, 14, 3, 3, 2, 6] && x != 10 && x != 3 ==> x <= 14
  {
  }

  lemma Reference14Fact7()
    ensures Ranks([Card(10, 's'), Card(10, 'd'), Card(14, 'h'), Card(3, 'c'), Card(3, 'c'), Card(2, 'h'), Card(6, 'd')]) == [10, 10, 14, 3, 3, 2, 6]
  {
  }

  lemma Reference14Fact8()
    ensures SuitsOf([Card(10, 's'), Card(10, 'd'), Card(14, 'h'), Card(3, 'c'), Card(3, 'c'), Card(2, 'h'), Card(6, 'd')]) == ['s', 'd', 'h', 'c', 'c', 'h', 'd']
  {
  }

  lemma Reference14Length(h: seq<Card>)
    requires Same(h, [Card(10, 's'), Card(10, 'd'), Card(14, 'h'), Card(3, 'c'), Card(3, 'c'), Card(2, 'h'), Card(6, 'd')])
    ensures |h| == 7
  {
    SameEq(h, [Card(10, 's'), Card(10, 'd'), Card(14, 'h'), Card(3, 'c'), Card(3, 'c'), Card(2, 'h'), Card(6, 'd')]);
  }

  lemma Reference14Misses(h: seq<Card>)
    requires Same(h, [Card(10, 's'), Card(10, 'd'), Card(14, 'h'), Card(3, 'c'), Card(3, 'c'), Card(2, 'h'), Card(6, 'd')])
    ensures StraightFlush(h) == None && NOfAKind(4, h) == None && FullHouse(h) == None && Flush(h) == None && Straight(h) == None && NOfAKind(3, h) == None
  {
    Reference14Cards(h);
    Reference14Fact1();
    NoSuitOfFive(h, ['s', 'd', 'h', 'c', 'c', 'h', 'd']);
    Reference14Fact2();
    KindNone(4, h, [10, 10, 14, 3, 3, 2, 6], 3);
    Reference14Fact2();
    NoTriple(h, [10, 10, 14, 3, 3, 2, 6], 3);
    Reference14Fact3();
    NoStraight(h, [10, 10, 14, 3, 3, 2, 6]);
    Reference14Fact2();
    KindNone(3, h, [10, 10, 14, 3, 3, 2, 6], 3);
  }

  lemma Reference14Key(h: seq<Card>)
    requires Same(h, [Card(10, 's'), Card(10, 'd'), Card(14, 'h'), Card(3, 'c'), Card(3, 'c'), Card(2, 'h'), Card(6, 'd')])
    ensures TwoPairs(h) == Some([10, 3, 14])
  {
    Reference14Cards(h);
    Reference14Fact4();
    Reference14Fact5();
    Reference14Fact6();
    TwoPairsIs(h, [10, 10, 14, 3, 3, 2, 6], 10, 3, 14);
  }

  /** Reference hand 14 of the ranking test. */
  lemma Reference14(h: seq<Card>)
    requires Same(h, DecodeAll(["10s", "10d", "Ah", "3c", "3c", "2h", "6d"]))
    ensures |h| > 0 && RankHand(h) == Some(HandRank(3, RankList([10, 3, 14])))
  {
    Reference14Decoded();
    Reference14Length(h);
    Reference14Misses(h);
    Reference14Key(h);
    RankByDetectors(h);
  }

  lemma Reference15Decoded6()
    ensures ValidTokens(["6d"]) && DecodeAll(["6d"]) == [Card(6, 'd')]
  {
  }

  lemma Reference15Decoded5()
    ensures ValidTokens(["2h", "6d"]) && DecodeAll(["2h", "6d"]) == [Card(2, 'h'), Card(6, 'd')]
  {
    Reference15Decoded6();
  }

  lemma Reference15Decoded4()
    ensures ValidTokens(["3c", "2h", "6d"]) && DecodeAll(["3c", "2h", "6d"]) == [Card(3, 'c'), Card(2, 'h'), Card(6, 'd')]
  {
    Reference15Decoded5();
  }

  lemma Reference15Decoded3()
    ensures ValidTokens(["3c", "3c", "2h", "6d"]) && DecodeAll(["3c", "3c", "2h", "6d"]) == [Card(3, 'c'), Card(3, 'c'), Card(2, 'h'), Card(6, 'd')]
  {
    Reference15Decoded4();
  }

  lemma Reference15Decoded2()
    ensures ValidTokens(["4h", "3c", "3c", "2h", "6d"]) && DecodeAll(["4h", "3c", "3c", "2h", "6d"]) == [Card(4, 'h'), Card(3, 'c'), Card(3, 'c'), Card(2, 'h'), Card(6, 'd')]
  {
    Reference15Decoded3();
  }

  lemma Reference15Decoded1()
    ensures ValidTokens(["10d", "4h", "3c", "3c", "2h", "6d"]) && DecodeAll(["10d", "4h", "3c", "3c", "2h", "6d"]) == [Card(10, 'd'), Card(4, 'h'), Card(3, 'c'), Card(3, 'c'), Card(2, 'h'), Card(6, 'd')]
  {
    Reference15Decoded2();
  }

  lemma Reference15Decoded()
    ensures ValidTokens(["10s", "10d", "4h", "3c", "3c", "2h", "6d"]) && DecodeAll(["10s", "10d", "4h", "3c", "3c", "2h", "6d"]) == [Card(10, 's'), Card(10, 'd'), Card(4, 'h'), Card(3, 'c'), Card(3, 'c'), Card(2, 'h'), Card(6, 'd')]
  {
    Reference15Decoded1();
  }

  lemma Reference15Cards(h: seq<Card>)
    requires Same(h, [Card(10, 's'), Card(10, 'd'), Card(4, 'h'), Card(3, 'c'), Card(3, 'c'), Card(2, 'h'), Card(6, 'd')])
    ensures |h| == 7 && Ranks(h) == [10, 10, 4, 3, 3, 2, 6] && SuitsOf(h) == ['s', 'd', 'h', 'c', 'c', 'h', 'd']
  {
    SameEq(h, [Card(10, 's'), Card(10, 'd'), Card(4, 'h'), Card(3, 'c'), Card(3, 'c'), Card(2, 'h'), Card(6, 'd')]);
    Reference15Fact7();
    Reference15Fact8();
  }

  lemma Reference15Fact1()
    ensures forall u :: Occ(['s', 'd', 'h', 'c', 'c', 'h', 'd'], u) < 5
  {
  }

  lemma Reference15Fact2()
    ensures forall r :: Occ([10, 10, 4, 3, 3, 2, 6], r) < 3
  {
  }

  lemma Reference15Fact3()
    ensures forall t :: !TopIn([10, 10, 4, 3, 3, 2, 6], t)
  {
  }

  lemma Reference15Fact4()
    ensures Occ([10, 10, 4, 3, 3, 2, 6], 10) == 2 && Occ([10, 10, 4, 3, 3, 2, 6], 3) == 2
  {
  }

  lemma Reference15Fact5()
    ensures forall r :: Occ([10, 10, 4, 3, 3, 2, 6], r) == 2 ==> r == 10 || r <= 3
  {
  }

  lemma Reference15Fact6()
    ensures 6 in [10, 10, 4, 3, 3, 2, 6] && forall x :: x in [10, 10, 4, 3, 3, 2, 6] && x != 10 && x != 3 ==> x <= 6
  {
  }

  lemma Reference15Fact7()
    ensures Ranks([Card(10, 's'), Card(10, 'd'), Card(4, 'h'), Card(3, 'c'), Card(3, 'c'), Card(2, 'h'), Card(6, 'd')]) == [10, 10, 4, 3, 3, 2, 6]
  {
  }

  lemma Reference15Fact8()
    ensures SuitsOf([Card(10, 's'), Card(10, 'd'), Card(4, 'h'), Card(3, 'c'), Card(3, 'c'), Card(2, 'h'), Card(6, 'd')]) == ['s', 'd', 'h', 'c', 'c', 'h', 'd']
  {
  }

  lemma Reference15Length(h: seq<Card>)
    requires Same(h, [Card(10, 's'), Card(10, 'd'), Card(4, 'h'), Card(3, 'c'), Card(3, 'c'), Card(2, 'h'), Card(6, 'd')])
    ensures |h| == 7
  {
    SameEq(h, [Card(10, 's'), Card(10, 'd'), Card(4, 'h'), Card(3, 'c'), Card(3, 'c'), Card(2, 'h'), Card(6, 'd')]);
  }

  lemma Reference15Misses(h: seq<Card>)
    requires Same(h, [Card(10, 's'), Card(10, 'd'), Card(4, 'h'), Card(3, 'c'), Card(3, 'c'), Card(2, 'h'), Card(6, 'd')])
    ensures StraightFlush(h) == None && NOfAKind(4, h) == None && FullHouse(h) == None && Flush(h) == None && Straight(h) == None && NOfAKind(3, h) == None
  {
    Reference15Cards(h);
    Reference15Fact1();
    NoSuitOfFive(h, ['s', 'd', 'h', 'c', 'c', 'h', 'd']);
    Reference15Fact2();
    KindNone(4, h, [10, 10, 4, 3, 3, 2, 6], 3);
    Reference15Fact2();
    NoTriple(h, [10, 10, 4, 3, 3, 2, 6], 3);
    Reference15Fact3();
    NoStraight(h, [10, 10, 4, 3, 3, 2, 6]);
    Reference15Fact2();
    KindNone(3, h, [10, 10, 4, 3, 3, 2, 6], 3);
  }

  lemma Reference15Key(h: seq<Card>)
    requires Same(h, [Card(10, 's'), Card(10, 'd'), Card(4, 'h'), Card(3, 'c'), Card(3, 'c'), Card(2, 'h'), Card(6, 'd')])
    ensures TwoPairs(h) == Some([10, 3, 6])
  {
    Reference15Cards(h);
    Reference15Fact4();
    Reference15Fact5();
    Reference15Fact6();
    TwoPairsIs(h, [10, 10, 4, 3, 3, 2, 6], 10, 3, 6);
  }

  /** Reference hand 15 of the ranking test. */
  lemma Reference15(h: seq<Card>)
    requires Same(h, DecodeAll(["10s", "10d", "4h", "3c", "3c", "2h", "6d"]))
    ensures |h| > 0 && RankHand(h) == Some(HandRank(3, RankList([10, 3, 6])))
  {
    Reference15Decoded();
    Reference15Length(h);
    Reference15Misses(h);
    Reference15Key(h);
    RankByDetectors(h);
  }

  lemma Reference16Decoded6()
    ensures ValidTokens(["6d"]) && DecodeAll(["6d"]) == [Card(6, 'd')]
  {
  }

  lemma Reference16Decoded5()
    ensures ValidTokens(["2h", "6d"]) && DecodeAll(["2h", "6d"]) == [Card(2, 'h'), Card(6, 'd')]
  {
    Reference16Decoded6();
  }

  lemma Reference16Decoded4()
    ensures ValidTokens(["5c", "2h", "6d"]) && DecodeAll(["5c", "2h", "6d"]) == [Card(5, 'c'), Card(2, 'h'), Card(6, 'd')]
  {
    Reference16Decoded5();
  }

  lemma Reference16Decoded3()
    ensures ValidTokens(["4c", "5c", "2h", "6d"]) && DecodeAll(["4c", "5c", "2h", "6d"]) == [Card(4, 'c'), Card(5, 'c'), Card(2, 'h'), Card(6, 'd')]
  {
    Reference16Decoded4();
  }

  lemma Reference16Decoded2()
    ensures ValidTokens(["Ah", "4c", "5c", "2h", "6d"]) && DecodeAll(["Ah", "4c", "5c", "2h", "6d"]) == [Card(14, 'h'), Card(4, 'c'), Card(5, 'c'), Card(2, 'h'), Card(6, 'd')]
  {
    Reference16Decoded3();
  }

  lemma Reference16Decoded1()
    ensures ValidTokens(["10d", "Ah", "4c", "5c", "2h", "6d"]) && DecodeAll(["10d", "Ah", "4c", "5c", "2h", "6d"]) == [Card(10, 'd'), Card(14, 'h'), Card(4, 'c'), Card(5, 'c'), Card(2, 'h'), Card(6, 'd')]
  {
    Reference16Decoded2();
  }

  lemma Reference16Decoded()
    ensures ValidTokens(["10s", "10d", "Ah", "4c", "5c", "2h", "6d"]) && DecodeAll(["10s", "10d", "Ah", "4c", "5c", "2h", "6d"]) == [Card(10, 's'), Card(10, 'd'), Card(14, 'h'), Card(4, 'c'), Card(5, 'c'), Card(2, 'h'), Card(6, 'd')]
  {
    Reference16Decoded1();
  }

  lemma Reference16Cards(h: seq<Card>)
    requires Same(h, [Card(10, 's'), Card(10, 'd'), Card(14, 'h'), Card(4, 'c'), Card(5, 'c'), Card(2, 'h'), Card(6, 'd')])
    ensures |h| == 7 && Ranks(h) == [10, 10, 14, 4, 5, 2, 6] && SuitsOf(h) == ['s', 'd', 'h', 'c', 'c', 'h', 'd']
  {
    SameEq(h, [Card(10, 's'), Card(10, 'd'), Card(14, 'h'), Card(4, 'c'), Card(5, 'c'), Card(2, 'h'), Card(6, 'd')]);
    Reference16Fact10();
    Reference16Fact11();
  }

  lemma Reference16Sort6()
    ensures SortByRank([Card(6, 'd')]) == [Card(6, 'd')]
  {
  }

  lemma Reference16Sort5()
    ensures SortByRank([Card(2, 'h'), Card(6, 'd')]) == [Card(6, 'd'), Card(2, 'h')]
  {
    Reference16Sort6();
    SortStep(Card(2, 'h'), [Card(6, 'd')], [Card(6, 'd')], 1, [Card(6, 'd'), Card(2, 'h')]);
    assert [Card(2, 'h'), Card(6, 'd')] == [Card(2, 'h')] + [Card(6, 'd')];
  }

  lemma Reference16Sort4()
    ensures SortByRank([Card(5, 'c'), Card(2, 'h'), Card(6, 'd')]) == [Card(6, 'd'), Card(5, 'c'), Card(2, 'h')]
  {
    Reference16Sort5();
    SortStep(Card(5, 'c'), [Card(2, 'h'), Card(6, 'd')], [Card(6, 'd'), Card(2, 'h')], 1, [Card(6, 'd'), Card(5, 'c'), Card(2, 'h')]);
    assert [Card(5, 'c'), Card(2, 'h'), Card(6, 'd')] == [Card(5, 'c')] + [Card(2, 'h'), Card(6, 'd')];
  }

  lemma Reference16Sort3()
    ensures SortByRank([Card(4, 'c'), Card(5, 'c'), Card(2, 'h'), Card(6, 'd')]) == [Card(6, 'd'), Card(5, 'c'), Card(4, 'c'), Card(2, 'h')]
  {
    Reference16Sort4();
    SortStep(Card(4, 'c'), [Card(5, 'c'), Card(2, 'h'), Card(6, 'd')], [Card(6, 'd'), Card(5, 'c'), Card(2, 'h')], 2, [Card(6, 'd'), Card(5, 'c'), Card(4, 'c'), Card(2, 'h')]);
    assert [Card(4, 'c'), Card(5, 'c'), Card(2, 'h'), Card(6, 'd')] == [Card(4, 'c')] + [Card(5, 'c'), Card(2, 'h'), Card(6, 'd')];
  }

  lemma Reference16Sort2()
    ensures SortByRank([Card(14, 'h'), Card(4, 'c'), Card(5, 'c'), Card(2, 'h'), Card(6, 'd')]) == [Card(14, 'h'), Card(6, 'd'), Card(5, 'c'), Card(4, 'c'), Card(2, 'h')]
  {
    Reference16Sort3();
    SortStep(Card(14, 'h'), [Card(4, 'c'), Card(5, 'c'), Card(2, 'h'), Card(6, 'd')], [Card(6, 'd'), Card(5, 'c'), Card(4, 'c'), Card(2, 'h')], 0, [Card(14, 'h'), Card(6, 'd'), Card(5, 'c'), Card(4, 'c'), Card(2, 'h')]);
    assert [Card(14, 'h'), Card(4, 'c'), Card(5, 'c'), Card(2, 'h'), Card(6, 'd')] == [Card(14, 'h')] + [Card(4, 'c'), Card(5, 'c'), Card(2, 'h'), Card(6, 'd')];
  }

  lemma Reference16Sort1()
    ensures SortByRank([Card(10, 'd'), Card(14, 'h'), Card(4, 'c'), Card(5, 'c'), Card(2, 'h'), Card(6, 'd')]) == [Card(14, 'h'), Card(10, 'd'), Card(6, 'd'), Card(5, 'c'), Card(4, 'c'), Card(2, 'h')]
  {
    Reference16Sort2();
    SortStep(Card(10, 'd'), [Card(14, 'h'), Card(4, 'c'), Card(5, 'c'), Card(2, 'h'), Card(6, 'd')], [Card(14, 'h'), Card(6, 'd'), Card(5, 'c'), Card(4, 'c'), Card(2, 'h')], 1, [Card(14, 'h'), Card(10, 'd'), Card(6, 'd'), Card(5, 'c'), Card(4, 'c'), Card(2, 'h')]);
    assert [Card(10, 'd'), Card(14, 'h'), Card(4, 'c'), Card(5, 'c'), Card(2, 'h'), Card(6, 'd')] == [Card(10, 'd')] + [Card(14, 'h'), Card(4, 'c'), Card(5, 'c'), Card(2, 'h'), Card(6, 'd')];
  }

  lemma Reference16Sort0()
    ensures SortByRank([Card(10, 's'), Card(10, 'd'), Card(14, 'h'), Card(4, 'c'), Card(5, 'c'), Card(2, 'h'), Card(6, 'd')]) == [Card(14, 'h'), Card(10, 's'), Card(10, 'd'), Card(6, 'd'), Card(5, 'c'), Card(4, 'c'), Card(2, 'h')]
  {
    Reference16Sort1();
    SortStep(Card(10, 's'), [Card(10, 'd'), Card(14, 'h'), Card(4, 'c'), Card(5, 'c'), Card(2, 'h'), Card(6, 'd')], [Card(14, 'h'), Card(10, 'd'), Card(6, 'd'), Card(5, 'c'), Card(4, 'c'), Card(2, 'h')], 1, [Card(14, 'h'), Card(10, 's'), Card(10, 'd'), Card(6, 'd'), Card(5, 'c'), Card(4, 'c'), Card(2, 'h')]);
    assert [Card(10, 's'), Card(10, 'd'), Card(14, 'h'), Card(4, 'c'), Card(5, 'c'), Card(2, 'h'), Card(6, 'd')] == [Card(10, 's')] + [Card(10, 'd'), Card(14, 'h'), Card(4, 'c'), Card(5, 'c'), Card(2, 'h'), Card(6, 'd')];
  }

  lemma Reference16Sorted(h: seq<Card>)
    requires Same(h, [Card(10, 's'), Card(10, 'd'), Card(14, 'h'), Card(4, 'c'), Card(5, 'c'), Card(2, 'h'), Card(6, 'd')])
    ensures Same(SortByRank(h), [Card(14, 'h'), Card(10, 's'), Card(10, 'd'), Card(6, 'd'), Card(5, 'c'), Card(4, 'c'), Card(2, 'h')])
  {
    SameEq(h, [Card(10, 's'), Card(10, 'd'), Card(14, 'h'), Card(4, 'c'), Card(5, 'c'), Card(2, 'h'), Card(6, 'd')]);
    Reference16Sort0();
    SameEq(SortByRank(h), [Card(14, 'h'), Card(10, 's'), Card(10, 'd'), Card(6, 'd'), Card(5, 'c'), Card(4, 'c'), Card(2, 'h')]);
  }

  lemma Reference16SortedRanks(h: seq<Card>)
    requires Same(h, [Card(10, 's'), Card(10, 'd'), Card(14, 'h'), Card(4, 'c'), Card(5, 'c'), Card(2, 'h'), Card(6, 'd')])
    ensures Ranks(SortByRank(h)) == [14, 10, 10, 6, 5, 4, 2]
  {
    Reference16Sorted(h);
    SameEq(SortByRank(h), [Card(14, 'h'), Card(10, 's'), Card(10, 'd'), Card(6, 'd'), Card(5, 'c'), Card(4, 'c'), Card(2, 'h')]);
    Reference16Fact12();
  }

  lemma Reference16Fact1()
    ensures forall u :: Occ(['s', 'd', 'h', 'c', 'c', 'h', 'd'], u) < 5
  {
  }

  lemma Reference16Fact2()
    ensures forall r :: Occ([10, 10, 14, 4, 5, 2, 6], r) < 3
  {
  }

  lemma Reference16Fact3()
    ensures forall t :: !TopIn([10, 10, 14, 4, 5, 2, 6], t)
  {
  }

  lemma Reference16Fact4()
    ensures forall a, b :: Occ([10, 10, 14, 4, 5, 2, 6], a) == 2 && Occ([10, 10, 14, 4, 5, 2, 6], b) == 2 ==> a == b
  {
  }

  lemma Reference16Fact5()
    ensures Dedup([14, 10, 10, 6, 5, 4, 2]) == [14, 10, 6, 5, 4, 2]
  {
  }

  lemma Reference16Fact6()
    ensures Occ([14, 10, 10, 6, 5, 4, 2], 10) >= 2
  {
  }

  lemma Reference16Fact7()
    ensures forall j :: 0 <= j < 1 ==> Occ([14, 10, 10, 6, 5, 4, 2], [14, 10, 6, 5, 4, 2][j]) < 2
  {
  }

  lemma Reference16Fact8()
    ensures [10] + Take(Outside([14, 10, 10, 6, 5, 4, 2], [10]), 3) == [10, 14, 6, 5]
  {
  }

  lemma Reference16Fact9()
    ensures KindFacts(2, [14, 10, 10, 6, 5, 4, 2], [14, 10, 6, 5, 4, 2], 1, [10, 14, 6, 5])
  {
    Reference16Fact5();
    Reference16Fact6();
    Reference16Fact7();
    Reference16Fact8();
  }

  lemma Reference16Fact10()
    ensures Ranks([Card(10, 's'), Card(10, 'd'), Card(14, 'h'), Card(4, 'c'), Card(5, 'c'), Card(2, 'h'), Card(6, 'd')]) == [10, 10, 14, 4, 5, 2, 6]
  {
  }

  lemma Reference16Fact11()
    ensures SuitsOf([Card(10, 's'), Card(10, 'd'), Card(14, 'h'), Card(4, 'c'), Card(5, 'c'), Card(2, 'h'), Card(6, 'd')]) == ['s', 'd', 'h', 'c', 'c', 'h', 'd']
  {
  }

  lemma Reference16Fact12()
    ensures Ranks([Card(14, 'h'), Card(10, 's'), Card(10, 'd'), Card(6, 'd'), Card(5, 'c'), Card(4, 'c'), Card(2, 'h')]) == [14, 10, 10, 6, 5, 4, 2]
  {
  }

  lemma Reference16Length(h: seq<Card>)
    requires Same(h, [Card(10, 's'), Card(10, 'd'), Card(14, 'h'), Card(4, 'c'), Card(5, 'c'), Card(2, 'h'), Card(6, 'd')])
    ensures |h| == 7
  {
    SameEq(h, [Card(10, 's'), Card(10, 'd'), Card(14, 'h'), Card(4, 'c'), Card(5, 'c'), Card(2, 'h'), Card(6, 'd')]);
  }

  lemma Reference16Misses(h: seq<Card>)
    requires Same(h, [Card(10, 's'), Card(10, 'd'), Card(14, 'h'), Card(4, 'c'), Card(5, 'c'), Card(2, 'h'), Card(6, 'd')])
    ensures StraightFlush(h) == None && NOfAKind(4, h) == None && FullHouse(h) == None && Flush(h) == None && Straight(h) == None && NOfAKind(3, h) == None && TwoPairs(h) == None
  {
    Reference16Cards(h);
    Reference16Fact1();
    NoSuitOfFive(h, ['s', 'd', 'h', 'c', 'c', 'h', 'd']);
    Reference16Fact2();
    KindNone(4, h, [10, 10, 14, 4, 5, 2, 6], 3);
    Reference16Fact2();
    NoTriple(h, [10, 10, 14, 4, 5, 2, 6], 3);
    Reference16Fact3();
    NoStraight(h, [10, 10, 14, 4, 5, 2, 6]);
    Reference16Fact2();
    KindNone(3, h, [10, 10, 14, 4, 5, 2, 6], 3);
    Reference16Fact4();
    OnePairOnly(h, [10, 10, 14, 4, 5, 2, 6]);
  }

  lemma Reference16Key(h: seq<Card>)
    requires Same(h, [Card(10, 's'), Card(10, 'd'), Card(14, 'h'), Card(4, 'c'), Card(5, 'c'), Card(2, 'h'), Card(6, 'd')])
    ensures NOfAKind(2, h) == Some([10, 14, 6, 5])
  {
    Reference16Fact9();
    Reference16SortedRanks(h);
    KindIs(2, h, [14, 10, 6, 5, 4, 2], 1, [10, 14, 6, 5]);
  }

  /** Reference hand 16 of the ranking test. */
  lemma Reference16(h: seq<Card>)
    requires Same(h, DecodeAll(["10s", "10d", "Ah", "4c", "5c", "2h", "6d"]))
    ensures |h| > 0 && RankHand(h) == Some(HandRank(2, RankList([10, 14, 6, 5])))
  {
    Reference16Decoded();
    Reference16Length(h);
    Reference16Misses(h);
    Reference16Key(h);
    RankByDetectors(h);
  }

  lemma Reference17Decoded6()
    ensures ValidTokens(["6d"]) && DecodeAll(["6d"]) == [Card(6, 'd')]
  {
  }

  lemma Reference17Decoded5()
    ensures ValidTokens(["2h", "6d"]) && DecodeAll(["2h", "6d"]) == [Card(2, 'h'), Card(6, 'd')]
  {
    Reference17Decoded6();
  }

  lemma Reference17Decoded4()
    ensures ValidTokens(["5c", "2h", "6d"]) && DecodeAll(["5c", "2h", "6d"]) == [Card(5, 'c'), Card(2, 'h'), Card(6, 'd')]
  {
    Reference17Decoded5();
  }

  lemma Reference17Decoded3()
    ensures ValidTokens(["3c", "5c", "2h", "6d"]) && DecodeAll(["3c", "5c", "2h", "6d"]) == [Card(3, 'c'), Card(5, 'c'), Card(2, 'h'), Card(6, 'd')]
  {
    Reference17Decoded4();
  }

  lemma Reference17Decoded2()
    ensures ValidTokens(["Kh", "3c", "5c", "2h", "6d"]) && DecodeAll(["Kh", "3c", "5c", "2h", "6d"]) == [Card(13, 'h'), Card(3, 'c'), Card(5, 'c'), Card(2, 'h'), Card(6, 'd')]
  {
    Reference17Decoded3();
  }

  lemma Reference17Decoded1()
    ensures ValidTokens(["10d", "Kh", "3c", "5c", "2h", "6d"]) && DecodeAll(["10d", "Kh", "3c", "5c", "2h", "6d"]) == [Card(10, 'd'), Card(13, 'h'), Card(3, 'c'), Card(5, 'c'), Card(2, 'h'), Card(6, 'd')]
  {
    Reference17Decoded2();
  }

  lemma Reference17Decoded()
    ensures ValidTokens(["10s", "10d", "Kh", "3c", "5c", "2h", "6d"]) && DecodeAll(["10s", "10d", "Kh", "3c", "5c", "2h", "6d"]) == [Card(10, 's'), Card(10, 'd'), Card(13, 'h'), Card(3, 'c'), Card(5, 'c'), Card(2, 'h'), Card(6, 'd')]
  {
    Reference17Decoded1();
  }

  lemma Reference17Cards(h: seq<Card>)
    requires Same(h, [Card(10, 's'), Card(10, 'd'), Card(13, 'h'), Card(3, 'c'), Card(5, 'c'), Card(2, 'h'), Card(6, 'd')])
    ensures |h| == 7 && Ranks(h) == [10, 10, 13, 3, 5, 2, 6] && SuitsOf(h) == ['s', 'd', 'h', 'c', 'c', 'h', 'd']
  {
    SameEq(h, [Card(10, 's'), Card(10, 'd'), Card(13, 'h'), Card(3, 'c'), Card(5, 'c'), Card(2, 'h'), Card(6, 'd')]);
    Reference17Fact10();
    Reference17Fact11();
  }

  lemma Reference17Sort6()
    ensures SortByRank([Card(6, 'd')]) == [Card(6, 'd')]
  {
  }

  lemma Reference17Sort5()
    ensures SortByRank([Card(2, 'h'), Card(6, 'd')]) == [Card(6, 'd'), Card(2, 'h')]
  {
    Reference17Sort6();
    SortStep(Card(2, 'h'), [Card(6, 'd')], [Card(6, 'd')], 1, [Card(6, 'd'), Card(2, 'h')]);
    assert [Card(2, 'h'), Card(6, 'd')] == [Card(2, 'h')] + [Card(6, 'd')];
  }

  lemma Reference17Sort4()
    ensures SortByRank([Card(5, 'c'), Card(2, 'h'), Card(6, 'd')]) == [Card(6, 'd'), Card(5, 'c'), Card(2, 'h')]
  {
    Reference17Sort5();
    SortStep(Card(5, 'c'), [Card(2, 'h'), Card(6, 'd')], [Card(6, 'd'), Card(2, 'h')], 1, [Card(6, 'd'), Card(5, 'c'), Card(2, 'h')]);
    assert [Card(5, 'c'), Card(2, 'h'), Card(6, 'd')] == [Card(5, 'c')] + [Card(2, 'h'), Card(6, 'd')];
  }

  lemma Reference17Sort3()
    ensures SortByRank([Card(3, 'c'), Card(5, 'c'), Card(2, 'h'), Card(6, 'd')]) == [Card(6, 'd'), Card(5, 'c'), Card(3, 'c'), Card(2, 'h')]
  {
    Reference17Sort4();
    SortStep(Card(3, 'c'), [Card(5, 'c'), Card(2, 'h'), Card(6, 'd')], [Card(6, 'd'), Card(5, 'c'), Card(2, 'h')], 2, [Card(6, 'd'), Card(5, 'c'), Card(3, 'c'), Card(2, 'h')]);
    assert [Card(3, 'c'), Card(5, 'c'), Card(2, 'h'), Card(6, 'd')] == [Card(3, 'c')] + [Card(5, 'c'), Card(2, 'h'), Card(6, 'd')];
  }

  lemma Reference17Sort2()
    ensures SortByRank([Card(13, 'h'), Card(3, 'c'), Card(5, 'c'), Card(2, 'h'), Card(6, 'd')]) == [Card(13, 'h'), Card(6, 'd'), Card(5, 'c'), Card(3, 'c'), Card(2, 'h')]
  {
    Reference17Sort3();
    SortStep(Card(13, 'h'), [Card(3, 'c'), Card(5, 'c'), Card(2, 'h'), Card(6, 'd')], [Card(6, 'd'), Card(5, 'c'), Card(3, 'c'), Card(2, 'h')], 0, [Card(13, 'h'), Card(6, 'd'), Card(5, 'c'), Card(3, 'c'), Card(2, 'h')]);
    assert [Card(13, 'h'), Card(3, 'c'), Card(5, 'c'), Card(2, 'h'), Card(6, 'd')] == [Card(13, 'h')] + [Card(3, 'c'), Card(5, 'c'), Card(2, 'h'), Card(6, 'd')];
  }

  lemma Reference17Sort1()
    ensures SortByRank([Card(10, 'd'), Card(13, 'h'), Card(3, 'c'), Card(5, 'c'), Card(2, 'h'), Card(6, 'd')]) == [Card(13, 'h'), Card(10, 'd'), Card(6, 'd'), Card(5, 'c'), Card(3, 'c'), Card(2, 'h')]
  {
    Reference17Sort2();
    SortStep(Card(10, 'd'), [Card(13, 'h'), Card(3, 'c'), Card(5, 'c'), Card(2, 'h'), Card(6, 'd')], [Card(13, 'h'), Card(6, 'd'), Card(5, 'c'), Card(3, 'c'), Card(2, 'h')], 1, [Card(13, 'h'), Card(10, 'd'), Card(6, 'd'), Card(5, 'c'), Card(3, 'c'), Card(2, 'h')]);
    assert [Card(10, 'd'), Card(13, 'h'), Card(3, 'c'), Card(5, 'c'), Card(2, 'h'), Card(6, 'd')] == [Card(10, 'd')] + [Card(13, 'h'), Card(3, 'c'), Card(5, 'c'), Card(2, 'h'), Card(6, 'd')];
  }

  lemma Reference17Sort0()
    ensures SortByRank([Card(10, 's'), Card(10, 'd'), Card(13, 'h'), Card(3, 'c'), Card(5, 'c'), Card(2, 'h'), Card(6, 'd')]) == [Card(13, 'h'), Card(10, 's'), Card(10, 'd'), Card(6, 'd'), Card(5, 'c'), Card(3, 'c'), Card(2, 'h')]
  {
    Reference17Sort1();
    SortStep(Card(10, 's'), [Card(10, 'd'), Card(13, 'h'), Card(3, 'c'), Card(5, 'c'), Card(2, 'h'), Card(6, 'd')], [Card(13, 'h'), Card(10, 'd'), Card(6, 'd'), Card(5, 'c'), Card(3, 'c'), Card(2, 'h')], 1, [Card(13, 'h'), Card(10, 's'), Card(10, 'd'), Card(6, 'd'), Card(5, 'c'), Card(3, 'c'), Card(2, 'h')]);
    assert [Card(10, 's'), Card(10, 'd'), Card(13, 'h'), Card(3, 'c'), Card(5, 'c'), Card(2, 'h'), Card(6, 'd')] == [Card(10, 's')] + [Card(10, 'd'), Card(13, 'h'), Card(3, 'c'), Card(5, 'c'), Card(2, 'h'), Card(6, 'd')];
  }

  lemma Reference17Sorted(h: seq<Card>)
    requires Same(h, [Card(10, 's'), Card(10, 'd'), Card(13, 'h'), Card(3, 'c'), Card(5, 'c'), Card(2, 'h'), Card(6, 'd')])
    ensures Same(SortByRank(h), [Card(13, 'h'), Card(10, 's'), Card(10, 'd'), Card(6, 'd'), Card(5, 'c'), Card(3, 'c'), Card(2, 'h')])
  {
    SameEq(h, [Card(10, 's'), Card(10, 'd'), Card(13, 'h'), Card(3, 'c'), Card(5, 'c'), Card(2, 'h'), Card(6, 'd')]);
    Reference17Sort0();
    SameEq(SortByRank(h), [Card(13, 'h'), Card(10, 's'), Card(10, 'd'), Card(6, 'd'), Card(5, 'c'), Card(3, 'c'), Card(2, 'h')]);
  }

  lemma Reference17SortedRanks(h: seq<Card>)
    requires Same(h, [Card(10, 's'), Card(10, 'd'), Card(13, 'h'), Card(3, 'c'), Card(5, 'c'), Card(2, 'h'), Card(6, 'd')])
    ensures Ranks(SortByRank(h)) == [13, 10, 10, 6, 5, 3, 2]
  {
    Reference17Sorted(h);
    SameEq(SortByRank(h), [Card(13, 'h'), Card(10, 's'), Card(10, 'd'), Card(6, 'd'), Card(5, 'c'), Card(3, 'c'), Card(2, 'h')]);
    Reference17Fact12();
  }

  lemma Reference17Fact1()
    ensures forall u :: Occ(['s', 'd', 'h', 'c', 'c', 'h', 'd'], u) < 5
  {
  }

  lemma Reference17Fact2()
    ensures forall r :: Occ([10, 10, 13, 3, 5, 2, 6], r) < 3
  {
  }

  lemma Reference17Fact3()
    ensures forall t :: !TopIn([10, 10, 13, 3, 5, 2, 6], t)
  {
  }

  lemma Reference17Fact4()
    ensures forall a, b :: Occ([10, 10, 13, 3, 5, 2, 6], a) == 2 && Occ([10, 10, 13, 3, 5, 2, 6], b) == 2 ==> a == b
  {
  }

  lemma Reference17Fact5()
    ensures Dedup([13, 10, 10, 6, 5, 3, 2]) == [13, 10, 6, 5, 3, 2]
  {
  }

  lemma Reference17Fact6()
    ensures Occ([13, 10, 10, 6, 5, 3, 2], 10) >= 2
  {
  }

  lemma Reference17Fact7()
    ensures forall j :: 0 <= j < 1 ==> Occ([13, 10, 10, 6, 5, 3, 2], [13, 10, 6, 5, 3, 2][j]) < 2
  {
  }

  lemma Reference17Fact8()
    ensures [10] + Take(Outside([13, 10, 10, 6, 5, 3, 2], [10]), 3) == [10, 13, 6, 5]
  {
  }

  lemma Reference17Fact9()
    ensures KindFacts(2, [13, 10, 10, 6, 5, 3, 2], [13, 10, 6, 5, 3, 2], 1, [10, 13, 6, 5])
  {
    Reference17Fact5();
    Reference17Fact6();
    Reference17Fact7();
    Reference17Fact8();
  }

  lemma Reference17Fact10()
    ensures Ranks([Card(10, 's'), Card(10, 'd'), Card(13, 'h'), Card(3, 'c'), Card(5, 'c'), Card(2, 'h'), Card(6, 'd')]) == [10, 10, 13, 3, 5, 2, 6]
  {
  }

  lemma Reference17Fact11()
    ensures SuitsOf([Card(10, 's'), Card(10, 'd'), Card(13, 'h'), Card(3, 'c'), Card(5, 'c'), Card(2, 'h'), Card(6, 'd')]) == ['s', 'd', 'h', 'c', 'c', 'h', 'd']
  {
  }

  lemma Reference17Fact12()
    ensures Ranks([Card(13, 'h'), Card(10, 's'), Card(10, 'd'), Card(6, 'd'), Card(5, 'c'), Card(3, 'c'), Card(2, 'h')]) == [13, 10, 10, 6, 5, 3, 2]
  {
  }

  lemma Reference17Length(h: seq<Card>)
    requires Same(h, [Card(10, 's'), Card(10, 'd'), Card(13, 'h'), Card(3, 'c'), Card(5, 'c'), Card(2, 'h'), Card(6, 'd')])
    ensures |h| == 7
  {
    SameEq(h, [Card(10, 's'), Card(10, 'd'), Card(13, 'h'), Card(3, 'c'), Card(5, 'c'), Card(2, 'h'), Card(6, 'd')]);
  }

  lemma Reference17Misses(h: seq<Card>)
    requires Same(h, [Card(10, 's'), Card(10, 'd'), Card(13, 'h'), Card(3, 'c'), Card(5, 'c'), Card(2, 'h'), Card(6, 'd')])
    ensures StraightFlush(h) == None && NOfAKind(4, h) == None && FullHouse(h) == None && Flush(h) == None && Straight(h) == None && NOfAKind(3, h) == None && TwoPairs(h) == None
  {
    Reference17Cards(h);
    Reference17Fact1();
    NoSuitOfFive(h, ['s', 'd', 'h', 'c', 'c', 'h', 'd']);
    Reference17Fact2();
    KindNone(4, h, [10, 10, 13, 3, 5, 2, 6], 3);
    Reference17Fact2();
    NoTriple(h, [10, 10, 13, 3, 5, 2, 6], 3);
    Reference17Fact3();
    NoStraight(h, [10, 10, 13, 3, 5, 2, 6]);
    Reference17Fact2();
    KindNone(3, h, [10, 10, 13, 3, 5, 2, 6], 3);
    Reference17Fact4();
    OnePairOnly(h, [10, 10, 13, 3, 5, 2, 6]);
  }

  lemma Reference17Key(h: seq<Card>)
    requires Same(h, [Card(10, 's'), Card(10, 'd'), Card(13, 'h'), Card(3, 'c'), Card(5, 'c'), Card(2, 'h'), Card(6, 'd')])
    ensures NOfAKind(2, h) == Some([10, 13, 6, 5])
  {
    Reference17Fact9();
    Reference17SortedRanks(h);
    KindIs(2, h, [13, 10, 6, 5, 3, 2], 1, [10, 13, 6, 5]);
  }

  /** Reference hand 17 of the ranking test. */
  lemma Reference17(h: seq<Card>)
    requires Same(h, DecodeAll(["10s", "10d", "Kh", "3c", "5c", "2h", "6d"]))
    ensures |h| > 0 && RankHand(h) == Some(HandRank(2, RankList([10, 13, 6, 5])))
  {
    Reference17Decoded();
    Reference17Length(h);
    Reference17Misses(h);
    Reference17Key(h);
    RankByDetectors(h);
  }

  lemma Reference18Decoded6()
    ensures ValidTokens(["6d"]) && DecodeAll(["6d"]) == [Card(6, 'd')]
  {
  }

  lemma Reference18Decoded5()
    ensures ValidTokens(["2h", "6d"]) && DecodeAll(["2h", "6d"]) == [Card(2, 'h'), Card(6, 'd')]
  {
    Reference18Decoded6();
  }

  lemma Reference18Decoded4()
    ensures ValidTokens(["5c", "2h", "6d"]) && DecodeAll(["5c", "2h", "6d"]) == [Card(5, 'c'), Card(2, 'h'), Card(6, 'd')]
  {
    Reference18Decoded5();
  }

  lemma Reference18Decoded3()
    ensures ValidTokens(["3c", "5c", "2h", "6d"]) && DecodeAll(["3c", "5c", "2h", "6d"]) == [Card(3, 'c'), Card(5, 'c'), Card(2, 'h'), Card(6, 'd')]
  {
    Reference18Decoded4();
  }

  lemma Reference18Decoded2()
    ensures ValidTokens(["Ah", "3c", "5c", "2h", "6d"]) && DecodeAll(["Ah", "3c", "5c", "2h", "6d"]) == [Card(14, 'h'), Card(3, 'c'), Card(5, 'c'), Card(2, 'h'), Card(6, 'd')]
  {
    Reference18Decoded3();
  }

  lemma Reference18Decoded1()
    ensures ValidTokens(["10d", "Ah", "3c", "5c", "2h", "6d"]) && DecodeAll(["10d", "Ah", "3c", "5c", "2h", "6d"]) == [Card(10, 'd'), Card(14, 'h'), Card(3, 'c'), Card(5, 'c'), Card(2, 'h'), Card(6, 'd')]
  {
    Reference18Decoded2();
  }

  lemma Reference18Decoded()
    ensures ValidTokens(["Qs", "10d", "Ah", "3c", "5c", "2h", "6d"]) && DecodeAll(["Qs", "10d", "Ah", "3c", "5c", "2h", "6d"]) == [Card(12, 's'), Card(10, 'd'), Card(14, 'h'), Card(3, 'c'), Card(5, 'c'), Card(2, 'h'), Card(6, 'd')]
  {
    Reference18Decoded1();
  }

  lemma Reference18Cards(h: seq<Card>)
    requires Same(h, [Card(12, 's'), Card(10, 'd'), Card(14, 'h'), Card(3, 'c'), Card(5, 'c'), Card(2, 'h'), Card(6, 'd')])
    ensures |h| == 7 && Ranks(h) == [12, 10, 14, 3, 5, 2, 6] && SuitsOf(h) == ['s', 'd', 'h', 'c', 'c', 'h', 'd']
  {
    SameEq(h, [Card(12, 's'), Card(10, 'd'), Card(14, 'h'), Card(3, 'c'), Card(5, 'c'), Card(2, 'h'), Card(6, 'd')]);
    Reference18Fact5();
    Reference18Fact6();
  }

  lemma Reference18Sort6()
    ensures SortByRank([Card(6, 'd')]) == [Card(6, 'd')]
  {
  }

  lemma Reference18Sort5()
    ensures SortByRank([Card(2, 'h'), Card(6, 'd')]) == [Card(6, 'd'), Card(2, 'h')]
  {
    Reference18Sort6();
    SortStep(Card(2, 'h'), [Card(6, 'd')], [Card(6, 'd')], 1, [Card(6, 'd'), Card(2, 'h')]);
    assert [Card(2, 'h'), Card(6, 'd')] == [Card(2, 'h')] + [Card(6, 'd')];
  }

  lemma Reference18Sort4()
    ensures SortByRank([Card(5, 'c'), Card(2, 'h'), Card(6, 'd')]) == [Card(6, 'd'), Card(5, 'c'), Card(2, 'h')]
  {
    Reference18Sort5();
    SortStep(Card(5, 'c'), [Card(2, 'h'), Card(6, 'd')], [Card(6, 'd'), Card(2, 'h')], 1, [Card(6, 'd'), Card(5, 'c'), Card(2, 'h')]);
    assert [Card(5, 'c'), Card(2, 'h'), Card(6, 'd')] == [Card(5, 'c')] + [Card(2, 'h'), Card(6, 'd')];
  }

  lemma Reference18Sort3()
    ensures SortByRank([Card(3, 'c'), Card(5, 'c'), Card(2, 'h'), Card(6, 'd')]) == [Card(6, 'd'), Card(5, 'c'), Card(3, 'c'), Card(2, 'h')]
  {
    Reference18Sort4();
    SortStep(Card(3, 'c'), [Card(5, 'c'), Card(2, 'h'), Card(6, 'd')], [Card(6, 'd'), Card(5, 'c'), Card(2, 'h')], 2, [Card(6, 'd'), Card(5, 'c'), Card(3, 'c'), Card(2, 'h')]);
    assert [Card(3, 'c'), Card(5, 'c'), Card(2, 'h'), Card(6, 'd')] == [Card(3, 'c')] + [Card(5, 'c'), Card(2, 'h'), Card(6, 'd')];
  }

  lemma Reference18Sort2()
    ensures SortByRank([Card(14, 'h'), Card(3, 'c'), Card(5, 'c'), Card(2, 'h'), Card(6, 'd')]) == [Card(14, 'h'), Card(6, 'd'), Card(5, 'c'), Card(3, 'c'), Card(2, 'h')]
  {
    Reference18Sort3();
    SortStep(Card(14, 'h'), [Card(3, 'c'), Card(5, 'c'), Card(2, 'h'), Card(6, 'd')], [Card(6, 'd'), Card(5, 'c'), Card(3, 'c'), Card(2, 'h')], 0, [Card(14, 'h'), Card(6, 'd'), Card(5, 'c'), Card(3, 'c'), Card(2, 'h')]);
    assert [Card(14, 'h'), Card(3, 'c'), Card(5, 'c'), Card(2, 'h'), Card(6, 'd')] == [Card(14, 'h')] + [Card(3, 'c'), Card(5, 'c'), Card(2, 'h'), Card(6, 'd')];
  }

  lemma Reference18Sort1()
    ensures SortByRank([Card(10, 'd'), Card(14, 'h'), Card(3, 'c'), Card(5, 'c'), Card(2, 'h'), Card(6, 'd')]) == [Card(14, 'h'), Card(10, 'd'), Card(6, 'd'), Card(5, 'c'), Card(3, 'c'), Card(2, 'h')]
  {
    Reference18Sort2();
    SortStep(Card(10, 'd'), [Card(14, 'h'), Card(3, 'c'), Card(5, 'c'), Card(2, 'h'), Card(6, 'd')], [Card(14, 'h'), Card(6, 'd'), Card(5, 'c'), Card(3, 'c'), Card(2, 'h')], 1, [Card(14, 'h'), Card(10, 'd'), Card(6, 'd'), Card(5, 'c'), Card(3, 'c'), Card(2, 'h')]);
    assert [Card(10, 'd'), Card(14, 'h'), Card(3, 'c'), Card(5, 'c'), Card(2, 'h'), Card(6, 'd')] == [Card(10, 'd')] + [Card(14, 'h'), Card(3, 'c'), Card(5, 'c'), Card(2, 'h'), Card(6, 'd')];
  }

  lemma Reference18Sort0()
    ensures SortByRank([Card(12, 's'), Card(10, 'd'), Card(14, 'h'), Card(3, 'c'), Card(5, 'c'), Card(2, 'h'), Card(6, 'd')]) == [Card(14, 'h'), Card(12, 's'), Card(10, 'd'), Card(6, 'd'), Card(5, 'c'), Card(3, 'c'), Card(2, 'h')]
  {
    Reference18Sort1();
    SortStep(Card(12, 's'), [Card(10, 'd'), Card(14, 'h'), Card(3, 'c'), Card(5, 'c'), Card(2, 'h'), Card(6, 'd')], [Card(14, 'h'), Card(10, 'd'), Card(6, 'd'), Card(5, 'c'), Card(3, 'c'), Card(2, 'h')], 1, [Card(14, 'h'), Card(12, 's'), Card(10, 'd'), Card(6, 'd'), Card(5, 'c'), Card(3, 'c'), Card(2, 'h')]);
    assert [Card(12, 's'), Card(10, 'd'), Card(14, 'h'), Card(3, 'c'), Card(5, 'c'), Card(2, 'h'), Card(6, 'd')] == [Card(12, 's')] + [Card(10, 'd'), Card(14, 'h'), Card(3, 'c'), Card(5, 'c'), Card(2, 'h'), Card(6, 'd')];
  }

  lemma Reference18Sorted(h: seq<Card>)
    requires Same(h, [Card(12, 's'), Card(10, 'd'), Card(14, 'h'), Card(3, 'c'), Card(5, 'c'), Card(2, 'h'), Card(6, 'd')])
    ensures Same(SortByRank(h), [Card(14, 'h'), Card(12, 's'), Card(10, 'd'), Card(6, 'd'), Card(5, 'c'), Card(3, 'c'), Card(2, 'h')])
  {
    SameEq(h, [Card(12, 's'), Card(10, 'd'), Card(14, 'h'), Card(3, 'c'), Card(5, 'c'), Card(2, 'h'), Card(6, 'd')]);
    Reference18Sort0();
    SameEq(SortByRank(h), [Card(14, 'h'), Card(12, 's'), Card(10, 'd'), Card(6, 'd'), Card(5, 'c'), Card(3, 'c'), Card(2, 'h')]);
  }

  lemma Reference18SortedRanks(h: seq<Card>)
    requires Same(h, [Card(12, 's'), Card(10, 'd'), Card(14, 'h'), Card(3, 'c'), Card(5, 'c'), Card(2, 'h'), Card(6, 'd')])
    ensures Ranks(SortByRank(h)) == [14, 12, 10, 6, 5, 3, 2]
  {
    Reference18Sorted(h);
    SameEq(SortByRank(h), [Card(14, 'h'), Card(12, 's'), Card(10, 'd'), Card(6, 'd'), Card(5, 'c'), Card(3, 'c'), Card(2, 'h')]);
    Reference18Fact7();
  }

  lemma Reference18Fact1()
    ensures forall u :: Occ(['s', 'd', 'h', 'c', 'c', 'h', 'd'], u) < 5
  {
  }

  lemma Reference18Fact2()
    ensures forall r :: Occ([12, 10, 14, 3, 5, 2, 6], r) < 2
  {
  }

  lemma Reference18Fact3()
    ensures forall t :: !TopIn([12, 10, 14, 3, 5, 2, 6], t)
  {
  }

  lemma Reference18Fact4()
    ensures Take([14, 12, 10, 6, 5, 3, 2], 5) == [14, 12, 10, 6, 5]
  {
  }

  lemma Reference18Fact5()
    ensures Ranks([Card(12, 's'), Card(10, 'd'), Card(14, 'h'), Card(3, 'c'), Card(5, 'c'), Card(2, 'h'), Card(6, 'd')]) == [12, 10, 14, 3, 5, 2, 6]
  {
  }

  lemma Reference18Fact6()
    ensures SuitsOf([Card(12, 's'), Card(10, 'd'), Card(14, 'h'), Card(3, 'c'), Card(5, 'c'), Card(2, 'h'), Card(6, 'd')]) == ['s', 'd', 'h', 'c', 'c', 'h', 'd']
  {
  }

  lemma Reference18Fact7()
    ensures Ranks([Card(14, 'h'), Card(12, 's'), Card(10, 'd'), Card(6, 'd'), Card(5, 'c'), Card(3, 'c'), Card(2, 'h')]) == [14, 12, 10, 6, 5, 3, 2]
  {
  }

  lemma Reference18Length(h: seq<Card>)
    requires Same(h, [Card(12, 's'), Card(10, 'd'), Card(14, 'h'), Card(3, 'c'), Card(5, 'c'), Card(2, 'h'), Card(6, 'd')])
    ensures |h| == 7
  {
    SameEq(h, [Card(12, 's'), Card(10, 'd'), Card(14, 'h'), Card(3, 'c'), Card(5, 'c'), Card(2, 'h'), Card(6, 'd')]);
  }

  lemma Reference18Misses(h: seq<Card>)
    requires Same(h, [Card(12, 's'), Card(10, 'd'), Card(14, 'h'), Card(3, 'c'), Card(5, 'c'), Card(2, 'h'), Card(6, 'd')])
    ensures StraightFlush(h) == None && NOfAKind(4, h) == None && FullHouse(h) == None && Flush(h) == None && Straight(h) == None && NOfAKind(3, h) == None && TwoPairs(h) == None && NOfAKind(2, h) == None
  {
    Reference18Cards(h);
    Reference18Fact1();
    NoSuitOfFive(h, ['s', 'd', 'h', 'c', 'c', 'h', 'd']);
    Reference18Fact2();
    KindNone(4, h, [12, 10, 14, 3, 5, 2, 6], 2);
    Reference18Fact2();
    NoTriple(h, [12, 10, 14, 3, 5, 2, 6], 2);
    Reference18Fact3();
    NoStraight(h, [12, 10, 14, 3, 5, 2, 6]);
    Reference18Fact2();
    KindNone(3, h, [12, 10, 14, 3, 5, 2, 6], 2);
    Reference18Fact2();
    NoPair(h, [12, 10, 14, 3, 5, 2, 6], 2);
    Reference18Fact2();
    KindNone(2, h, [12, 10, 14, 3, 5, 2, 6], 2);
  }

  lemma Reference18Key(h: seq<Card>)
    requires Same(h, [Card(12, 's'), Card(10, 'd'), Card(14, 'h'), Card(3, 'c'), Card(5, 'c'), Card(2, 'h'), Card(6, 'd')])
    ensures HighCard(h) == [14, 12, 10, 6, 5]
  {
    Reference18Fact4();
    Reference18SortedRanks(h);
    HighCardIs(h, [14, 12, 10, 6, 5, 3, 2]);
  }

  /** Reference hand 18 of the ranking test. */
  lemma Reference18(h: seq<Card>)
    requires Same(h, DecodeAll(["Qs", "10d", "Ah", "3c", "5c", "2h", "6d"]))
    ensures |h| > 0 && RankHand(h) == Some(HandRank(1, RankList([14, 12, 10, 6, 5])))
  {
    Reference18Decoded();
    Reference18Length(h);
    Reference18Misses(h);
    Reference18Key(h);
    RankByDetectors(h);
  }

  lemma Reference19Decoded6()
    ensures ValidTokens(["6d"]) && DecodeAll(["6d"]) == [Card(6, 'd')]
  {
  }

  lemma Reference19Decoded5()
    ensures ValidTokens(["2h", "6d"]) && DecodeAll(["2h", "6d"]) == [Card(2, 'h'), Card(6, 'd')]
  {
    Reference19Decoded6();
  }

  lemma Reference19Decoded4()
    ensures ValidTokens(["5c", "2h", "6d"]) && DecodeAll(["5c", "2h", "6d"]) == [Card(5, 'c'), Card(2, 'h'), Card(6, 'd')]
  {
    Reference19Decoded5();
  }

  lemma Reference19Decoded3()
    ensures ValidTokens(["3c", "5c", "2h", "6d"]) && DecodeAll(["3c", "5c", "2h", "6d"]) == [Card(3, 'c'), Card(5, 'c'), Card(2, 'h'), Card(6, 'd')]
  {
    Reference19Decoded4();
  }

  lemma Reference19Decoded2()
    ensures ValidTokens(["Kh", "3c", "5c", "2h", "6d"]) && DecodeAll(["Kh", "3c", "5c", "2h", "6d"]) == [Card(13, 'h'), Card(3, 'c'), Card(5, 'c'), Card(2, 'h'), Card(6, 'd')]
  {
    Reference19Decoded3();
  }

  lemma Reference19Decoded1()
    ensures ValidTokens(["10d", "Kh", "3c", "5c", "2h", "6d"]) && DecodeAll(["10d", "Kh", "3c", "5c", "2h", "6d"]) == [Card(10, 'd'), Card(13, 'h'), Card(3, 'c'), Card(5, 'c'), Card(2, 'h'), Card(6, 'd')]
  {
    Reference19Decoded2();
  }

  lemma Reference19Decoded()
    ensures ValidTokens(["Qs", "10d", "Kh", "3c", "5c", "2h", "6d"]) && DecodeAll(["Qs", "10d", "Kh", "3c", "5c", "2h", "6d"]) == [Card(12, 's'), Card(10, 'd'), Card(13, 'h'), Card(3, 'c'), Card(5, 'c'), Card(2, 'h'), Card(6, 'd')]
  {
    Reference19Decoded1();
  }

  lemma Reference19Cards(h: seq<Card>)
    requires Same(h, [Card(12, 's'), Card(10, 'd'), Card(13, 'h'), Card(3, 'c'), Card(5, 'c'), Card(2, 'h'), Card(6, 'd')])
    ensures |h| == 7 && Ranks(h) == [12, 10, 13, 3, 5, 2, 6] && SuitsOf(h) == ['s', 'd', 'h', 'c', 'c', 'h', 'd']
  {
    SameEq(h, [Card(12, 's'), Card(10, 'd'), Card(13, 'h'), Card(3, 'c'), Card(5, 'c'), Card(2, 'h'), Card(6, 'd')]);
    Reference19Fact5();
    Reference19Fact6();
  }

  lemma Reference19Sort6()
    ensures SortByRank([Card(6, 'd')]) == [Card(6, 'd')]
  {
  }

  lemma Reference19Sort5()
    ensures SortByRank([Card(2, 'h'), Card(6, 'd')]) == [Card(6, 'd'), Card(2, 'h')]
  {
    Reference19Sort6();
    SortStep(Card(2, 'h'), [Card(6, 'd')], [Card(6, 'd')], 1, [Card(6, 'd'), Card(2, 'h')]);
    assert [Card(2, 'h'), Card(6, 'd')] == [Card(2, 'h')] + [Card(6, 'd')];
  }

  lemma Reference19Sort4()
    ensures SortByRank([Card(5, 'c'), Card(2, 'h'), Card(6, 'd')]) == [Card(6, 'd'), Card(5, 'c'), Card(2, 'h')]
  {
    Reference19Sort5();
    SortStep(Card(5, 'c'), [Card(2, 'h'), Card(6, 'd')], [Card(6, 'd'), Card(2, 'h')], 1, [Card(6, 'd'), Card(5, 'c'), Card(2, 'h')]);
    assert [Card(5, 'c'), Card(2, 'h'), Card(6, 'd')] == [Card(5, 'c')] + [Card(2, 'h'), Card(6, 'd')];
  }

  lemma Reference19Sort3()
    ensures SortByRank([Card(3, 'c'), Card(5, 'c'), Card(2, 'h'), Card(6, 'd')]) == [Card(6, 'd'), Card(5, 'c'), Card(3, 'c'), Card(2, 'h')]
  {
    Reference19Sort4();
    SortStep(Card(3, 'c'), [Card(5, 'c'), Card(2, 'h'), Card(6, 'd')], [Card(6, 'd'), Card(5, 'c'), Card(2, 'h')], 2, [Card(6, 'd'), Card(5, 'c'), Card(3, 'c'), Card(2, 'h')]);
    assert [Card(3, 'c'), Card(5, 'c'), Card(2, 'h'), Card(6, 'd')] == [Card(3, 'c')] + [Card(5, 'c'), Card(2, 'h'), Card(6, 'd')];
  }

  lemma Reference19Sort2()
    ensures SortByRank([Card(13, 'h'), Card(3, 'c'), Card(5, 'c'), Card(2, 'h'), Card(6, 'd')]) == [Card(13, 'h'), Card(6, 'd'), Card(5, 'c'), Card(3, 'c'), Card(2, 'h')]
  {
    Reference19Sort3();
    SortStep(Card(13, 'h'), [Card(3, 'c'), Card(5, 'c'), Card(2, 'h'), Card(6, 'd')], [Card(6, 'd'), Card(5, 'c'), Card(3, 'c'), Card(2, 'h')], 0, [Card(13, 'h'), Card(6, 'd'), Card(5, 'c'), Card(3, 'c'), Card(2, 'h')]);
    assert [Card(13, 'h'), Card(3, 'c'), Card(5, 'c'), Card(2, 'h'), Card(6, 'd')] == [Card(13, 'h')] + [Card(3, 'c'), Card(5, 'c'), Card(2, 'h'), Card(6, 'd')];
  }

  lemma Reference19Sort1()
    ensures SortByRank([Card(10, 'd'), Card(13, 'h'), Card(3, 'c'), Card(5, 'c'), Card(2, 'h'), Card(6, 'd')]) == [Card(13, 'h'), Card(10, 'd'), Card(6, 'd'), Card(5, 'c'), Card(3, 'c'), Card(2, 'h')]
  {
    Reference19Sort2();
    SortStep(Card(10, 'd'), [Card(13, 'h'), Card(3, 'c'), Card(5, 'c'), Card(2, 'h'), Card(6, 'd')], [Card(13, 'h'), Card(6, 'd'), Card(5, 'c'), Card(3, 'c'), Card(2, 'h')], 1, [Card(13, 'h'), Card(10, 'd'), Card(6, 'd'), Card(5, 'c'), Card(3, 'c'), Card(2, 'h')]);
    assert [Card(10, 'd'), Card(13, 'h'), Card(3, 'c'), Card(5, 'c'), Card(2, 'h'), Card(6, 'd')] == [Card(10, 'd')] + [Card(13, 'h'), Card(3, 'c'), Card(5, 'c'), Card(2, 'h'), Card(6, 'd')];
  }

  lemma Reference19Sort0()
    ensures SortByRank([Card(12, 's'), Card(10, 'd'), Card(13, 'h'), Card(3, 'c'), Card(5, 'c'), Card(2, 'h'), Card(6, 'd')]) == [Card(13, 'h'), Card(12, 's'), Card(10, 'd'), Card(6, 'd'), Card(5, 'c'), Card(3, 'c'), Card(2, 'h')]
  {
    Reference19Sort1();
    SortStep(Card(12, 's'), [Card(10, 'd'), Card(13, 'h'), Card(3, 'c'), Card(5, 'c'), Card(2, 'h'), Card(6, 'd')], [Card(13, 'h'), Card(10, 'd'), Card(6, 'd'), Card(5, 'c'), Card(3, 'c'), Card(2, 'h')], 1, [Card(13, 'h'), Card(12, 's'), Card(10, 'd'), Card(6, 'd'), Card(5, 'c'), Card(3, 'c'), Card(2, 'h')]);
    assert [Card(12, 's'), Card(10, 'd'), Card(13, 'h'), Card(3, 'c'), Card(5, 'c'), Card(2, 'h'), Card(6, 'd')] == [Card(12, 's')] + [Card(10, 'd'), Card(13, 'h'), Card(3, 'c'), Card(5, 'c'), Card(2, 'h'), Card(6, 'd')];
  }

  lemma Reference19Sorted(h: seq<Card>)
    requires Same(h, [Card(12, 's'), Card(10, 'd'), Card(13, 'h'), Card(3, 'c'), Card(5, 'c'), Card(2, 'h'), Card(6, 'd')])
    ensures Same(SortByRank(h), [Card(13, 'h'), Card(12, 's'), Card(10, 'd'), Card(6, 'd'), Card(5, 'c'), Card(3, 'c'), Card(2, 'h')])
  {
    SameEq(h, [Card(12, 's'), Card(10, 'd'), Card(13, 'h'), Card(3, 'c'), Card(5, 'c'), Card(2, 'h'), Card(6, 'd')]);
    Reference19Sort0();
    SameEq(SortByRank(h), [Card(13, 'h'), Card(12, 's'), Card(10, 'd'), Card(6, 'd'), Card(5, 'c'), Card(3, 'c'), Card(2, 'h')]);
  }

  lemma Reference19SortedRanks(h: seq<Card>)
    requires Same(h, [Card(12, 's'), Card(10, 'd'), Card(13, 'h'), Card(3, 'c'), Card(5, 'c'), Card(2, 'h'), Card(6, 'd')])
    ensures Ranks(SortByRank(h)) == [13, 12, 10, 6, 5, 3, 2]
  {
    Reference19Sorted(h);
    SameEq(SortByRank(h), [Card(13, 'h'), Card(12, 's'), Card(10, 'd'), Card(6, 'd'), Card(5, 'c'), Card(3, 'c'), Card(2, 'h')]);
    Reference19Fact7();
  }

  lemma Reference19Fact1()
    ensures forall u :: Occ(['s', 'd', 'h', 'c', 'c', 'h', 'd'], u) < 5
  {
  }

  lemma Reference19Fact2()
    ensures forall r :: Occ([12, 10, 13, 3, 5, 2, 6], r) < 2
  {
  }

  lemma Reference19Fact3()
    ensures forall t :: !TopIn([12, 10, 13, 3, 5, 2, 6], t)
  {
  }

  lemma Reference19Fact4()
    ensures Take([13, 12, 10, 6, 5, 3, 2], 5) == [13, 12, 10, 6, 5]
  {
  }

  lemma Reference19Fact5()
    ensures Ranks([Card(12, 's'), Card(10, 'd'), Card(13, 'h'), Card(3, 'c'), Card(5, 'c'), Card(2, 'h'), Card(6, 'd')]) == [12, 10, 13, 3, 5, 2, 6]
  {
  }

  lemma Reference19Fact6()
    ensures SuitsOf([Card(12, 's'), Card(10, 'd'), Card(13, 'h'), Card(3, 'c'), Card(5, 'c'), Card(2, 'h'), Card(6, 'd')]) == ['s', 'd', 'h', 'c', 'c', 'h', 'd']
  {
  }

  lemma Reference19Fact7()
    ensures Ranks([Card(13, 'h'), Card(12, 's'), Card(10, 'd'), Card(6, 'd'), Card(5, 'c'), Card(3, 'c'), Card(2, 'h')]) == [13, 12, 10, 6, 5, 3, 2]
  {
  }

  lemma Reference19Length(h: seq<Card>)
    requires Same(h, [Card(12, 's'), Card(10, 'd'), Card(13, 'h'), Card(3, 'c'), Card(5, 'c'), Card(2, 'h'), Card(6, 'd')])
    ensures |h| == 7
  {
    SameEq(h, [Card(12, 's'), Card(10, 'd'), Card(13, 'h'), Card(3, 'c'), Card(5, 'c'), Card(2, 'h'), Card(6, 'd')]);
  }

  lemma Reference19Misses(h: seq<Card>)
    requires Same(h, [Card(12, 's'), Card(10, 'd'), Card(13, 'h'), Card(3, 'c'), Card(5, 'c'), Card(2, 'h'), Card(6, 'd')])
    ensures StraightFlush(h) == None && NOfAKind(4, h) == None && FullHouse(h) == None && Flush(h) == None && Straight(h) == None && NOfAKind(3, h) == None && TwoPairs(h) == None && NOfAKind(2, h) == None
  {
    Reference19Cards(h);
    Reference19Fact1();
    NoSuitOfFive(h, ['s', 'd', 'h', 'c', 'c', 'h', 'd']);
    Reference19Fact2();
    KindNone(4, h, [12, 10, 13, 3, 5, 2, 6], 2);
    Reference19Fact2();
    NoTriple(h, [12, 10, 13, 3, 5, 2, 6], 2);
    Reference19Fact3();
    NoStraight(h, [12, 10, 13, 3, 5, 2, 6]);
    Reference19Fact2();
    KindNone(3, h, [12, 10, 13, 3, 5, 2, 6], 2);
    Reference19Fact2();
    NoPair(h, [12, 10, 13, 3, 5, 2, 6], 2);
    Reference19Fact2();
    KindNone(2, h, [12, 10, 13, 3, 5, 2, 6], 2);
  }

  lemma Reference19Key(h: seq<Card>)
    requires Same(h, [Card(12, 's'), Card(10, 'd'), Card(13, 'h'), Card(3, 'c'), Card(5, 'c'), Card(2, 'h'), Card(6, 'd')])
    ensures HighCard(h) == [13, 12, 10, 6, 5]
  {
    Reference19Fact4();
    Reference19SortedRanks(h);
    HighCardIs(h, [13, 12, 10, 6, 5, 3, 2]);
  }

  /** Reference hand 19 of the ranking test. */
  lemma Reference19(h: seq<Card>)
    requires Same(h, DecodeAll(["Qs", "10d", "Kh", "3c", "5c", "2h", "6d"]))
    ensures |h| > 0 && RankHand(h) == Some(HandRank(1, RankList([13, 12, 10, 6, 5])))
  {
    Reference19Decoded();
    Reference19Length(h);
    Reference19Misses(h);
    Reference19Key(h);
    RankByDetectors(h);
  }

  // The ranking test, ranking.py:273-312.

  /** What rank_function returns for the card sets of the ranking test, listed from
      the strongest down (Reference1 to Reference19). */
  const ReferenceRanks: seq<HandRank> := [
    HandRank(9, HighRank(14)),
    HandRank(9, HighRank(13)),
    HandRank(8, RankList([10, 14])),
    HandRank(8, RankList([10, 13])),
    HandRank(7, RankList([14, 13])),
    HandRank(7, RankList([3, 13])),
    HandRank(6, RankList([13, 10, 7, 4, 3])),
    HandRank(6, RankList([12, 10, 7, 4, 3])),
    HandRank(5, HighRank(7)),
    HandRank(5, HighRank(5)),
    HandRank(4, RankList([10, 14, 13])),
    HandRank(4, RankList([10, 14, 12])),
    HandRank(3, RankList([10, 4, 13])),
    HandRank(3, RankList([10, 3, 14])),
    HandRank(3, RankList([10, 3, 6])),
    HandRank(2, RankList([10, 14, 6, 5])),
    HandRank(2, RankList([10, 13, 6, 5])),
    HandRank(1, RankList([14, 12, 10, 6, 5])),
    HandRank(1, RankList([13, 12, 10, 6, 5]))
  ]

  lemma ReferenceGreater1()
    ensures Greater(HandRank(9, HighRank(14)), HandRank(9, HighRank(13)))
  {
  }

  lemma ReferenceGreater2()
    ensures Greater(HandRank(9, HighRank(13)), HandRank(8, RankList([10, 14])))
  {
  }

  lemma ReferenceGreater3()
    ensures Greater(HandRank(8, RankList([10, 14])), HandRank(8, RankList([10, 13])))
  {
  }

  lemma ReferenceGreater4()
    ensures Greater(HandRank(8, RankList([10, 13])), HandRank(7, RankList([14, 13])))
  {
  }

  lemma ReferenceGreater5()
    ensures Greater(HandRank(7, RankList([14, 13])), HandRank(7, RankList([3, 13])))
  {
  }

  lemma ReferenceGreater6()
    ensures Greater(HandRank(7, RankList([3, 13])), HandRank(6, RankList([13, 10, 7, 4, 3])))
  {
  }

  lemma ReferenceGreater7()
    ensures Greater(HandRank(6, RankList([13, 10, 7, 4, 3])), HandRank(6, RankList([12, 10, 7, 4, 3])))
  {
  }

  lemma ReferenceGreater8()
    ensures Greater(HandRank(6, RankList([12, 10, 7, 4, 3])), HandRank(5, HighRank(7)))
  {
  }

  lemma ReferenceGreater9()
    ensures Greater(HandRank(5, HighRank(7)), HandRank(5, HighRank(5)))
  {
  }

  lemma ReferenceGreater10()
    ensures Greater(HandRank(5, HighRank(5)), HandRank(4, RankList([10, 14, 13])))
  {
  }

  lemma ReferenceGreater11()
    ensures Greater(HandRank(4, RankList([10, 14, 13])), HandRank(4, RankList([10, 14, 12])))
  {
  }

  lemma ReferenceGreater12()
    ensures Greater(HandRank(4, RankList([10, 14, 12])), HandRank(3, RankList([10, 4, 13])))
  {
  }

  lemma ReferenceGreater13()
    ensures Greater(HandRank(3, RankList([10, 4, 13])), HandRank(3, RankList([10, 3, 14])))
  {
  }

  lemma ReferenceGreater14()
    ensures Greater(HandRank(3, RankList([10, 3, 14])), HandRank(3, RankList([10, 3, 6])))
  {
  }

  lemma ReferenceGreater15()
    ensures Greater(HandRank(3, RankList([10, 3, 6])), HandRank(2, RankList([10, 14, 6, 5])))
  {
  }

  lemma ReferenceGreater16()
    ensures Greater(HandRank(2, RankList([10, 14, 6, 5])), HandRank(2, RankList([10, 13, 6, 5])))
  {
  }

  lemma ReferenceGreater17()
    ensures Greater(HandRank(2, RankList([10, 13, 6, 5])), HandRank(1, RankList([14, 12, 10, 6, 5])))
  {
  }

  lemma ReferenceGreater18()
    ensures Greater(HandRank(1, RankList([14, 12, 10, 6, 5])), HandRank(1, RankList([13, 12, 10, 6, 5])))
  {
  }

  /** Each card set of the ranking test ranks strictly above the next. */
  lemma ReferenceRanksDescending()
    ensures |ReferenceRanks| == 19
    ensures forall i :: 0 <= i < 18 ==> Greater(ReferenceRanks[i], ReferenceRanks[i + 1])
  {
    ReferenceGreater1();
    ReferenceGreater2();
    ReferenceGreater3();
    ReferenceGreater4();
    ReferenceGreater5();
    ReferenceGreater6();
    ReferenceGreater7();
    ReferenceGreater8();
    ReferenceGreater9();
    ReferenceGreater10();
    ReferenceGreater11();
    ReferenceGreater12();
    ReferenceGreater13();
    ReferenceGreater14();
    ReferenceGreater15();
    ReferenceGreater16();
    ReferenceGreater17();
    ReferenceGreater18();
  }

  /** The ranking test: card sets that rank_function gives the listed ranks come
      out of sorted(card_sets, key=rank_function, reverse=True) in their listed
      order. */
  lemma ReferenceOrder(hs: seq<seq<Card>>)
    requires |hs| == 19
    requires forall i :: 0 <= i < 19 ==> |hs[i]| > 0 && RankHand(hs[i]) == Some(ReferenceRanks[i])
    ensures var ranked := seq(19, i requires 0 <= i < 19 => (hs[i], RankHand(hs[i]).value));
            SortRanked(ranked) == ranked
  {
    ReferenceRanksDescending();
    var ranked := seq(19, i requires 0 <= i < 19 => (hs[i], RankHand(hs[i]).value));
    SortRankedFixed(ranked);
  }

}
