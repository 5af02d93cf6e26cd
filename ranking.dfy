/** rank_function: the detectors are tried from the strongest hand down, and the
    first one whose result is truthy decides the hand's strength, 9 for a
    straight flush down to 1 for a high card, together with its tie-break key.
    Hands compare as Python compares the (strength, key) tuples. */
module Ranking {
  import opened Seqs
  import opened Cards
  import opened Counting
  import opened Kinds
  import opened Straights

  /** A detector's result: a list of ranks, or the top rank of a straight. */
  datatype Key = RankList(ranks: seq<int>) | HighRank(rank: int)

  /** The tuple rank_function returns. */
  datatype HandRank = HandRank(strength: int, key: Key)

  function AsList(v: Option<seq<int>>): (r: Option<Key>)
    ensures r.None? <==> v.None?
    ensures r.Some? ==> r.value == RankList(v.value)
  {
    match v
    case None => None
    case Some(l) => Some(RankList(l))
  }

  function AsRank(v: Option<int>): (r: Option<Key>)
    ensures r.None? <==> v.None?
    ensures r.Some? ==> r.value == HighRank(v.value)
  {
    match v
    case None => None
    case Some(t) => Some(HighRank(t))
  }

  /** The number of detectors in rank_function's list. */
  const Detectors := 9

  /** The detector at position i of rank_function's list. */
  function Detect(i: nat, cards: seq<Card>): Option<Key>
    requires i < Detectors && |cards| > 0
  {
    if i == 0 then AsRank(StraightFlush(cards))
    else if i == 1 then AsList(NOfAKind(4, cards))
    else if i == 2 then AsList(FullHouse(cards))
    else if i == 3 then AsList(Flush(cards))
    else if i == 4 then AsRank(Straight(cards))
    else if i == 5 then AsList(NOfAKind(3, cards))
    else if i == 6 then AsList(TwoPairs(cards))
    else if i == 7 then AsList(NOfAKind(2, cards))
    else Some(RankList(HighCard(cards)))
  }

  /** Python truthiness of a detector's result: None, an empty list and 0 are false. */
  predicate Truthy(v: Option<Key>)
  {
    match v
    case None => false
    case Some(RankList(l)) => l != []
    case Some(HighRank(t)) => t != 0
  }

  /** The results of the detectors, in the order of rank_function's list. */
  function Results(cards: seq<Card>): (ds: seq<Option<Key>>)
    requires |cards| > 0
    ensures |ds| == Detectors
  {
    seq(Detectors, i requires 0 <= i < Detectors => Detect(i, cards))
  }

  /** The loop of rank_function over the results from position i on: the first
      truthy result decides, with strength 9 at position 0 down to 1 at position 8. */
  function Scan(ds: seq<Option<Key>>, i: nat): Option<HandRank>
    requires i <= |ds|
    decreases |ds| - i
  {
    if i == |ds| then None
    else if Truthy(ds[i]) then Some(HandRank(|ds| - i, ds[i].value))
    else Scan(ds, i + 1)
  }

  /** rank_function on a non-empty hand; on an empty hand find_straight fails when
      it reads its first rank (ranking.py:72), so the hand must not be empty. */
  function RankHand(cards: seq<Card>): Option<HandRank>
    requires |cards| > 0
  {
    Scan(Results(cards), 0)
  }

  /** One pass of the loop: call the detector at position i. */
  method RunDetector(i: nat, cards: seq<Card>) returns (k: Option<Key>)
    requires i < Detectors && |cards| > 0
    ensures k == Detect(i, cards)
  {
    if i == 0 {
      var t := FindStraightFlush(cards);
      k := AsRank(t);
    } else if i == 1 {
      var v := FindNOfAKind(4, cards);
      k := AsList(v);
    } else if i == 2 {
      var v := FindFullHouse(cards);
      k := AsList(v);
    } else if i == 3 {
      var v := FindFlush(cards);
      k := AsList(v);
    } else if i == 4 {
      var t := FindStraight(cards);
      k := AsRank(t);
    } else if i == 5 {
      var v := FindNOfAKind(3, cards);
      k := AsList(v);
    } else if i == 6 {
      var v := FindTwoPairs(cards);
      k := AsList(v);
    } else if i == 7 {
      var v := FindNOfAKind(2, cards);
      k := AsList(v);
    } else {
      k := Some(RankList(HighCard(cards)));
    }
  }

  method RankFunction(cards: seq<Card>) returns (r: Option<HandRank>)
    requires |cards| > 0
    ensures r == RankHand(cards)
  {
    for i := 0 to Detectors
      invariant Scan(Results(cards), i) == RankHand(cards)
    {
      var k := RunDetector(i, cards);
      LoopStep(cards, i, k);
      if Truthy(k) {
        return Some(HandRank(Detectors - i, k.value));
      }
    }
    return None;
  }

  /** Every detector's result is truthy exactly when it found its hand: the keys
      are never empty lists and the tops of straights are never 0. */
  lemma DetectTruthy(i: nat, cards: seq<Card>)
    requires i < Detectors && |cards| > 0
    ensures Truthy(Detect(i, cards)) <==> Detect(i, cards).Some?
  {
    if i == 0 {
      StraightFlushSound(cards);
    } else if i == 1 {
      NOfAKindSpec(4, cards);
    } else if i == 2 {
      FullHouseSpec(cards);
    } else if i == 3 {
      FlushSpec(cards);
    } else if i == 4 {
      StraightSpec(cards);
    } else if i == 5 {
      NOfAKindSpec(3, cards);
    } else if i == 6 {
      TwoPairsSpec(cards);
    } else if i == 7 {
      NOfAKindSpec(2, cards);
    }
  }

  /** The high card detector finds something in every non-empty hand. */
  lemma HighCardFound(cards: seq<Card>)
    requires |cards| > 0
    ensures Truthy(Detect(8, cards))
  {
  }

  lemma ScanStep(ds: seq<Option<Key>>, i: nat)
    requires i < |ds|
    ensures Scan(ds, i) == if Truthy(ds[i]) then Some(HandRank(|ds| - i, ds[i].value)) else Scan(ds, i + 1)
  {
  }

  /** One pass of rank_function's loop over the result k of the detector at i. */
  lemma LoopStep(cards: seq<Card>, i: nat, k: Option<Key>)
    requires i < Detectors && |cards| > 0 && k == Detect(i, cards)
    ensures Truthy(k) ==> Scan(Results(cards), i) == Some(HandRank(Detectors - i, k.value))
    ensures !Truthy(k) ==> Scan(Results(cards), i) == Scan(Results(cards), i + 1)
  {
    ScanStep(Results(cards), i);
  }

  /** Results that are truthy exactly when they are not None. */
  predicate Honest(ds: seq<Option<Key>>)
  {
    forall i :: 0 <= i < |ds| ==> (Truthy(ds[i]) <==> ds[i].Some?)
  }

  /** The scan from position i stops at the first result, from i on, that is not None. */
  lemma {:induction false} ScanFirst(ds: seq<Option<Key>>, i: nat, k: nat)
    requires i <= k < |ds| && Honest(ds)
    requires ds[k].Some? && forall j :: i <= j < k ==> ds[j].None?
    ensures Scan(ds, i) == Some(HandRank(|ds| - k, ds[k].value))
    decreases k - i
  {
    if i < k {
      ScanFirst(ds, i + 1, k);
    }
  }

  /** When the last result is truthy, the scan from i finds the first result from i
      on that is not None. */
  lemma {:induction false} ScanSome(ds: seq<Option<Key>>, i: nat)
    requires i < |ds| && Honest(ds) && Truthy(ds[|ds| - 1])
    ensures Scan(ds, i).Some?
    ensures var h := Scan(ds, i).value;
            var k := |ds| - h.strength;
            && i <= k < |ds|
            && ds[k].Some? && h.key == ds[k].value
            && forall j :: i <= j < k ==> ds[j].None?
    decreases |ds| - i
  {
    if !Truthy(ds[i]) {
      ScanSome(ds, i + 1);
    }
  }

  /** The detectors' results on a non-empty hand are honest, and the last, the
      high card, is always truthy. */
  lemma ResultsHonest(cards: seq<Card>)
    requires |cards| > 0
    ensures Honest(Results(cards)) && Truthy(Results(cards)[Detectors - 1])
  {
    forall i | 0 <= i < Detectors ensures Truthy(Results(cards)[i]) <==> Results(cards)[i].Some? {
      DetectTruthy(i, cards);
    }
    HighCardFound(cards);
  }

  /** The detector that decides a hand is the first in the list that finds
      something: its position gives the strength and its result the key. */
  lemma RankIs(cards: seq<Card>, k: nat)
    requires k < Detectors && |cards| > 0
    requires Detect(k, cards).Some?
    requires forall j :: 0 <= j < k ==> Detect(j, cards).None?
    ensures RankHand(cards) == Some(HandRank(Detectors - k, Detect(k, cards).value))
  {
    ResultsHonest(cards);
    var ds := Results(cards);
    forall j | 0 <= j < k ensures ds[j].None? {
      assert ds[j] == Detect(j, cards);
    }
    ScanFirst(ds, 0, k);
  }

  /** Every non-empty hand gets a strength between 1 and 9, decided by the first
      detector that finds something. */
  lemma RankSpec(cards: seq<Card>)
    requires |cards| > 0
    ensures RankHand(cards).Some?
    ensures var h := RankHand(cards).value;
            var k := Detectors - h.strength;
            && 1 <= h.strength <= Detectors
            && Detect(k, cards).Some? && h.key == Detect(k, cards).value
            && forall j :: 0 <= j < k ==> Detect(j, cards).None?
  {
    ResultsHonest(cards);
    var ds := Results(cards);
    ScanSome(ds, 0);
    var k := Detectors - RankHand(cards).value.strength;
    forall j | 0 <= j < k ensures Detect(j, cards).None? {
      assert ds[j] == Detect(j, cards);
    }
  }

  /** A hand the detector at position j recognises is worth at least that
      detector's strength. */
  lemma RankAtLeast(cards: seq<Card>, j: nat)
    requires j < Detectors && |cards| > 0
    requires Detect(j, cards).Some?
    ensures RankHand(cards).Some? && RankHand(cards).value.strength >= Detectors - j
  {
    RankSpec(cards);
  }

  /** Which detector each position of rank_function's list holds. */
  lemma DetectorsAre(cards: seq<Card>)
    requires |cards| > 0
    ensures Detect(0, cards) == AsRank(StraightFlush(cards))
    ensures Detect(1, cards) == AsList(NOfAKind(4, cards))
    ensures Detect(2, cards) == AsList(FullHouse(cards))
    ensures Detect(3, cards) == AsList(Flush(cards))
    ensures Detect(4, cards) == AsRank(Straight(cards))
    ensures Detect(5, cards) == AsList(NOfAKind(3, cards))
    ensures Detect(6, cards) == AsList(TwoPairs(cards))
    ensures Detect(7, cards) == AsList(NOfAKind(2, cards))
    ensures Detect(8, cards) == Some(RankList(HighCard(cards)))
  {
    var i0: nat := 0;
    assert Detect(i0, cards) == AsRank(StraightFlush(cards));
    var i1: nat := 1;
    assert i1 != 0;
    assert Detect(i1, cards) == AsList(NOfAKind(4, cards));
    var i2: nat := 2;
    assert i2 != 0 && i2 != 1;
    assert Detect(i2, cards) == AsList(FullHouse(cards));
    var i3: nat := 3;
    assert i3 != 0 && i3 != 1 && i3 != 2;
    assert Detect(i3, cards) == AsList(Flush(cards));
    var i4: nat := 4;
    assert i4 != 0 && i4 != 1 && i4 != 2 && i4 != 3;
    assert Detect(i4, cards) == AsRank(Straight(cards));
    var i5: nat := 5;
    assert i5 != 0 && i5 != 1 && i5 != 2 && i5 != 3 && i5 != 4;
    assert Detect(i5, cards) == AsList(NOfAKind(3, cards));
    var i6: nat := 6;
    assert i6 != 0 && i6 != 1 && i6 != 2 && i6 != 3 && i6 != 4 && i6 != 5;
    assert Detect(i6, cards) == AsList(TwoPairs(cards));
    var i7: nat := 7;
    assert i7 != 0 && i7 != 1 && i7 != 2 && i7 != 3 && i7 != 4 && i7 != 5 && i7 != 6;
    assert Detect(i7, cards) == AsList(NOfAKind(2, cards));
    var i8: nat := 8;
    assert i8 != 0 && i8 != 1 && i8 != 2 && i8 != 3 && i8 != 4 && i8 != 5 && i8 != 6 && i8 != 7;
    assert Detect(i8, cards) == Some(RankList(HighCard(cards)));
  }

  /** rank_function case by case: the strength and key of a hand, read off the
      first detector that finds something. */
  lemma RankByDetectors(cards: seq<Card>)
    requires |cards| > 0
    ensures StraightFlush(cards).Some? ==>
              RankHand(cards) == Some(HandRank(9, HighRank(StraightFlush(cards).value)))
    ensures StraightFlush(cards).None? && NOfAKind(4, cards).Some? ==>
              RankHand(cards) == Some(HandRank(8, RankList(NOfAKind(4, cards).value)))
    ensures StraightFlush(cards).None? && NOfAKind(4, cards).None? && FullHouse(cards).Some? ==>
              RankHand(cards) == Some(HandRank(7, RankList(FullHouse(cards).value)))
    ensures StraightFlush(cards).None? && NOfAKind(4, cards).None? && FullHouse(cards).None?
            && Flush(cards).Some? ==>
              RankHand(cards) == Some(HandRank(6, RankList(Flush(cards).value)))
    ensures StraightFlush(cards).None? && NOfAKind(4, cards).None? && FullHouse(cards).None?
            && Flush(cards).None? && Straight(cards).Some? ==>
              RankHand(cards) == Some(HandRank(5, HighRank(Straight(cards).value)))
    ensures StraightFlush(cards).None? && NOfAKind(4, cards).None? && FullHouse(cards).None?
            && Flush(cards).None? && Straight(cards).None? && NOfAKind(3, cards).Some? ==>
              RankHand(cards) == Some(HandRank(4, RankList(NOfAKind(3, cards).value)))
    ensures StraightFlush(cards).None? && NOfAKind(4, cards).None? && FullHouse(cards).None?
            && Flush(cards).None? && Straight(cards).None? && NOfAKind(3, cards).None?
            && TwoPairs(cards).Some? ==>
              RankHand(cards) == Some(HandRank(3, RankList(TwoPairs(cards).value)))
    ensures StraightFlush(cards).None? && NOfAKind(4, cards).None? && FullHouse(cards).None?
            && Flush(cards).None? && Straight(cards).None? && NOfAKind(3, cards).None?
            && TwoPairs(cards).None? && NOfAKind(2, cards).Some? ==>
              RankHand(cards) == Some(HandRank(2, RankList(NOfAKind(2, cards).value)))
    ensures StraightFlush(cards).None? && NOfAKind(4, cards).None? && FullHouse(cards).None?
            && Flush(cards).None? && Straight(cards).None? && NOfAKind(3, cards).None?
            && TwoPairs(cards).None? && NOfAKind(2, cards).None? ==>
              RankHand(cards) == Some(HandRank(1, RankList(HighCard(cards))))
  {
    DetectorsAre(cards);
    DetectTruthy(0, cards);
    DetectTruthy(1, cards);
    DetectTruthy(2, cards);
    DetectTruthy(3, cards);
    DetectTruthy(4, cards);
    DetectTruthy(5, cards);
    DetectTruthy(6, cards);
    DetectTruthy(7, cards);
    HighCardFound(cards);
    LoopStep(cards, 0, Detect(0, cards));
    LoopStep(cards, 1, Detect(1, cards));
    LoopStep(cards, 2, Detect(2, cards));
    LoopStep(cards, 3, Detect(3, cards));
    LoopStep(cards, 4, Detect(4, cards));
    LoopStep(cards, 5, Detect(5, cards));
    LoopStep(cards, 6, Detect(6, cards));
    LoopStep(cards, 7, Detect(7, cards));
    LoopStep(cards, 8, Detect(8, cards));
  }

  /** find_straight sorts its cards itself, so sorting them first changes nothing. */
  lemma StraightSorted(cards: seq<Card>)
    requires |cards| > 0
    ensures |SortByRank(cards)| > 0 && Straight(SortByRank(cards)) == Straight(cards)
  {
    SortByRankSpec(cards);
    assert |multiset(SortByRank(cards))| == |multiset(cards)|;
    SortByRankIdempotent(cards);
  }

  lemma StraightFlushSorted(cards: seq<Card>)
    ensures StraightFlush(SortByRank(cards)) == StraightFlush(cards)
  {
    SortByRankIdempotent(cards);
    var ss := SuitsOf(SortByRank(cards));
    match FirstAtLeast(Distinct(ss), ss, 5)
    case None =>
    case Some(u) =>
      FlushSuitCards(cards, u);
      SortOfSuit(cards, u);
      StraightSorted(OfSuit(cards, u));
  }

  /** Every detector gives the same result on a hand and on the hand
      parse_cards has already sorted. */
  lemma DetectorsSorted(cards: seq<Card>)
    requires |cards| > 0
    ensures |SortByRank(cards)| > 0
    ensures StraightFlush(SortByRank(cards)) == StraightFlush(cards)
    ensures forall n :: 2 <= n <= 4 ==> NOfAKind(n, SortByRank(cards)) == NOfAKind(n, cards)
    ensures FullHouse(SortByRank(cards)) == FullHouse(cards)
    ensures Flush(SortByRank(cards)) == Flush(cards)
    ensures Straight(SortByRank(cards)) == Straight(cards)
    ensures TwoPairs(SortByRank(cards)) == TwoPairs(cards)
    ensures HighCard(SortByRank(cards)) == HighCard(cards)
  {
    SortByRankIdempotent(cards);
    StraightSorted(cards);
    StraightFlushSorted(cards);
  }

  /** So rank_function ranks a hand and the sorted hand alike. */
  lemma RankSorted(cards: seq<Card>)
    requires |cards| > 0
    ensures |SortByRank(cards)| > 0 && RankHand(SortByRank(cards)) == RankHand(cards)
  {
    DetectorsSorted(cards);
    RankByDetectors(cards);
    RankByDetectors(SortByRank(cards));
  }

  /** rank_function on the parsed tokens ranks the decoded cards. */
  lemma RankParsed(ts: seq<string>)
    requires ValidTokens(ts) && |ts| > 0
    ensures |ParseCards(ts)| > 0 && RankHand(ParseCards(ts)) == RankHand(DecodeAll(ts))
  {
    RankSorted(DecodeAll(ts));
  }

  /** Python's list comparison a > b: the first position where they differ
      decides, and a proper extension of a list is greater than it. */
  predicate LexGreater(a: seq<int>, b: seq<int>)
    decreases |a|
  {
    if a == [] then false
    else if b == [] then true
    else a[0] > b[0] || (a[0] == b[0] && LexGreater(a[1..], b[1..]))
  }

  /** Comparing two keys of the same strength; keys of the same strength are of
      the same kind. */
  predicate KeyGreater(a: Key, b: Key)
  {
    match (a, b)
    case (RankList(x), RankList(y)) => LexGreater(x, y)
    case (HighRank(x), HighRank(y)) => x > y
    case _ => false
  }

  /** Python's comparison of (strength, key) tuples. */
  predicate Greater(a: HandRank, b: HandRank)
  {
    a.strength > b.strength || (a.strength == b.strength && KeyGreater(a.key, b.key))
  }

  lemma {:induction false} LexGreaterAsymmetric(a: seq<int>, b: seq<int>)
    ensures LexGreater(a, b) ==> !LexGreater(b, a)
    decreases |a|
  {
    if a != [] && b != [] {
      LexGreaterAsymmetric(a[1..], b[1..]);
    }
  }

  /** Two hand ranks are never each greater than the other. */
  lemma GreaterAsymmetric(a: HandRank, b: HandRank)
    ensures Greater(a, b) ==> !Greater(b, a)
  {
    if a.key.RankList? && b.key.RankList? {
      LexGreaterAsymmetric(a.key.ranks, b.key.ranks);
    }
  }

  /** One step of the sort of hands by rank_function, highest first (ranking.py:311), on hands paired
      with their ranks: x goes in front of the first entry that does not rank
      above it, so that among equal ranks the earlier hand stays first. */
  function InsertRanked<T>(x: (T, HandRank), s: seq<(T, HandRank)>): seq<(T, HandRank)>
  {
    if s == [] || !Greater(s[0].1, x.1) then [x] + s else [s[0]] + InsertRanked(x, s[1..])
  }

  /** The sort of ranking.py:311: a stable sort of hands from the highest rank
      down. */
  function SortRanked<T>(s: seq<(T, HandRank)>): seq<(T, HandRank)>
  {
    if s == [] then [] else InsertRanked(s[0], SortRanked(s[1..]))
  }

  /** No entry ranks above the entry just before it. */
  predicate NotAscending<T>(s: seq<(T, HandRank)>)
  {
    forall i :: 0 <= i < |s| - 1 ==> !Greater(s[i + 1].1, s[i].1)
  }

  lemma {:induction false} InsertRankedSpec<T>(x: (T, HandRank), s: seq<(T, HandRank)>)
    requires NotAscending(s)
    ensures multiset(InsertRanked(x, s)) == multiset(s) + multiset{x}
    ensures NotAscending(InsertRanked(x, s))
    ensures InsertRanked(x, s) != []
    ensures InsertRanked(x, s)[0] == x || (s != [] && InsertRanked(x, s)[0] == s[0])
  {
    if s != [] && Greater(s[0].1, x.1) {
      var t := InsertRanked(x, s[1..]);
      InsertRankedSpec(x, s[1..]);
      assert s == [s[0]] + s[1..];
      GreaterAsymmetric(s[0].1, x.1);
      assert t[0] == x || t[0] == s[1];
      assert InsertRanked(x, s) == [s[0]] + t;
    }
  }

  /** The entries of s whose rank is k, in their order. */
  function RankedAs<T>(s: seq<(T, HandRank)>, k: HandRank): seq<(T, HandRank)>
  {
    if s == [] then [] else (if s[0].1 == k then [s[0]] else []) + RankedAs(s[1..], k)
  }

  /** Insertion puts x in front of every entry of its own rank and leaves the order
      of each rank's entries as it was. */
  lemma {:induction false} InsertRankedStable<T>(x: (T, HandRank), s: seq<(T, HandRank)>, k: HandRank)
    ensures RankedAs(InsertRanked(x, s), k) == (if x.1 == k then [x] else []) + RankedAs(s, k)
  {
    if s != [] && Greater(s[0].1, x.1) {
      var t := InsertRanked(x, s[1..]);
      InsertRankedStable(x, s[1..], k);
      GreaterAsymmetric(s[0].1, x.1);
      assert s[0].1 != x.1;
      assert ([s[0]] + t)[1..] == t;
    }
  }

  /** The sort keeps every hand, leaves no hand ranked above its predecessor, and
      is stable: the hands of each rank keep their input order. */
  lemma SortRankedSpec<T>(s: seq<(T, HandRank)>)
    ensures multiset(SortRanked(s)) == multiset(s)
    ensures NotAscending(SortRanked(s))
    ensures forall k :: RankedAs(SortRanked(s), k) == RankedAs(s, k)
  {
    SortRankedOrder(s);
    forall k ensures RankedAs(SortRanked(s), k) == RankedAs(s, k) {
      SortRankedStable(s, k);
    }
  }

  lemma {:induction false} SortRankedOrder<T>(s: seq<(T, HandRank)>)
    ensures multiset(SortRanked(s)) == multiset(s)
    ensures NotAscending(SortRanked(s))
  {
    if s != [] {
      SortRankedOrder(s[1..]);
      InsertRankedSpec(s[0], SortRanked(s[1..]));
      assert s == [s[0]] + s[1..];
      assert multiset(s) == multiset(s[1..]) + multiset{s[0]};
    }
  }

  lemma {:induction false} SortRankedStable<T>(s: seq<(T, HandRank)>, k: HandRank)
    ensures RankedAs(SortRanked(s), k) == RankedAs(s, k)
  {
    if s != [] {
      SortRankedStable(s[1..], k);
      InsertRankedStable(s[0], SortRanked(s[1..]), k);
    }
  }

  /** Hands listed from the highest rank down, each strictly above the next, come
      out of the sort in their listed order. */
  lemma {:induction false} SortRankedFixed<T>(s: seq<(T, HandRank)>)
    requires forall i :: 0 <= i < |s| - 1 ==> Greater(s[i].1, s[i + 1].1)
    ensures SortRanked(s) == s
  {
    if s != [] {
      SortRankedFixed(s[1..]);
      if |s| > 1 {
        GreaterAsymmetric(s[0].1, s[1].1);
      }
      assert s == [s[0]] + s[1..];
    }
  }
}
