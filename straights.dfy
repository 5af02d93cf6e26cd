/** The detectors that look at runs of ranks and at suits: straight (with the
    ace also counting as 1), flush and straight flush. */
module Straights {
  import opened Seqs
  import opened Cards
  import opened Counting

  /** The distinct ranks of the sorted cards, highest first, followed by 1 when
      the highest of them is an ace. */
  function StraightRanks(cards: seq<Card>): seq<int>
    requires |cards| > 0
  {
    SortedRanks(cards);
    assert |multiset(Ranks(SortByRank(cards)))| == |cards|;
    var d := Distinct(Ranks(SortByRank(cards)));
    if d[0] == 14 then d + [1] else d
  }

  /** Five ranks counting down from t. */
  function Run(t: int): seq<int>
  {
    [t, t - 1, t - 2, t - 3, t - 4]
  }

  predicate RunIn(l: seq<int>, t: int)
  {
    t in l && t - 1 in l && t - 2 in l && t - 3 in l && t - 4 in l
  }

  /** The top of the first window of five, from index i on, that counts down by one. */
  function FirstRun(l: seq<int>, i: nat): (r: Option<int>)
    requires i <= |l|
    ensures r.Some? ==> RunIn(l, r.value) && r.value in l[i..]
    decreases |l| - i
  {
    if i + 5 > |l| then None
    else if l[i..i + 5] == Run(l[i]) then
      assert l[i] == l[i..i + 5][0] && l[i + 1] == l[i..i + 5][1] && l[i + 2] == l[i..i + 5][2];
      assert l[i + 3] == l[i..i + 5][3] && l[i + 4] == l[i..i + 5][4];
      Some(l[i])
    else
      var r := FirstRun(l, i + 1);
      assert r.Some? ==> r.value in l[i..] by {
        if r.Some? {
          var j :| 0 <= j < |l[i + 1..]| && l[i + 1..][j] == r.value;
          assert l[i..][j + 1] == r.value;
        }
      }
      r
  }

  /** find_straight on a non-empty hand. */
  function Straight(cards: seq<Card>): Option<int>
    requires |cards| > 0
  {
    var l := StraightRanks(cards);
    if |l| < 5 then None else FirstRun(l, 0)
  }

  function Min(a: int, b: int): int
  {
    if a < b then a else b
  }

  method FindStraight(cards: seq<Card>) returns (r: Option<int>)
    requires |cards| > 0
    ensures r == Straight(cards)
  {
    SortedRanks(cards);
    assert |multiset(Ranks(SortByRank(cards)))| == |cards|;
    var ranks := Distinct(Ranks(SortByRank(cards)));
    if ranks[0] == 14 {
      ranks := ranks + [1];
    }
    assert ranks == StraightRanks(cards);
    if |ranks| < 5 {
      return None;
    }
    for i := 0 to |ranks|
      invariant FirstRun(ranks, i) == FirstRun(ranks, 0)
    {
      var cmp := ranks[i..Min(i + 5, |ranks|)];
      if |cmp| < 5 {
        continue;
      }
      if cmp == Run(cmp[0]) {
        return Some(cmp[0]);
      }
    }
    return None;
  }

  /** In a strictly decreasing sequence of integers, the values fall by at least
      one per position. */
  lemma {:induction false} FallsAtLeast(l: seq<int>, i: nat, j: nat)
    requires Decreasing(l) && i <= j < |l|
    ensures l[j] <= l[i] - (j - i)
    decreases j - i
  {
    if i < j {
      FallsAtLeast(l, i, j - 1);
    }
  }

  lemma LaterIndex(l: seq<int>, a: nat, b: nat)
    requires Decreasing(l) && a < |l| && b < |l| && l[a] < l[b]
    ensures a > b
  {
  }

  /** In a strictly decreasing sequence, a value whose four successors are present
      is followed by them, so its window is a run. */
  lemma RunWindow(l: seq<int>, j: nat)
    requires Decreasing(l) && j < |l| && RunIn(l, l[j])
    ensures j + 5 <= |l| && l[j..j + 5] == Run(l[j])
  {
    var t := l[j];
    var a1 :| 0 <= a1 < |l| && l[a1] == t - 1;
    var a2 :| 0 <= a2 < |l| && l[a2] == t - 2;
    var a3 :| 0 <= a3 < |l| && l[a3] == t - 3;
    var a4 :| 0 <= a4 < |l| && l[a4] == t - 4;
    LaterIndex(l, a1, j);
    LaterIndex(l, a2, a1);
    LaterIndex(l, a3, a2);
    LaterIndex(l, a4, a3);
    FallsAtLeast(l, j, a4);
    assert a1 == j + 1 && a2 == j + 2 && a3 == j + 3 && a4 == j + 4;
    assert l[j..j + 5] == [l[j], l[j + 1], l[j + 2], l[j + 3], l[j + 4]];
  }

  /** The scan from i finds a run whose top is at least any run top from i on. */
  lemma {:induction false} FirstRunHighest(l: seq<int>, i: nat, t: int)
    requires Decreasing(l) && i <= |l| && RunIn(l, t) && t in l[i..]
    ensures FirstRun(l, i).Some? && FirstRun(l, i).value >= t
    decreases |l| - i
  {
    var j :| 0 <= j < |l[i..]| && l[i..][j] == t;
    assert l[i + j] == t;
    RunWindow(l, i + j);
    if l[i..i + 5] == Run(l[i]) {
      if j > 0 {
        assert l[i] > l[i + j];
      }
    } else {
      assert j != 0;
      assert l[i + 1..][j - 1] == t;
      FirstRunHighest(l, i + 1, t);
    }
  }

  /** A rank is present when a card has it; an ace also provides rank 1. */
  predicate Present(cards: seq<Card>, r: int)
  {
    r in Ranks(cards) || (r == 1 && 14 in Ranks(cards))
  }

  /** Five cards of ranks t, t - 1, ..., t - 4 are present. */
  predicate IsStraightTop(cards: seq<Card>, t: int)
  {
    Present(cards, t) && Present(cards, t - 1) && Present(cards, t - 2)
    && Present(cards, t - 3) && Present(cards, t - 4)
  }

  /** Every rank of a card lies between 2 and 14. */
  lemma RanksRange(s: seq<Card>)
    ensures forall x :: x in Ranks(s) ==> 2 <= x <= 14
  {
    forall x | x in Ranks(s) ensures 2 <= x <= 14 {
      var j :| 0 <= j < |Ranks(s)| && Ranks(s)[j] == x;
    }
  }

  /** Sorting keeps the set of ranks present. */
  lemma SortedMembers(cards: seq<Card>)
    ensures forall x :: x in Ranks(SortByRank(cards)) <==> x in Ranks(cards)
  {
    SortedRanks(cards);
    var rs := Ranks(SortByRank(cards));
    forall x ensures x in rs <==> x in Ranks(cards) {
      assert x in rs <==> x in multiset(rs);
      assert x in Ranks(cards) <==> x in multiset(Ranks(cards));
    }
  }

  /** In a non-increasing sequence of ranks, an ace is present exactly when it comes first. */
  lemma AceFirst(rs: seq<int>)
    requires NonIncreasing(rs) && rs != [] && forall x :: x in rs ==> x <= 14
    ensures 14 in rs <==> rs[0] == 14
  {
    if 14 in rs {
      var j :| 0 <= j < |rs| && rs[j] == 14;
      assert rs[0] >= rs[j] && rs[0] in rs;
    }
  }

  /** The ranks a straight is looked for in: strictly decreasing, and exactly the
      present ranks. */
  lemma StraightRanksSpec(cards: seq<Card>)
    requires |cards| > 0
    ensures Decreasing(StraightRanks(cards))
    ensures forall x :: x in StraightRanks(cards) <==> Present(cards, x)
  {
    var rs := Ranks(SortByRank(cards));
    SortedRanks(cards);
    assert |multiset(rs)| == |cards|;
    SortedMembers(cards);
    RanksRange(cards);
    var d := Distinct(rs);
    DistinctMembers(rs);
    DistinctDecreasing(rs);
    assert d[0] == rs[0];
    AceFirst(rs);
    if d[0] == 14 {
      forall x | x in d ensures x > 1 {
        assert x in Ranks(cards);
      }
      SnocDecreasing(d, 1);
    }
  }

  lemma SnocDecreasing(d: seq<int>, x: int)
    requires Decreasing(d) && forall y :: y in d ==> y > x
    ensures Decreasing(d + [x])
  {
    forall i, j | 0 <= i < j < |d + [x]| ensures (d + [x])[i] > (d + [x])[j] {
      assert (d + [x])[i] == d[i] && d[i] in d;
      if j < |d| { assert (d + [x])[j] == d[j]; }
    }
  }

  /** A run of the scanned ranks is exactly a straight of the hand. */
  lemma RunIffTop(cards: seq<Card>)
    requires |cards| > 0
    ensures forall t :: RunIn(StraightRanks(cards), t) <==> IsStraightTop(cards, t)
  {
    StraightRanksSpec(cards);
  }

  /** A straight's top card lies between 5 (the ace-low straight) and 14. */
  lemma StraightTopRange(cards: seq<Card>, t: int)
    requires IsStraightTop(cards, t)
    ensures 5 <= t <= 14
  {
    RanksRange(cards);
  }

  /** find_straight returns the highest t such that t, t - 1, ..., t - 4 are all
      present (an ace also counting as 1), and None when there is no such t; any
      result lies between 5 and 14. */
  lemma StraightSpec(cards: seq<Card>)
    requires |cards| > 0
    ensures Straight(cards).None? <==> forall t :: !IsStraightTop(cards, t)
    ensures Straight(cards).Some? ==>
              var t := Straight(cards).value;
              && IsStraightTop(cards, t)
              && 5 <= t <= 14
              && forall t' :: IsStraightTop(cards, t') ==> t' <= t
  {
    var l := StraightRanks(cards);
    StraightRanksSpec(cards);
    RunIffTop(cards);
    assert Straight(cards) == FirstRun(l, 0);
    forall t | IsStraightTop(cards, t) ensures FirstRun(l, 0).Some? && FirstRun(l, 0).value >= t {
      assert RunIn(l, t);
      assert l[0..] == l;
      FirstRunHighest(l, 0, t);
    }
    if FirstRun(l, 0).Some? {
      var t := FirstRun(l, 0).value;
      assert RunIn(l, t);
      StraightTopRange(cards, t);
    }
  }

  /** The suits find_flush looks at, in its order. */
  const Suits: seq<char> := ['s', 'c', 'd', 'h']

  /** find_flush: the five highest ranks of the first suit, in the order s, c, d, h,
      that has at least five cards. */
  function Flush(cards: seq<Card>): Option<seq<int>>
  {
    var pc := SortByRank(cards);
    match FirstAtLeast(Suits, SuitsOf(pc), 5)
    case None => None
    case Some(u) => Some(Take(Ranks(OfSuit(pc, u)), 5))
  }

  /** A lookup in a dictionary whose missing keys count as 0. */
  function Lookup(m: map<char, nat>, k: char): nat
  {
    if k in m then m[k] else 0
  }

  /** count holds, missing keys counting as 0, the number of times each suit occurs in s. */
  ghost predicate SuitCounts(count: map<char, nat>, s: seq<char>)
  {
    forall u :: Lookup(count, u) == Occ(s, u)
  }

  lemma SuitCountStep(m: map<char, nat>, s: seq<char>, u: char)
    requires SuitCounts(m, s)
    ensures SuitCounts(m[u := Lookup(m, u) + 1], s + [u])
  {
    forall x ensures Lookup(m[u := Lookup(m, u) + 1], x) == Occ(s + [u], x) {
      assert multiset(s + [u]) == multiset(s) + multiset{u};
      assert Occ(s + [u], x) == Occ(s, x) + (if x == u then 1 else 0);
    }
  }

  /** The first loop of find_flush (ranking.py:89-90): every card adds one to its suit's count. */
  method CountSuits(pc: seq<Card>) returns (count: map<char, nat>)
    ensures SuitCounts(count, SuitsOf(pc))
  {
    ghost var ss := SuitsOf(pc);
    count := map[];
    for i := 0 to |pc|
      invariant SuitCounts(count, ss[..i])
    {
      assert ss[..i + 1] == ss[..i] + [pc[i].suit];
      SuitCountStep(count, ss[..i], pc[i].suit);
      count := count[pc[i].suit := Lookup(count, pc[i].suit) + 1];
    }
    assert ss[..|pc|] == ss;
  }

  /** The scan over keys of a dictionary of the counts of s (ranking.py:91-92),
      stopping at the first key counted at least n times. */
  method FirstCounted(keys: seq<char>, count: map<char, nat>, ghost s: seq<char>, n: int) returns (r: Option<char>)
    requires SuitCounts(count, s)
    ensures r == FirstAtLeast(keys, s, n)
  {
    for i := 0 to |keys|
      invariant forall j :: 0 <= j < i ==> Occ(s, keys[j]) < n
    {
      if Lookup(count, keys[i]) >= n {
        FirstAtLeastAt(keys, s, n, i);
        return Some(keys[i]);
      }
    }
    FirstAtLeastNone(keys, s, n);
    return None;
  }

  method FindFlush(cards: seq<Card>) returns (r: Option<seq<int>>)
    ensures r == Flush(cards)
  {
    var pc := SortByRank(cards);
    var count := CountSuits(pc);
    var found := FirstCounted(Suits, count, SuitsOf(pc), 5);
    match found
    case None => r := None;
    case Some(u) => r := Some(Take(Ranks(OfSuit(pc, u)), 5));
  }

  /** A flush is found exactly when one of the four suits has five cards; the
      first such suit in the order s, c, d, h is taken and the key is its five
      highest ranks, highest first. */
  lemma FlushSpec(cards: seq<Card>)
    ensures Flush(cards).None? <==> forall j :: 0 <= j < 4 ==> Occ(SuitsOf(cards), Suits[j]) < 5
    ensures Flush(cards).Some? ==>
              var v := Flush(cards).value;
              && |v| == 5
              && exists j :: 0 <= j < 4 && Occ(SuitsOf(cards), Suits[j]) >= 5
                             && (forall i :: 0 <= i < j ==> Occ(SuitsOf(cards), Suits[i]) < 5)
                             && TopOf(v, multiset(Ranks(OfSuit(cards, Suits[j]))), 5)
  {
    var pc := SortByRank(cards);
    SortedSuits(cards);
    OccSame(SuitsOf(pc), SuitsOf(cards));
    match FirstAtLeast(Suits, SuitsOf(pc), 5)
    case None =>
    case Some(u) =>
      var j :| 0 <= j < 4 && Suits[j] == u && Occ(SuitsOf(pc), Suits[j]) >= 5
               && forall i :: 0 <= i < j ==> Occ(SuitsOf(pc), Suits[i]) < 5;
      FlushRanks(cards, u);
  }

  /** The five highest ranks of a suit with at least five cards. */
  lemma FlushRanks(cards: seq<Card>, u: char)
    requires Occ(SuitsOf(cards), u) >= 5
    ensures var v := Take(Ranks(OfSuit(SortByRank(cards), u)), 5);
            |v| == 5 && TopOf(v, multiset(Ranks(OfSuit(cards, u))), 5)
  {
    var own := OfSuit(cards, u);
    SortOfSuit(cards, u);
    SortedRanks(own);
    TakeTop(Ranks(SortByRank(own)), 5);
    OfSuitLength(cards, u);
    assert |multiset(Ranks(own))| == |own|;
  }

  /** find_straight_flush: the first suit, in order of first appearance among the
      sorted cards, that has at least five cards decides; the straight of that
      suit's cards is the result. */
  function StraightFlush(cards: seq<Card>): Option<int>
  {
    var ss := SuitsOf(SortByRank(cards));
    match FirstAtLeast(Distinct(ss), ss, 5)
    case None => None
    case Some(u) =>
      FlushSuitCards(cards, u);
      Straight(OfSuit(cards, u))
  }

  lemma FlushSuitCards(cards: seq<Card>, u: char)
    requires Occ(SuitsOf(SortByRank(cards)), u) >= 5
    ensures |OfSuit(cards, u)| >= 5
  {
    SortedSuits(cards);
    OfSuitLength(cards, u);
  }

  /** The Counter of suits is the count dictionary with the suits in order of
      first appearance as its keys. */
  method FindStraightFlush(cards: seq<Card>) returns (r: Option<int>)
    ensures r == StraightFlush(cards)
  {
    var pc := SortByRank(cards);
    var count := CountSuits(pc);
    var found := FirstCounted(Distinct(SuitsOf(pc)), count, SuitsOf(pc), 5);
    match found
    case None => r := None;
    case Some(u) =>
      FlushSuitCards(cards, u);
      r := FindStraight(OfSuit(cards, u));
  }

  /** find_straight_flush given tokens rather than cards, as the ranking test calls
      it (ranking.py:307, 311): the suits are counted on the parsed tokens, and the
      tokens of the chosen suit, picked by their last character, are passed on to
      find_straight (ranking.py:121). */
  function StraightFlushOfTokens(ts: seq<string>): Option<int>
    requires ValidTokens(ts)
  {
    var ss := SuitsOf(ParseCards(ts));
    match FirstAtLeast(Distinct(ss), ss, 5)
    case None => None
    case Some(u) =>
      DecodeTokensOfSuit(ts, u);
      FlushSuitCards(DecodeAll(ts), u);
      Straight(DecodeAll(TokensOfSuit(ts, u)))
  }

  /** On tokens, find_straight_flush gives what it gives on their decoded cards. */
  lemma StraightFlushTokens(ts: seq<string>)
    requires ValidTokens(ts)
    ensures StraightFlushOfTokens(ts) == StraightFlush(DecodeAll(ts))
  {
    var ss := SuitsOf(ParseCards(ts));
    match FirstAtLeast(Distinct(ss), ss, 5)
    case None =>
    case Some(u) =>
      DecodeTokensOfSuit(ts, u);
  }

  /** Every straight flush found is a straight of five cards of one suit that has at
      least five cards, and no straight of that suit is higher. */
  lemma StraightFlushSound(cards: seq<Card>)
    ensures StraightFlush(cards).Some? ==>
              var t := StraightFlush(cards).value;
              && 5 <= t <= 14
              && exists u :: Occ(SuitsOf(cards), u) >= 5 && IsStraightTop(OfSuit(cards, u), t)
                             && forall t' :: IsStraightTop(OfSuit(cards, u), t') ==> t' <= t
  {
    var ss := SuitsOf(SortByRank(cards));
    SortedSuits(cards);
    OccSame(ss, SuitsOf(cards));
    match FirstAtLeast(Distinct(ss), ss, 5)
    case None =>
    case Some(u) =>
      FlushSuitCards(cards, u);
      StraightSpec(OfSuit(cards, u));
  }

  /** Counts of two different values add up to at most the length. */
  lemma {:induction false} OccTwo<T>(s: seq<T>, a: T, b: T)
    requires a != b
    ensures Occ(s, a) + Occ(s, b) <= |s|
  {
    if s != [] {
      OccTwo(s[1..], a, b);
      assert s == [s[0]] + s[1..];
    }
  }

  /** When only one suit can have five cards, as in any hand of at most nine cards,
      the straight flush is the highest straight among the cards of that suit. */
  lemma StraightFlushOneSuit(cards: seq<Card>, u: char)
    requires forall w :: Occ(SuitsOf(cards), w) >= 5 ==> w == u
    ensures Occ(SuitsOf(cards), u) < 5 ==> StraightFlush(cards).None?
    ensures Occ(SuitsOf(cards), u) >= 5 ==>
              |OfSuit(cards, u)| >= 5 && StraightFlush(cards) == Straight(OfSuit(cards, u))
  {
    var ss := SuitsOf(SortByRank(cards));
    SortedSuits(cards);
    OccSame(ss, SuitsOf(cards));
    DistinctMembers(ss);
    OfSuitLength(cards, u);
    var keys := Distinct(ss);
    var r := FirstAtLeast(keys, ss, 5);
    if Occ(ss, u) >= 5 {
      assert u in multiset(ss);
      assert u in keys;
      var j :| 0 <= j < |keys| && keys[j] == u;
      assert r.Some?;
      var i :| 0 <= i < |keys| && keys[i] == r.value && Occ(ss, keys[i]) >= 5;
    }
  }

  /** In at most nine suits, at most one suit occurs five times. */
  lemma OneMajority(ss: seq<char>, u: char)
    requires |ss| <= 9 && Occ(ss, u) >= 5
    ensures forall w :: Occ(ss, w) >= 5 ==> w == u
  {
    forall w | w != u ensures Occ(ss, w) < 5 {
      OccTwo(ss, u, w);
    }
  }

  /** Hands of at most nine cards have at most one suit with five cards. */
  lemma NineCardsOneSuit(cards: seq<Card>, u: char)
    requires |cards| <= 9 && Occ(SuitsOf(cards), u) >= 5
    ensures forall w :: Occ(SuitsOf(cards), w) >= 5 ==> w == u
  {
    var ss := SuitsOf(cards);
    assert |ss| <= 9;
    OneMajority(ss, u);
  }

  /** In a hand of at most nine cards, a straight flush is found exactly when the
      cards of some suit form a straight, and it is the highest such straight. */
  lemma StraightFlushSmallHand(cards: seq<Card>)
    requires |cards| <= 9
    ensures StraightFlush(cards).None? <==>
              forall u, t :: Occ(SuitsOf(cards), u) >= 5 ==> !IsStraightTop(OfSuit(cards, u), t)
    ensures StraightFlush(cards).Some? ==>
              forall u, t :: Occ(SuitsOf(cards), u) >= 5 && IsStraightTop(OfSuit(cards, u), t) ==>
                               t <= StraightFlush(cards).value
  {
    forall u, t | Occ(SuitsOf(cards), u) >= 5 && IsStraightTop(OfSuit(cards, u), t)
      ensures StraightFlush(cards).Some? && t <= StraightFlush(cards).value
    {
      NineCardsOneSuit(cards, u);
      StraightFlushOneSuit(cards, u);
      OfSuitLength(cards, u);
      StraightSpec(OfSuit(cards, u));
    }
    StraightFlushSound(cards);
  }
}
