/** Card tokens and parse_cards: a token such as "10d" or "Ks" becomes a
    (rank, suit) card, and a list of cards is sorted by descending rank with a
    stable sort, so that cards of equal rank keep their input order. */
module Cards {
  import opened Seqs

  datatype Option<T> = None | Some(value: T)

  /** 2..10 stand for themselves, J = 11, Q = 12, K = 13, A = 14. */
  type Rank = r: int | 2 <= r <= 14 witness 2

  /** The suit is the token's last character, kept as it is. */
  datatype Card = Card(rank: Rank, suit: char)

  /** A leading character that decodes to a rank of a card: '1' (standing for "10"),
      a digit from 2 to 9, or a face or ace letter. Other leading characters that
      the source's conversion turns into a number (such as '0') are not modelled. */
  predicate IsRankChar(c: char)
  {
    c == '1' || ('2' <= c <= '9') || c == 'J' || c == 'Q' || c == 'K' || c == 'A'
  }

  predicate ValidToken(t: string)
  {
    |t| > 0 && IsRankChar(t[0])
  }

  predicate ValidTokens(ts: seq<string>)
  {
    forall i :: 0 <= i < |ts| ==> ValidToken(ts[i])
  }

  /** Only the first character of a token decides its rank. */
  function RankOfChar(c: char): Rank
    requires IsRankChar(c)
  {
    if c == '1' then 10
    else if c == 'J' then 11
    else if c == 'Q' then 12
    else if c == 'K' then 13
    else if c == 'A' then 14
    else (c as int) - ('0' as int)
  }

  function Decode(t: string): Card
    requires ValidToken(t)
  {
    Card(RankOfChar(t[0]), t[|t| - 1])
  }

  function DecodeAll(ts: seq<string>): (cs: seq<Card>)
    requires ValidTokens(ts)
    ensures |cs| == |ts|
    ensures forall i :: 0 <= i < |ts| ==> cs[i] == Decode(ts[i])
  {
    if ts == [] then [] else [Decode(ts[0])] + DecodeAll(ts[1..])
  }

  /** The rank marker of the token format: "2".."9", "10", "J", "Q", "K", "A". */
  function RankText(r: Rank): string
  {
    if r == 10 then "10"
    else if r == 11 then "J"
    else if r == 12 then "Q"
    else if r == 13 then "K"
    else if r == 14 then "A"
    else [(('0' as int) + r) as char]
  }

  /** The token of a card: its rank marker followed by its suit. */
  function Token(c: Card): string
  {
    RankText(c.rank) + [c.suit]
  }

  /** Decoding inverts the token format. */
  lemma DecodeToken(c: Card)
    ensures ValidToken(Token(c)) && Decode(Token(c)) == c
  {
    var t := Token(c);
    assert t[0] == RankText(c.rank)[0];
    assert t[|t| - 1] == c.suit;
  }

  function Ranks(s: seq<Card>): (r: seq<int>)
    ensures |r| == |s|
    ensures forall i :: 0 <= i < |s| ==> r[i] == s[i].rank
  {
    if s == [] then [] else [s[0].rank as int] + Ranks(s[1..])
  }

  function SuitsOf(s: seq<Card>): (r: seq<char>)
    ensures |r| == |s|
    ensures forall i :: 0 <= i < |s| ==> r[i] == s[i].suit
  {
    if s == [] then [] else [s[0].suit] + SuitsOf(s[1..])
  }

  /** The cards of rank r, in their order. */
  function WithRank(s: seq<Card>, r: int): seq<Card>
  {
    if s == [] then [] else (if s[0].rank == r then [s[0]] else []) + WithRank(s[1..], r)
  }

  /** The cards of suit u, in their order. */
  function OfSuit(s: seq<Card>, u: char): seq<Card>
  {
    if s == [] then [] else (if s[0].suit == u then [s[0]] else []) + OfSuit(s[1..], u)
  }

  predicate Descending(s: seq<Card>)
  {
    forall i, j :: 0 <= i < j < |s| ==> s[i].rank >= s[j].rank
  }

  /** Places c in front of the first card whose rank is not higher than c's. */
  function Insert(c: Card, s: seq<Card>): seq<Card>
  {
    if s == [] || s[0].rank <= c.rank then [c] + s else [s[0]] + Insert(c, s[1..])
  }

  /** The sort of ranking.py:16: stable, by descending rank. */
  function SortByRank(s: seq<Card>): seq<Card>
  {
    if s == [] then [] else Insert(s[0], SortByRank(s[1..]))
  }

  /** The tokens whose last character is u, in their order. */
  function TokensOfSuit(ts: seq<string>, u: char): seq<string>
  {
    if ts == [] then []
    else (if |ts[0]| > 0 && ts[0][|ts[0]| - 1] == u then [ts[0]] else []) + TokensOfSuit(ts[1..], u)
  }

  /** Filtering tokens by their last character and decoding them gives the decoded
      cards of suit u. */
  lemma {:induction false} DecodeTokensOfSuit(ts: seq<string>, u: char)
    requires ValidTokens(ts)
    ensures ValidTokens(TokensOfSuit(ts, u))
    ensures DecodeAll(TokensOfSuit(ts, u)) == OfSuit(DecodeAll(ts), u)
  {
    if ts != [] {
      var h := if ts[0][|ts[0]| - 1] == u then [ts[0]] else [];
      assert ValidTokens(ts[1..]);
      DecodeTokensOfSuit(ts[1..], u);
      var t := TokensOfSuit(ts[1..], u);
      assert TokensOfSuit(ts, u) == h + t;
      assert ValidTokens(h + t);
      assert DecodeAll(h + t)[|h|..] == DecodeAll(t);
      assert DecodeAll(ts) == [Decode(ts[0])] + DecodeAll(ts[1..]);
      OfSuitCons(Decode(ts[0]), DecodeAll(ts[1..]), u);
    }
  }

  /** parse_cards: decode every token, then sort. */
  function ParseCards(ts: seq<string>): (cs: seq<Card>)
    requires ValidTokens(ts)
    ensures Descending(cs)
    ensures multiset(cs) == multiset(DecodeAll(ts))
    ensures forall r :: WithRank(cs, r) == WithRank(DecodeAll(ts), r)
  {
    SortByRankSpec(DecodeAll(ts));
    SortByRank(DecodeAll(ts))
  }

  lemma DescendingRanks(s: seq<Card>)
    ensures Descending(s) <==> NonIncreasing(Ranks(s))
  {
  }

  lemma ConsDescending(x: Card, t: seq<Card>)
    requires Descending(t) && forall y :: y in t ==> y.rank <= x.rank
    ensures Descending([x] + t)
  {
    forall i, j | 0 <= i < j < |[x] + t| ensures ([x] + t)[i].rank >= ([x] + t)[j].rank {
      assert ([x] + t)[j] == t[j - 1] && t[j - 1] in t;
      if i > 0 { assert ([x] + t)[i] == t[i - 1]; } else { assert ([x] + t)[i] == x; }
    }
  }

  lemma {:induction false} WithRankMembers(s: seq<Card>, r: int)
    ensures forall x :: x in WithRank(s, r) <==> x in s && x.rank == r
  {
    if s != [] {
      WithRankMembers(s[1..], r);
      assert s == [s[0]] + s[1..];
    }
  }

  lemma {:induction false} OfSuitMembers(s: seq<Card>, u: char)
    ensures forall x :: x in OfSuit(s, u) <==> x in s && x.suit == u
  {
    if s != [] {
      OfSuitMembers(s[1..], u);
      assert s == [s[0]] + s[1..];
    }
  }

  /** The cards of one suit are as many as the occurrences of that suit. */
  lemma {:induction false} OfSuitLength(s: seq<Card>, u: char)
    ensures |OfSuit(s, u)| == Occ(SuitsOf(s), u)
  {
    if s != [] {
      OfSuitLength(s[1..], u);
      assert SuitsOf(s) == [s[0].suit] + SuitsOf(s[1..]);
    }
  }

  lemma OfSuitDescending(s: seq<Card>, u: char)
    requires Descending(s)
    ensures Descending(OfSuit(s, u))
    decreases |s|
  {
    if s != [] {
      OfSuitDescending(s[1..], u);
      OfSuitMembers(s[1..], u);
      forall y | y in OfSuit(s[1..], u) ensures y.rank <= s[0].rank {
        var j :| 0 <= j < |s[1..]| && s[1..][j] == y;
        assert s[j + 1] == y;
      }
      if s[0].suit == u { ConsDescending(s[0], OfSuit(s[1..], u)); }
    }
  }

  lemma {:induction false} InsertMultiset(c: Card, s: seq<Card>)
    ensures multiset(Insert(c, s)) == multiset(s) + multiset{c}
  {
    if s != [] && s[0].rank > c.rank {
      InsertMultiset(c, s[1..]);
      assert s == [s[0]] + s[1..];
    }
  }

  lemma RanksCons(x: Card, t: seq<Card>)
    ensures Ranks([x] + t) == [x.rank as int] + Ranks(t)
  {
    assert ([x] + t)[0] == x && ([x] + t)[1..] == t;
  }

  lemma SuitsCons(x: Card, t: seq<Card>)
    ensures SuitsOf([x] + t) == [x.suit] + SuitsOf(t)
  {
    assert ([x] + t)[0] == x && ([x] + t)[1..] == t;
  }

  lemma {:induction false} InsertRanks(c: Card, s: seq<Card>)
    ensures multiset(Ranks(Insert(c, s))) == multiset(Ranks(s)) + multiset{c.rank as int}
  {
    if s == [] || s[0].rank <= c.rank {
      RanksCons(c, s);
    } else {
      InsertRanks(c, s[1..]);
      RanksCons(s[0], Insert(c, s[1..]));
      RanksCons(s[0], s[1..]);
      assert s == [s[0]] + s[1..];
      var x := s[0].rank as int;
      assert multiset([x] + Ranks(Insert(c, s[1..]))) == multiset{x} + multiset(Ranks(Insert(c, s[1..])));
      assert multiset([x] + Ranks(s[1..])) == multiset{x} + multiset(Ranks(s[1..]));
    }
  }

  lemma {:induction false} InsertSuits(c: Card, s: seq<Card>)
    ensures multiset(SuitsOf(Insert(c, s))) == multiset(SuitsOf(s)) + multiset{c.suit}
  {
    if s == [] || s[0].rank <= c.rank {
      SuitsCons(c, s);
    } else {
      InsertSuits(c, s[1..]);
      SuitsCons(s[0], Insert(c, s[1..]));
      SuitsCons(s[0], s[1..]);
      assert s == [s[0]] + s[1..];
      var x := s[0].suit;
      assert multiset([x] + SuitsOf(Insert(c, s[1..]))) == multiset{x} + multiset(SuitsOf(Insert(c, s[1..])));
      assert multiset([x] + SuitsOf(s[1..])) == multiset{x} + multiset(SuitsOf(s[1..]));
    }
  }

  lemma {:induction false} InsertDescending(c: Card, s: seq<Card>)
    requires Descending(s)
    ensures Descending(Insert(c, s))
  {
    if s == [] || s[0].rank <= c.rank {
      forall y | y in s ensures y.rank <= c.rank {
        var j :| 0 <= j < |s| && s[j] == y;
      }
      ConsDescending(c, s);
    } else {
      InsertDescending(c, s[1..]);
      InsertMultiset(c, s[1..]);
      forall y | y in Insert(c, s[1..]) ensures y.rank <= s[0].rank {
        assert y in multiset(s[1..]) + multiset{c};
        if y != c {
          var j :| 0 <= j < |s[1..]| && s[1..][j] == y;
          assert s[j + 1] == y;
        }
      }
      ConsDescending(s[0], Insert(c, s[1..]));
    }
  }

  lemma WithRankCons(x: Card, t: seq<Card>, r: int)
    ensures WithRank([x] + t, r) == (if x.rank == r then [x] else []) + WithRank(t, r)
  {
    assert ([x] + t)[0] == x && ([x] + t)[1..] == t;
  }

  lemma OfSuitCons(x: Card, t: seq<Card>, u: char)
    ensures OfSuit([x] + t, u) == (if x.suit == u then [x] else []) + OfSuit(t, u)
  {
    assert ([x] + t)[0] == x && ([x] + t)[1..] == t;
  }

  /** Insertion keeps every rank's cards in order, c first among its equals. */
  lemma {:induction false} InsertWithRank(c: Card, s: seq<Card>, r: int)
    ensures WithRank(Insert(c, s), r) == (if c.rank == r then [c] else []) + WithRank(s, r)
  {
    if s == [] || s[0].rank <= c.rank {
      WithRankCons(c, s, r);
    } else {
      InsertWithRank(c, s[1..], r);
      WithRankCons(s[0], Insert(c, s[1..]), r);
      WithRankCons(s[0], s[1..], r);
      assert s == [s[0]] + s[1..];
    }
  }

  lemma InsertFront(c: Card, s: seq<Card>)
    requires forall y :: y in s ==> y.rank <= c.rank
    ensures Insert(c, s) == [c] + s
  {
    if s != [] { assert s[0] in s; }
  }

  /** Filtering by suit commutes with insertion into a sorted list. */
  lemma {:induction false} InsertOfSuit(c: Card, s: seq<Card>, u: char)
    requires Descending(s)
    ensures OfSuit(Insert(c, s), u) == if c.suit == u then Insert(c, OfSuit(s, u)) else OfSuit(s, u)
  {
    if s == [] || s[0].rank <= c.rank {
      OfSuitCons(c, s, u);
      OfSuitMembers(s, u);
      forall y | y in OfSuit(s, u) ensures y.rank <= c.rank {
        var j :| 0 <= j < |s| && s[j] == y;
      }
      InsertFront(c, OfSuit(s, u));
    } else {
      var s' := s[1..];
      assert s == [s[0]] + s';
      assert Insert(c, s) == [s[0]] + Insert(c, s');
      InsertOfSuit(c, s', u);
      OfSuitCons(s[0], Insert(c, s'), u);
      OfSuitCons(s[0], s', u);
      var t := OfSuit(s', u);
      if s[0].suit == u && c.suit == u {
        assert OfSuit(s, u) == [s[0]] + t;
        assert ([s[0]] + t)[0] == s[0] && ([s[0]] + t)[1..] == t;
        assert Insert(c, [s[0]] + t) == [s[0]] + Insert(c, t);
      } else if c.suit == u {
        assert OfSuit(s, u) == t;
        assert OfSuit(Insert(c, s), u) == OfSuit(Insert(c, s'), u);
        assert OfSuit(Insert(c, s'), u) == Insert(c, t);
      } else if s[0].suit == u {
        assert OfSuit(s, u) == [s[0]] + t;
        assert OfSuit(Insert(c, s), u) == [s[0]] + OfSuit(Insert(c, s'), u);
      } else {
        assert OfSuit(s, u) == t;
      }
    }
  }

  /** parse_cards sorts by non-increasing rank, keeps every card, and is stable:
      the cards of each rank come out in their input order. */
  lemma {:induction false} SortByRankSpec(s: seq<Card>)
    ensures Descending(SortByRank(s))
    ensures multiset(SortByRank(s)) == multiset(s)
    ensures forall r :: WithRank(SortByRank(s), r) == WithRank(s, r)
  {
    if s != [] {
      SortByRankSpec(s[1..]);
      InsertDescending(s[0], SortByRank(s[1..]));
      InsertMultiset(s[0], SortByRank(s[1..]));
      assert s == [s[0]] + s[1..];
      forall r ensures WithRank(SortByRank(s), r) == WithRank(s, r) {
        InsertWithRank(s[0], SortByRank(s[1..]), r);
      }
    }
  }

  /** Sorting keeps the multiset of ranks, and the ranks come out non-increasing. */
  lemma {:induction false} SortedRanks(s: seq<Card>)
    ensures multiset(Ranks(SortByRank(s))) == multiset(Ranks(s))
    ensures NonIncreasing(Ranks(SortByRank(s)))
  {
    SortByRankSpec(s);
    DescendingRanks(SortByRank(s));
    if s != [] {
      SortedRanks(s[1..]);
      InsertRanks(s[0], SortByRank(s[1..]));
      assert Ranks(s) == [s[0].rank as int] + Ranks(s[1..]);
    }
  }

  /** Sorting keeps the multiset of suits. */
  lemma {:induction false} SortedSuits(s: seq<Card>)
    ensures multiset(SuitsOf(SortByRank(s))) == multiset(SuitsOf(s))
  {
    if s != [] {
      SortedSuits(s[1..]);
      InsertSuits(s[0], SortByRank(s[1..]));
      assert SuitsOf(s) == [s[0].suit] + SuitsOf(s[1..]);
    }
  }

  /** A list already in descending rank order is left as it is. */
  lemma {:induction false} SortByRankFixed(s: seq<Card>)
    requires Descending(s)
    ensures SortByRank(s) == s
  {
    if s != [] {
      SortByRankFixed(s[1..]);
      if |s| > 1 { assert s[1..][0] == s[1]; }
      assert s == [s[0]] + s[1..];
    }
  }

  lemma WithRankHead(s: seq<Card>)
    ensures s != [] ==> WithRank(s, s[0].rank) != [] && WithRank(s, s[0].rank)[0] == s[0]
  {
  }

  /** A card of rank r in a list that agrees with b on rank r is in b. */
  lemma SharedCard(a: seq<Card>, b: seq<Card>, r: int, i: nat)
    requires i < |a| && a[i].rank == r
    requires WithRank(a, r) == WithRank(b, r)
    ensures a[i] in b
  {
    WithRankMembers(a, r);
    WithRankMembers(b, r);
    assert a[i] in WithRank(a, r);
  }

  /** Two non-empty descending lists that agree on the cards of every rank start alike. */
  lemma StableHead(a: seq<Card>, b: seq<Card>)
    requires a != [] && b != []
    requires Descending(a) && Descending(b)
    requires forall r :: WithRank(a, r) == WithRank(b, r)
    ensures a[0] == b[0]
  {
    var r, q := a[0].rank, b[0].rank;
    SharedCard(a, b, r, 0);
    SharedCard(b, a, q, 0);
    var j :| 0 <= j < |b| && b[j] == a[0];
    var i :| 0 <= i < |a| && a[i] == b[0];
    assert q >= r && r >= q;
    WithRankHead(a);
    WithRankHead(b);
    assert WithRank(a, r) == WithRank(b, r);
  }

  /** Two descending lists that agree on the cards of every rank are equal. */
  lemma {:induction false} StableUnique(a: seq<Card>, b: seq<Card>)
    requires Descending(a) && Descending(b)
    requires forall r :: WithRank(a, r) == WithRank(b, r)
    ensures a == b
  {
    WithRankHead(a);
    WithRankHead(b);
    if a != [] && b != [] {
      StableHead(a, b);
      forall k ensures WithRank(a[1..], k) == WithRank(b[1..], k) {
        WithRankCons(a[0], a[1..], k);
        WithRankCons(b[0], b[1..], k);
        assert a == [a[0]] + a[1..] && b == [b[0]] + b[1..];
        var h := if a[0].rank == k then [a[0]] else [];
        assert WithRank(a, k) == h + WithRank(a[1..], k);
        assert WithRank(b, k) == h + WithRank(b[1..], k);
        assert WithRank(a[1..], k) == WithRank(a, k)[|h|..];
        assert WithRank(b[1..], k) == WithRank(b, k)[|h|..];
      }
      StableUnique(a[1..], b[1..]);
      assert a == [a[0]] + a[1..] && b == [b[0]] + b[1..];
    }
  }

  /** parse_cards is the only stable descending sort: any descending list that keeps
      each rank's cards in input order is the sorted list. */
  lemma SortByRankUnique(s: seq<Card>, t: seq<Card>)
    requires Descending(t)
    requires forall r :: WithRank(t, r) == WithRank(s, r)
    ensures t == SortByRank(s)
  {
    SortByRankSpec(s);
    StableUnique(t, SortByRank(s));
  }

  /** Re-parsing parsed cards changes nothing. */
  lemma SortByRankIdempotent(s: seq<Card>)
    ensures SortByRank(SortByRank(s)) == SortByRank(s)
  {
    SortByRankSpec(s);
    SortByRankFixed(SortByRank(s));
  }

  lemma ParseCardsIdempotent(ts: seq<string>)
    requires ValidTokens(ts)
    ensures SortByRank(ParseCards(ts)) == ParseCards(ts)
  {
    SortByRankIdempotent(DecodeAll(ts));
  }

  /** Taking one suit's cards of the sorted list gives the sorted list of that suit's cards. */
  lemma {:induction false} SortOfSuit(s: seq<Card>, u: char)
    ensures OfSuit(SortByRank(s), u) == SortByRank(OfSuit(s, u))
  {
    if s != [] {
      SortOfSuit(s[1..], u);
      SortByRankSpec(s[1..]);
      InsertOfSuit(s[0], SortByRank(s[1..]), u);
      var t := OfSuit(s[1..], u);
      OfSuitCons(s[0], s[1..], u);
      assert s == [s[0]] + s[1..];
      assert SortByRank(s) == Insert(s[0], SortByRank(s[1..]));
      if s[0].suit == u {
        assert OfSuit(s, u) == [s[0]] + t;
        assert ([s[0]] + t)[0] == s[0] && ([s[0]] + t)[1..] == t;
        assert SortByRank([s[0]] + t) == Insert(s[0], SortByRank(t));
        assert OfSuit(SortByRank(s), u) == Insert(s[0], OfSuit(SortByRank(s[1..]), u));
      } else {
        assert OfSuit(s, u) == t;
        assert OfSuit(SortByRank(s), u) == OfSuit(SortByRank(s[1..]), u);
      }
    }
  }
}
