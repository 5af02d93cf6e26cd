# A verified model of a poker hand evaluator

`ranking.py` ranks a poker hand given as card tokens such as `"10d"` or `"Ks"`
(rank marker, then suit). It has four parts:

- `parse_cards` decodes the tokens into (rank, suit) cards and sorts them by
  descending rank. The sort is stable.
- `parse_and_count_cards` counts the cards of each rank in an insertion-ordered
  dictionary.
- Eight detectors each return a tie-break key, or None when their hand is absent:
  high card, n of a kind, two pairs, straight (with the ace-low wheel), flush,
  full house and straight flush.
- `rank_function` tries the detectors from the strongest down. It returns
  `(9 - i, key)` for the first detector `i` whose result is truthy.

The model keeps that structure, one Dafny module per part:

- `Seqs`: sequence helpers. These are counting (`Occ`), distinct values in first-seen
  order (`Distinct`), removal of values (`Outside`) and the "highest k of a pool"
  predicate `TopOf`.
- `Cards`: the `Card` datatype and token decoding. `parse_cards` is `ParseCards`,
  with `SortByRank`, an insertion sort. Its lemmas prove that it sorts, keeps
  every card and is stable. They also prove that it is the only stable
  descending sort and that it is idempotent.
- `Counting`: `parse_and_count_cards` as the loop method `ParseAndCount`. The
  ordered dictionary is its key order (a `seq`) plus a key-to-count `map`.
  `FirstAtLeast` is the "first key counted at least n times" scan that several
  detectors share.
- `Kinds`: `find_high_card`, `find_n_of_a_kind`, `find_two_pairs` and
  `find_full_house`. Each is a function, a loop method proved equal to it
  (where the source loops), and a characterisation lemma.
- `Straights`: `find_straight`, `find_flush` and `find_straight_flush`, in the
  same three forms.
- `Ranking`: `rank_function` as the function `RankHand` and the loop method
  `RankFunction`, with Python truthiness and Python's tuple order. It also models
  the sort of hands by rank, highest first (ranking.py:311), as `SortRanked`. That
  sort is stable: hands of equal rank keep their input order.
- `Examples`: every unit test of the detectors (ranking.py:144-270; `two_triples`
  is not a test) and every card set of the ranking test, with the result the
  test expects, proved from the general lemmas. It also holds the
  ranking test's order property, and a hand showing that the straight flush
  detector looks only at the first suit with five cards.

Ranks are the subset type `Rank` (2..14). A token is valid when it is non-empty
and its first character is `'1'` to `'9'`, `J`, `Q`, `K` or `A`. Only the first
character decides the rank, and `'1'` stands for 10. The suit is the last
character, kept as it is.

The detectors take decoded cards, not tokens. The unit tests pass
`parse_cards(tokens)`, which are already-decoded pairs, and `parse_cards`
leaves such pairs as they are (`ParseCardsIdempotent`). Each unit test is
stated on the decoded cards and on them sorted; `DetectorsSorted` relates the
two.

The ranking test passes the raw token lists to `rank_function` (ranking.py:307,
311). The model ranks their decoded cards, `RankHand(DecodeAll(tokens))`. Two
facts make that the same:
- every detector but the straight flush parses its argument first, and
  `RankParsed` shows that ranking the parsed tokens is ranking the decoded cards;
- `find_straight_flush` picks the tokens of a suit by their last character
  (ranking.py:121). That is the suit the decoding keeps, so
  `DecodeTokensOfSuit` and `StraightFlushTokens` show that on tokens it gives
  its result on the decoded cards.

The straight flush detector looks only at the first suit with five cards, in order of first appearance among the rank-sorted cards, and returns that suit's `find_straight` result even when it is None (ranking.py:118-121). The model reproduces this, `Examples.FirstSuitOnly` shows a hand where it matters, and `Straights.StraightFlushSmallHand` shows it cannot matter in a hand of at most nine cards.

## Model

| member | source | states |
|---|---|---|
| Cards.DecodeAll | ranking.py:16 | every token is decoded on its own, in its position |
| Cards.DecodeToken | ranking.py:9-16 | decoding inverts the token format: a card's token decodes back to that card |
| Cards.ParseCards | ranking.py:8-16 | parse_cards returns a permutation of the decoded cards, in non-increasing rank order, with each rank's cards in input order |
| Cards.SortByRankSpec | ranking.py:16 | the sort's result is descending, is a permutation of its input and keeps the input order among cards of equal rank |
| Cards.SortedRanks | ranking.py:16 | the sorted cards' ranks are the input's ranks, non-increasing |
| Cards.SortedSuits | ranking.py:16 | sorting keeps the multiset of suits |
| Cards.SortByRankFixed | ranking.py:16 | a list already in descending rank order is left unchanged |
| Cards.SortByRankUnique | ranking.py:16 | any descending list that keeps each rank's cards in input order is the sort's result |
| Cards.SortByRankIdempotent | ranking.py:16 | sorting sorted cards changes nothing |
| Cards.DecodeTokensOfSuit | ranking.py:121 | picking the tokens whose last character is u and decoding them gives the decoded cards of suit u |
| Cards.ParseCardsIdempotent | ranking.py:8-16 | parsing already-parsed cards returns them unchanged, which the tests rely on |
| Cards.SortOfSuit | ranking.py:16 | one suit's cards of the sorted list are that suit's cards sorted |
| Cards.OfSuitLength | ranking.py:118-121 | a suit has as many cards as it has occurrences |
| Counting.CountAgain | ranking.py:23-24 | count[r] += 1 on a key already present keeps the dictionary the count of the ranks seen |
| Counting.CountNew | ranking.py:25-26 | a new key with count 1 is appended to the key order and keeps the dictionary the count of the ranks seen |
| Counting.CountsDone | ranking.py:21-27 | after the loop, the keys are the distinct ranks in decreasing order and each count is the number of cards of that rank |
| Counting.ParseAndCount | ranking.py:19-27 | returns the parsed cards, their distinct ranks highest first as the dictionary order, and each rank's number of cards |
| Counting.FirstAtLeast | ranking.py:42-45 | None exactly when no key occurs n times; otherwise a key occurring at least n times |
| Counting.FirstAtLeastHighest | ranking.py:42-45 | over decreasing keys, the scan finds the highest value with at least n occurrences, and None exactly when there is none |
| Counting.WithCountHighest | ranking.py:57-59 | the ranks with exactly c cards, collected in key order, are decreasing and are all such ranks |
| Kinds.HighCard | ranking.py:30-32 | find_high_card is the min(5, n) highest ranks, highest first, and [] exactly for an empty hand |
| Kinds.FindNOfAKind | ranking.py:35-45 | the loop over the count dictionary returns find_n_of_a_kind's result |
| Kinds.NOfAKindSpec | ranking.py:35-45 | None exactly when no rank has n cards; otherwise the head is the highest rank with n or more cards, and the tail holds the 5 - n highest of the other cards, without that rank |
| Kinds.NOfAKindOfSpec | ranking.py:41-45 | the same, stated on the ranks of the sorted cards |
| Kinds.NOfAKindKickers | ranking.py:44 | the head is the dictionary's first key with n cards, and the kickers are the highest other ranks |
| Kinds.FindTwoPairs | ranking.py:48-64 | the loop with its early break returns find_two_pairs's result |
| Kinds.TakeWithCount | ranking.py:60-61 | breaking out once two pairs are found keeps the first two ranks with two cards |
| Kinds.TwoPairsSpec | ranking.py:48-64 | None exactly when fewer than two ranks have exactly two cards; otherwise the two highest such ranks, highest first, then the highest other card, which is missing exactly when the hand has four cards |
| Kinds.TwoPairsOfSpec | ranking.py:55-64 | the same, stated on the ranks of the sorted cards |
| Kinds.PairsHighest | ranking.py:57-59 | the ranks with exactly two cards come highest first |
| Kinds.TwoPairsKicker | ranking.py:62-64 | the key is the first two pairs plus at most one kicker, the highest card outside them |
| Kinds.KickerTop | ranking.py:64 | the kicker is the highest card whose rank is not one of the pairs |
| Kinds.KickerLength | ranking.py:64 | there is at most one kicker, and none exactly when the hand has four cards |
| Kinds.FindFullHouse | ranking.py:97-112 | the loop updating triple and pair returns find_full_house's result |
| Kinds.FullHouseStep | ranking.py:102-109 | one pass of the loop extends the triples and the pair candidates by the key at i |
| Kinds.TripleAt | ranking.py:105-107 | a rank with three cards becomes the triple exactly when no earlier key had three |
| Kinds.FullHousePair | ranking.py:103-109 | the pair is the highest rank with two cards, or with three cards and below the triple |
| Kinds.FullHouseSpec | ranking.py:97-112 | None exactly when no rank has three cards with a rank that can pair with it; otherwise the highest triple and the highest rank pairing with it, with four-card ranks ignored |
| Kinds.FullHouseOfSpec | ranking.py:100-112 | the same, stated on the ranks of the sorted cards |
| Straights.FirstRun | ranking.py:76-82 | a window found is a run of five counting down by one, present from the start index on |
| Straights.FindStraight | ranking.py:67-82 | the sliding-window loop returns find_straight's result |
| Straights.StraightRanksSpec | ranking.py:71-73 | the ranks scanned are strictly decreasing and are exactly the ranks present, with an ace also giving 1 |
| Straights.AceFirst | ranking.py:72 | in sorted ranks an ace is present exactly when it comes first |
| Straights.RunWindow | ranking.py:77-80 | a value with its four successors present starts a window of five counting down |
| Straights.FirstRunHighest | ranking.py:76-81 | the first window found has the highest top of any run |
| Straights.RunIffTop | ranking.py:76-81 | a run among the scanned ranks is exactly a straight of the hand |
| Straights.StraightTopRange | ranking.py:69 | a straight's top lies between 5 (the wheel) and 14 |
| Straights.StraightSpec | ranking.py:67-82 | None exactly when no straight is present; otherwise the highest top t with t..t-4 present, an ace counting as 1, and 5 <= t <= 14 |
| Straights.CountSuits | ranking.py:88-90 | the defaultdict loop counts every suit's cards |
| Straights.FirstCounted | ranking.py:91-92 | the scan over s, c, d, h finds the first suit with at least five cards |
| Straights.FindFlush | ranking.py:85-94 | the two loops return find_flush's result |
| Straights.FlushSpec | ranking.py:85-94 | None exactly when no suit has five cards; otherwise the first such suit in the order s, c, d, h gives exactly five ranks, its highest, highest first |
| Straights.FlushRanks | ranking.py:93 | the five ranks taken are the five highest of that suit |
| Straights.FindStraightFlush | ranking.py:115-122 | the loop over the Counter of suits returns find_straight_flush's result |
| Straights.FlushSuitCards | ranking.py:120-121 | a suit counted five times in the sorted list has five cards in the hand passed to find_straight |
| Straights.StraightFlushTokens | ranking.py:115-122 | find_straight_flush on tokens, as the ranking test calls it, equals find_straight_flush on their decoded cards |
| Straights.StraightFlushSound | ranking.py:115-122 | a straight flush found is the highest straight among the cards of a suit with five cards |
| Straights.StraightFlushOneSuit | ranking.py:118-122 | when only one suit can have five cards, the result is find_straight on that suit's cards, and None when it has fewer than five |
| Straights.NineCardsOneSuit | ranking.py:118-120 | in at most nine cards at most one suit has five |
| Straights.StraightFlushSmallHand | ranking.py:115-122 | in at most nine cards, None exactly when no suit's cards hold a straight; otherwise the highest straight in a suit |
| Ranking.RunDetector | ranking.py:138-139 | calling the i-th function of the list gives that detector's result |
| Ranking.RankFunction | ranking.py:125-141 | the loop with early return gives rank_function's result |
| Ranking.DetectTruthy | ranking.py:140 | a detector's result is truthy exactly when it is not None |
| Ranking.HighCardFound | ranking.py:135-141 | the high card detector finds something in every non-empty hand, so the loop always returns |
| Ranking.ScanFirst | ranking.py:138-141 | the loop stops at the first result that is not None |
| Ranking.ScanSome | ranking.py:138-141 | when the last result is truthy the loop returns the first truthy result |
| Ranking.ResultsHonest | ranking.py:126-141 | the results are truthy exactly when found, and the last is always found |
| Ranking.RankIs | ranking.py:125-141 | the hand's rank is (9 - k, key) for the first detector k that finds something |
| Ranking.RankSpec | ranking.py:125-141 | every non-empty hand gets a strength in 1..9, whose key is the result of the first detector that finds something |
| Ranking.RankAtLeast | ranking.py:125-141 | a hand is never ranked below the strongest category it satisfies |
| Ranking.RankByDetectors | ranking.py:125-141 | rank_function case by case: the strength and key follow from which detectors find nothing |
| Ranking.DetectorsSorted | ranking.py:8-16 | every detector gives the same result on a hand and on the hand parsed again |
| Ranking.StraightSorted | ranking.py:71 | find_straight sorts its cards itself, so sorting them first changes nothing |
| Ranking.StraightFlushSorted | ranking.py:118-121 | find_straight_flush gives the same result on the sorted hand |
| Ranking.RankSorted | ranking.py:125-141 | rank_function ranks a hand and the sorted hand alike |
| Ranking.RankParsed | ranking.py:8-16 | rank_function on the parsed tokens equals it on the decoded tokens |
| Ranking.LexGreaterAsymmetric | ranking.py:311 | Python list comparison is asymmetric |
| Ranking.GreaterAsymmetric | ranking.py:311 | the comparison of rank tuples is asymmetric |
| Ranking.InsertRankedSpec | ranking.py:311 | one insertion step keeps every hand and keeps the list not ascending |
| Ranking.InsertRankedStable | ranking.py:311 | an inserted hand goes in front of the hands of its own rank, and each rank's hands keep their order |
| Ranking.SortRankedStable | ranking.py:311 | the sort keeps the hands of each rank in their input order |
| Ranking.SortRankedSpec | ranking.py:311 | the sort keeps every hand, leaves no hand ranked above its predecessor, and is stable: the hands of each rank keep their input order |
| Ranking.SortRankedFixed | ranking.py:311-312 | hands listed strictly from the highest rank down come out of the sort in their listed order |
| Examples.HighCardEmpty | ranking.py:145-146 | find_high_card on no cards is [], as the test expects |
| Examples.HighCardLessThanFive | ranking.py:148-150 | find_high_card on the decoded tokens 5d Jh As, and on them sorted, is [14, 11, 5], as the test expects |
| Examples.HighCardMoreThanFive | ranking.py:152-154 | find_high_card on the decoded tokens 5d Jh As 10c 2c 2d 4d, and on them sorted, is [14, 11, 10, 5, 4], as the test expects |
| Examples.KindNotFound | ranking.py:158-160 | find_n_of_a_kind(2, _) on the decoded tokens 5d Jh As 10c 2c 3d 4d, and on them sorted, is None, as the test expects |
| Examples.KindOneResult | ranking.py:162-164 | find_n_of_a_kind(2, _) on the decoded tokens 5d Jh As 10c 2c 2d 4d, and on them sorted, is [2, 14, 11, 10], as the test expects |
| Examples.KindTwoResults | ranking.py:166-168 | find_n_of_a_kind(3, _) on the decoded tokens 5d 5c 5h 2s 2c 2d As, and on them sorted, is [5, 14, 2], as the test expects |
| Examples.KindBiggerN | ranking.py:170-172 | find_n_of_a_kind(4, _) on the decoded tokens 5d Jh As 10c 5c 5d 5d, and on them sorted, is [5, 14], as the test expects |
| Examples.TwoPairsNotFound | ranking.py:176-178 | find_two_pairs on the decoded tokens 5d Jh As 5c 2c 3d 4d, and on them sorted, is None, as the test expects |
| Examples.TwoPairsFound | ranking.py:180-182 | find_two_pairs on the decoded tokens 5d Jh As 5c 2c 2d 4d, and on them sorted, is [5, 2, 14], as the test expects |
| Examples.TwoPairsOnlyFourCards | ranking.py:184-186 | find_two_pairs on the decoded tokens 5d 5c 2c 2d, and on them sorted, is [5, 2], as the test expects |
| Examples.TwoPairsThreePairs | ranking.py:188-190 | find_two_pairs on the decoded tokens 5d 2h As 5c 2c Jd Jd, and on them sorted, is [11, 5, 14], as the test expects |
| Examples.StraightNotFound | ranking.py:194-196 | find_straight on the decoded tokens 4d 7h 2s 5c 7c 6d Qd, and on them sorted, is None, as the test expects |
| Examples.StraightWithDouble | ranking.py:198-200 | find_straight on the decoded tokens 4d 7h 8s 5c 7c 6d Qd, and on them sorted, is 8, as the test expects |
| Examples.StraightSixCards | ranking.py:202-204 | find_straight on the decoded tokens 4d 8h 3s 5c 7c 6d Qd, and on them sorted, is 8, as the test expects |
| Examples.StraightLowAce | ranking.py:206-208 | find_straight on the decoded tokens 4d 8h 3s 5c 2c 7d Ad, and on them sorted, is 5, as the test expects |
| Examples.StraightBetterThanLowAce | ranking.py:210-212 | find_straight on the decoded tokens 4d 8h 3s 5c 2c 6d Ad, and on them sorted, is 6, as the test expects |
| Examples.StraightNoLowKing | ranking.py:214-216 | find_straight on the decoded tokens Kd 8h 3s 4c 2c 7d Ad, and on them sorted, is None, as the test expects |
| Examples.FlushNotFound | ranking.py:220-222 | find_flush on the decoded tokens 10d 8d 3c 5h Qd 7d As, and on them sorted, is None, as the test expects |
| Examples.FlushFound | ranking.py:224-226 | find_flush on the decoded tokens 10d 8d 3d 5d Qd As, and on them sorted, is [12, 10, 8, 5, 3], as the test expects |
| Examples.FlushMoreThanFive | ranking.py:228-230 | find_flush on the decoded tokens 10d 8d 3d 5d Qd 7d As, and on them sorted, is [12, 10, 8, 7, 5], as the test expects |
| Examples.FullHouseNoTriple | ranking.py:234-236 | find_full_house on the decoded tokens 10d 10s 3c 3h Qd 7d As, and on them sorted, is None, as the test expects |
| Examples.FullHouseNoPair | ranking.py:238-240 | find_full_house on the decoded tokens 10d 10s 3c 10h Qd 7d As, and on them sorted, is None, as the test expects |
| Examples.FullHouseFound | ranking.py:242-244 | find_full_house on the decoded tokens 10d 10s 3d 5d 3h 3c As, and on them sorted, is [3, 10], as the test expects |
| Examples.FullHouseChooseBest | ranking.py:246-248 | find_full_house on the decoded tokens 10d 10s 3d Qd 3h 3c Qs, and on them sorted, is [3, 12], as the test expects |
| Examples.StraightFlushNoFlush | ranking.py:256-258 | find_straight_flush on the decoded tokens 2d 3d 4s 5c 6d 7d 8d, and on them sorted, is None, as the test expects |
| Examples.StraightFlushNoStraight | ranking.py:260-262 | find_straight_flush on the decoded tokens 10d 10d 3d 3d Qd 7d Ad, and on them sorted, is None, as the test expects |
| Examples.StraightFlushFound | ranking.py:264-266 | find_straight_flush on the decoded tokens 2d 3d 4d 5d 6d 7d 8c, and on them sorted, is 7, as the test expects |
| Examples.StraightFlushLowAce | ranking.py:268-270 | find_straight_flush on the decoded tokens 2d 3d 4d 5d 6c 7c Ad, and on them sorted, is 5, as the test expects |
| Examples.Reference1 | ranking.py:278 | rank_function ranks card set 1 of the ranking test (a straight flush) as strength 9 with key 14 |
| Examples.Reference2 | ranking.py:279 | rank_function ranks card set 2 of the ranking test (a straight flush) as strength 9 with key 13 |
| Examples.Reference3 | ranking.py:281 | rank_function ranks card set 3 of the ranking test (a four of a kind) as strength 8 with key [10, 14] |
| Examples.Reference4 | ranking.py:282 | rank_function ranks card set 4 of the ranking test (a four of a kind) as strength 8 with key [10, 13] |
| Examples.Reference5 | ranking.py:284 | rank_function ranks card set 5 of the ranking test (a full house) as strength 7 with key [14, 13] |
| Examples.Reference6 | ranking.py:285 | rank_function ranks card set 6 of the ranking test (a full house) as strength 7 with key [3, 13] |
| Examples.Reference7 | ranking.py:287 | rank_function ranks card set 7 of the ranking test (a flush) as strength 6 with key [13, 10, 7, 4, 3] |
| Examples.Reference8 | ranking.py:288 | rank_function ranks card set 8 of the ranking test (a flush) as strength 6 with key [12, 10, 7, 4, 3] |
| Examples.Reference9 | ranking.py:290 | rank_function ranks card set 9 of the ranking test (a straight) as strength 5 with key 7 |
| Examples.Reference10 | ranking.py:291 | rank_function ranks card set 10 of the ranking test (a straight) as strength 5 with key 5 |
| Examples.Reference11 | ranking.py:293 | rank_function ranks card set 11 of the ranking test (a three of a kind) as strength 4 with key [10, 14, 13] |
| Examples.Reference12 | ranking.py:294 | rank_function ranks card set 12 of the ranking test (a three of a kind) as strength 4 with key [10, 14, 12] |
| Examples.Reference13 | ranking.py:296 | rank_function ranks card set 13 of the ranking test (a two pairs) as strength 3 with key [10, 4, 13] |
| Examples.Reference14 | ranking.py:297 | rank_function ranks card set 14 of the ranking test (a two pairs) as strength 3 with key [10, 3, 14] |
| Examples.Reference15 | ranking.py:298 | rank_function ranks card set 15 of the ranking test (a two pairs) as strength 3 with key [10, 3, 6] |
| Examples.Reference16 | ranking.py:300 | rank_function ranks card set 16 of the ranking test (a pair) as strength 2 with key [10, 14, 6, 5] |
| Examples.Reference17 | ranking.py:301 | rank_function ranks card set 17 of the ranking test (a pair) as strength 2 with key [10, 13, 6, 5] |
| Examples.Reference18 | ranking.py:303 | rank_function ranks card set 18 of the ranking test (a high card) as strength 1 with key [14, 12, 10, 6, 5] |
| Examples.Reference19 | ranking.py:304 | rank_function ranks card set 19 of the ranking test (a high card) as strength 1 with key [13, 12, 10, 6, 5] |
| Examples.FirstSuitOnly | ranking.py:118-121 | for a ten-card hand whose sorted cards start with five spades holding no straight, find_straight_flush is None, although the five hearts form a straight topped by 8 |
| Examples.ReferenceRanksDescending | ranking.py:276-307 | each card set of the ranking test ranks strictly above the next |
| Examples.ReferenceOrder | ranking.py:307-312 | card sets ranked as the ranking test's are left in their listed order by sorted(card_sets, key=rank_function, reverse=True) |

## Left out

- The `print` of each rank and the `unittest` framework (ranking.py:307-309). The tests are used only for their data, as the `Examples` lemmas.
- `int()` raising on an unknown rank character (ranking.py:16). This is the precondition `ValidTokens` rather than an error path. The tokens' other characters are not checked, as in the source, where only the first and last characters are read.
- Leading characters that `int()` accepts but the model excludes: `'0'`, which gives a card of rank 0, and decimal digits outside ASCII, which give their digit's value. Ranks are 2..14 in the model, so such cards are not modelled. A hand with three rank-0 cards and a pair would show the difference, since the truthiness test on the triple (ranking.py:110) treats a triple of rank 0 as absent.
- Kinds.NOfAKind: requires 2 <= n <= 4, the range the docstring gives (ranking.py:36). Other n are not modelled.
- Ranking.RankHand, Straights.Straight, Ranking.RankFunction: require a non-empty hand. On an empty hand `find_straight` fails at `ranks[0]` (ranking.py:72) before the high card detector is reached, so `rank_function([])` never returns.
- `OrderedDict` and `Counter` are modelled as a key order plus a map. The detectors read them as a sequence of distinct keys in insertion order, which is `Distinct` of the sorted ranks or suits.
- `RankHand` computes every detector's result (`Results`) and then picks the first truthy one. The source stops at the first truthy result. The method `RankFunction` does stop there, and it is proved equal to `RankHand`. No detector has side effects, so the two agree.
- The skipped method `two_triples` (ranking.py:250), which is never run because its name lacks the `test_` prefix, is not encoded. Its expected value `[3, 12]` is not what the code yields.
- The `Examples` lemmas take a hand `h` equal, card by card, to the decoded tokens (`Same`, shown equivalent to sequence equality by `SameEq`), rather than applying the detectors to a literal. Each unit test is stated both for `h` and for `SortByRank(h)`. The test passes the latter, `parse_cards(tokens)`.
- Examples.ReferenceOrder: takes as hypotheses that each card set ranks as listed in `ReferenceRanks`, rather than decoding the card sets itself. `Examples.Reference1` to `Examples.Reference19` prove each of those hypotheses for the card set at its line.
- Strengths are 9 (straight flush) down to 1 (high card), as the code computes `9 - i` (ranking.py:141).
- The surrounding client, configuration and HTTP code of the repository is not part of this model.

