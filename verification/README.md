# pypoker five-card draw, modelled in Dafny

This project models the evaluator in `poker.py`, a small five-card-draw game for one player against the computer. It covers:

- building the 52-card deck;
- dealing cards from the front of the deck;
- replacing a card during the draw;
- sorting cards by rank with a stable sort;
- classifying a hand into one of the ten poker categories;
- comparing two hands.

Cards are immutable `(rank, suit)` values, and hands and decks are sequences. The Python code mutates its lists in place. The model returns the new list instead: `GetCards` returns the dealt cards together with the deck as the call leaves it, and `ReplaceCard` returns the updated hand.

Modules, one per file:

- `Wrappers` (wrappers.dfy): the `Result` type. A Python `raise` becomes a `Failure` carrying the error.
- `Cards` (cards.dfy):
  - ranks, suits and cards;
  - `RANK_POWER` as `Power` and as the literal table `RankPowerTable`;
  - the helper views `Ranks`, `Powers` and `SuitSet`.
- `Deck` (deck.dfy): `get_deck` without its shuffle (`BuildDeck`), the shuffle as an arbitrary permutation, and `get_cards` (`GetCards`).
- `Sorting` (sorting.dfy):
  - `sort_cards` as a stable insertion sort (`SortCards`);
  - proofs that it permutes its input, orders it by power, keeps equal ranks in input order and ignores suits;
  - proof that any stable sort by power gives the same sequence.
- `Categories` (categories.dfy): the ten categories and `HAND_POWER`.
- `PokerRules` (poker_rules.dfy): an independent reference classification. It is defined on the multiset of ranks (how many cards of each rank) and the set of suits, not on positions.
- `Classifier` (classifier.dfy):
  - `determine_hand` as the same first-match decision list over the sorted top five (`DetermineHand`), with Python's chained `==` written out as conjunctions;
  - proof that it agrees with `PokerRules`;
  - proof that for five cards it is independent of the order of the cards.
- `Replacement` (replacement.dfy): `replace_card`.
- `Comparator` (comparator.dfy): `compare_hands`, with the category comparison followed by the positional sum Σ power_i·10^i over the ascending top five, exactly as written.
- `HandExamples`, `CompareExamples`, `SixCards` (hand_examples.dfy, compare_examples.dfy, six_cards.dfy):
  - the hands of the `determine_hand` and `compare_hands` test tables, each proved for every ordering of its cards;
  - concrete hands that show how the tiebreak sum behaves;
  - a six-card hand whose category depends on card order.

## Model

| member | source | states |
|---|---|---|
| Cards.RankPowerTableAgrees | poker.py:4-18 | `Power` gives every rank its `RANK_POWER` value, and the table's keys are exactly the 13 rank symbols |
| Cards.PowerBijective | poker.py:4-18 | rank powers lie in 2..14, no two ranks share a power, and every power in 2..14 belongs to a rank |
| Cards.AllRanksAscending | poker.py:45 | the rank list the deck loop runs over has 13 entries, in increasing power, each rank exactly once |
| Cards.RanksOfPermutation | poker.py:101 | two hands with the same cards have the same multiset of ranks |
| Cards.SuitsOfPermutation | poker.py:102 | two hands with the same cards have the same suit set |
| Deck.BuildDeck | poker.py:43-47 | the unshuffled deck has 52 distinct cards, one for every rank and suit; card 4·i+j has the i-th rank and the j-th suit |
| Deck.ShuffleKeepsFullDeck | poker.py:49 | any permutation of a full deck, which is all a shuffle can produce, is again a full deck |
| Deck.GetCards | poker.py:65-73 | n ≤ 0 fails with "n must be > 0!"; 0 < n and n > len(deck) fails with "n must be <= len(deck)!"; a deal succeeds exactly when 0 < n ≤ len(deck); on failure the deck is unchanged; on success n cards are dealt and the dealt cards followed by the remaining deck are the old deck |
| Deck.Message | poker.py:66-69 | every deal error carries one of the two messages "n must be > 0!" and "n must be <= len(deck)!" |
| Deck.MessagesDistinguishErrors | poker.py:66-69 | two deal errors carry the same message exactly when they are the same error |
| Deck.DealSplitsDeck | poker.py:71-72 | dealing from a deck without duplicates loses and duplicates no card: the dealt cards and the remaining deck split the old deck's multiset and share no card |
| Deck.SuccessiveDealsDisjoint | poker.py:202-204 | the computer's and the user's five-card hands, dealt one after the other from a deck without duplicates, share no card |
| Deck.GetCardsExamples | test_poker.py:23-79 | the get_cards test table: the two successful deals with their remaining decks, and the four failures with their errors |
| Sorting.SortCards | poker.py:86 | the result has the input's length, is ordered by rank power, and lists the cards of each rank in their input order (stability) |
| Sorting.SortCardsPermutes | poker.py:86 | sort_cards returns a permutation of its input |
| Sorting.StableSortUnique | poker.py:86 | any sequence ordered by power that keeps each rank's cards in input order equals `SortCards`, so the model fixes Python's stable `sorted` exactly |
| Sorting.SortIgnoresSuits | poker.py:86 | changing suits, or any change that keeps every card's rank, commutes with sorting: suit never influences position |
| Sorting.SortedRanksOfPermutation | poker.py:86 | sorting two permutations of the same cards gives the same rank sequence |
| Sorting.SortCardsExampleSorted | test_poker.py:84-88 | the already sorted test hand sorts to itself |
| Sorting.SortCardsExampleReversed | test_poker.py:89-93 | the reversed test hand sorts to the expected order |
| Sorting.SortCardsExampleShuffled | test_poker.py:94-98 | the shuffled test hand sorts to the expected order |
| Categories.HandPowerTableAgrees | poker.py:20-31 | every category name is a key of `HAND_POWER` with the category's strength, and every key names a category |
| Categories.StrengthIsInjective | poker.py:20-31 | strengths lie in 0..9 and distinct categories have distinct strengths |
| Classifier.TopFive | poker.py:99 | the cut hand has five cards, is ordered by power, no dropped card outranks a kept one, and kept and dropped cards together are exactly the cards of the hand |
| Classifier.ClassifySorted | poker.py:107-136 | on five ranks and a suit set, the decision list picks a flush-family category exactly when there is one suit, and royal flush exactly when there is one suit and the ranks are 10 J Q K A |
| Classifier.DetermineHand | poker.py:99-136 | the result is royal flush, straight flush or flush exactly when the top five share one suit |
| Classifier.FourPatternIsFourOfARank | poker.py:117-118 | on ascending ranks, the positional four-of-a-kind test holds exactly when some rank occurs at least four times |
| Classifier.FullHousePatternIsThreeAndTwo | poker.py:120-121 | if the four-of-a-kind test failed, the full-house test holds exactly when one rank occurs three times and another twice |
| Classifier.StepsOfOneIsRun | poker.py:123-124 | on ascending ranks, the chained difference test holds exactly when the ranks are five consecutive powers |
| Classifier.RunIsConsecutive | poker.py:123-124 | ascending ranks forming a run starting at power lo have powers lo, lo+1, …, lo+4 |
| Classifier.RoyalRanksIsRunFromTen | poker.py:108-109 | on ascending ranks, equality with 10 J Q K A holds exactly when the ranks are the run starting at ten |
| Classifier.ThreePatternIsThreeOfARank | poker.py:126-127 | if the four-of-a-kind test failed, the three-of-a-kind test holds exactly when some rank occurs three times |
| Classifier.TwoPairPatternIsTwoPairs | poker.py:129-130 | if the three-of-a-kind test failed, the two-pairs test holds exactly when two distinct ranks occur twice each |
| Classifier.PairPatternIsPair | poker.py:132-133 | if the three-of-a-kind test failed, the pair test holds exactly when some rank occurs twice |
| Classifier.ClassifySortedFollowsPokerRules | poker.py:107-136 | on ascending ranks, the decision list gives the same category as the count-based reference classification |
| Classifier.DetermineHandFollowsPokerRules | poker.py:99-136 | determine_hand equals the reference classification of its top five's rank multiset and suit set |
| Classifier.DetermineHandOrderIndependent | poker.py:99-105 | two five-card hands holding the same cards get the same category |
| Classifier.DetermineHandNamesAKey | poker.py:99-136 | the category name returned is always a key of `HAND_POWER` |
| Classifier.NoAceLowStraight | poker.py:123-124 | a top five of A 2 3 4 5 in mixed suits is high card, not a straight |
| Classifier.DetermineHandOfTopFive | poker.py:147-148 | cutting the top five is idempotent, so classifying the cut hand gives the category of the whole hand |
| HandExamples.RoyalFlushExample | test_poker.py:106-110 | every ordering of this test hand is classified as royal flush, and the ranks of its top five are the sorted test ranks |
| HandExamples.StraightFlushExample | test_poker.py:111-115 | every ordering of this test hand is classified as straight flush, and the ranks of its top five are the sorted test ranks |
| HandExamples.FlushExample | test_poker.py:116-120 | every ordering of this test hand is classified as flush, and the ranks of its top five are the sorted test ranks |
| HandExamples.FourOfAKind1Example | test_poker.py:121-125 | every ordering of this test hand is classified as four of a kind, and the ranks of its top five are the sorted test ranks |
| HandExamples.FourOfAKind2Example | test_poker.py:126-130 | every ordering of this test hand is classified as four of a kind, and the ranks of its top five are the sorted test ranks |
| HandExamples.FullHouse1Example | test_poker.py:131-135 | every ordering of this test hand is classified as full house, and the ranks of its top five are the sorted test ranks |
| HandExamples.FullHouse2Example | test_poker.py:136-140 | every ordering of this test hand is classified as full house, and the ranks of its top five are the sorted test ranks |
| HandExamples.StraightExample | test_poker.py:141-145 | every ordering of this test hand is classified as straight, and the ranks of its top five are the sorted test ranks |
| HandExamples.ThreeOfAKind1Example | test_poker.py:146-150 | every ordering of this test hand is classified as three of a kind, and the ranks of its top five are the sorted test ranks |
| HandExamples.ThreeOfAKind2Example | test_poker.py:151-155 | every ordering of this test hand is classified as three of a kind, and the ranks of its top five are the sorted test ranks |
| HandExamples.ThreeOfAKind3Example | test_poker.py:156-160 | every ordering of this test hand is classified as three of a kind, and the ranks of its top five are the sorted test ranks |
| HandExamples.TwoPairs1Example | test_poker.py:161-165 | every ordering of this test hand is classified as two pairs, and the ranks of its top five are the sorted test ranks |
| HandExamples.TwoPairs2Example | test_poker.py:166-170 | every ordering of this test hand is classified as two pairs, and the ranks of its top five are the sorted test ranks |
| HandExamples.TwoPairs3Example | test_poker.py:171-175 | every ordering of this test hand is classified as two pairs, and the ranks of its top five are the sorted test ranks |
| HandExamples.Pair1Example | test_poker.py:176-180 | every ordering of this test hand is classified as pair, and the ranks of its top five are the sorted test ranks |
| HandExamples.Pair2Example | test_poker.py:181-185 | every ordering of this test hand is classified as pair, and the ranks of its top five are the sorted test ranks |
| HandExamples.Pair3Example | test_poker.py:186-190 | every ordering of this test hand is classified as pair, and the ranks of its top five are the sorted test ranks |
| HandExamples.Pair4Example | test_poker.py:191-195 | every ordering of this test hand is classified as pair, and the ranks of its top five are the sorted test ranks |
| HandExamples.HighCardExample | test_poker.py:196-200 | every ordering of this test hand is classified as high card, and the ranks of its top five are the sorted test ranks |
| HandExamples.FullHouseOfTensExample | test_poker.py:243 | every ordering of this hand is classified as full house; its top-five ranks are fixed |
| HandExamples.RoyalFlushOfHeartsExample | test_poker.py:255 | every ordering of this hand is classified as royal flush; its top-five ranks are fixed |
| HandExamples.PairOfFivesAceHighExample | poker.py:132-133 | every ordering of this hand is classified as pair; its top-five ranks are fixed |
| HandExamples.PairOfSixesSixHighExample | poker.py:132-133 | every ordering of this hand is classified as pair; its top-five ranks are fixed |
| HandExamples.AcesAndQueensExample | poker.py:129-130 | every ordering of this hand is classified as two pairs; its top-five ranks are fixed |
| HandExamples.AcesAndKingsExample | poker.py:129-130 | every ordering of this hand is classified as two pairs; its top-five ranks are fixed |
| Replacement.IndexOf | poker.py:160 | the index list.index finds holds the card, and no earlier position does |
| Replacement.ReplaceCard | poker.py:160 | replacement fails exactly when the card is absent; otherwise the length is unchanged, the first occurrence now holds the new card, and every other position is unchanged |
| Replacement.ReplaceExchangesOneCard | poker.py:160 | the hand loses one copy of the old card and gains the new one |
| Replacement.ReplaceKeepsNoDuplicates | poker.py:160 | replacing a card in a hand without duplicates by a card the hand lacks keeps it without duplicates |
| Replacement.ReplaceUndo | poker.py:160 | replacing the new card back by the old one restores the original hand |
| Replacement.ReplaceCardExample | test_poker.py:227-233 | the test case: Q♣ in 10♣ J♣ Q♣ K♣ A♣ becomes K♥ at the same position |
| Comparator.WeightedSumBounds | poker.py:187-188 | a weighted sum of rank powers lies between 2 and 14 times the repunit |
| Comparator.TieBreak | poker.py:185-188 | the tiebreak sum of a hand lies in 22222..155554 |
| Comparator.TieBreakIgnoresSuits | poker.py:185-188 | changing any cards of a hand in a way that keeps every rank leaves the tiebreak sum unchanged: suits never enter it |
| Comparator.HandPower | poker.py:176-177 | the `HAND_POWER` lookup of a hand's category is its strength, in 0..9 |
| Comparator.CompareHands | poker.py:176-196 | the code is 0, 1 or 2; a higher category wins whatever the ranks; 2 exactly when both category and sum are equal; with equal categories the larger sum wins |
| Comparator.CompareMeansBeats | poker.py:176-196 | code 0 exactly when the first hand beats the second in the lexicographic (strength, sum) order, and code 1 exactly when the second beats the first |
| Comparator.CompareSwap | poker.py:176-196 | swapping the hands exchanges 0 and 1 and keeps 2 |
| Comparator.CompareSelf | poker.py:176-196 | a hand compared with itself is a draw |
| Comparator.CompareTransitive | poker.py:176-196 | if a beats b and b beats c, then a beats c |
| Comparator.DrawTransitive | poker.py:176-196 | a draw between a and b and between b and c is a draw between a and c |
| Comparator.TopFiveRanksOfPermutation | poker.py:185-186 | five-card hands holding the same cards have the same top-five ranks |
| Comparator.CompareOrderIndependent | poker.py:176-196 | reordering the cards of five-card hands never changes the comparison |
| CompareExamples.RoyalFlushBeatsFullHouse | test_poker.py:241-252 | the test's royal flush beats its full house (code 0), and with the hands swapped the code is 1 |
| CompareExamples.RoyalFlushesDraw | test_poker.py:253-258 | royal flushes in clubs and in hearts draw (code 2) |
| CompareExamples.HighKickersOutweighHigherPair | poker.py:185-194 | a pair of fives with A K Q (sum 154255) beats a pair of sixes with 2 3 4 (sum 66432): the sum, not the pair's rank, decides |
| CompareExamples.TieBreakCollision | poker.py:185-196 | aces and queens with a king and aces and kings with a two have different ranks but both sum to 155432, so they draw |
| SixCards.ClubTwoFirstIsStraight | poker.py:99-124 | 2♣ 3♣ 4♣ 5♣ 6♣ 2♦ loses the 2♣ at the cut and is a straight |
| SixCards.DiamondTwoFirstIsStraightFlush | poker.py:99-112 | 2♦ 3♣ 4♣ 5♣ 6♣ 2♣ loses the 2♦ at the cut and is a straight flush |
| SixCards.SixCardOrderMatters | poker.py:99 | the same six cards in two orders receive different categories |

## Left out

- The randomness of `shuffle` in `get_deck` (poker.py:49). It uses the global random generator. The model proves only that any permutation of the full deck is still a full deck.
- `print_hand` (poker.py:139-148). It is console output in the format of Python's list repr. Only its use of `determine_hand` on the cut hand is covered, by `Classifier.DetermineHandOfTopFive`.
- `main` (poker.py:199-225) and `lab.py`. These are the interactive `input()` loop and result printing. Only the deal pattern of `main` appears, in `Deck.SuccessiveDealsDisjoint`.
- The in-place mutations of `get_cards` and `replace_card`. They are modelled as returned values: the deck after the call, and the updated hand.
- The `ValueError` that `list.index` raises in `replace_card` when the card is absent (poker.py:160). It is modelled as `Failure(NotFound)` in exactly that case. Its message is left out, because the text comes from the Python runtime, not from this code.
- Hands of fewer than five cards. `determine_hand` fails on the tuple unpacking and `compare_hands` inherits that failure, so both carry the precondition `|hand| >= 5`.
- Order independence for six or more cards. It does not hold, as `SixCards.SixCardOrderMatters` shows, so it is proved for exactly five cards.
