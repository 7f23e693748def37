// The hands of the determine_hand test table, each shown to be classified as the
// table expects for every order in which its five cards may arrive (the tests
// shuffle each hand before classifying it), and a few more hands that the
// compare_hands examples use. Each example also records the ranks of the top
// five, which the tiebreak sum is computed from.
//
// Each hand takes three lemmas that differ only in their literals: the
// insertion chain that sorts it, the ranks, suits and category of the sorted
// hand, and the example itself. The solver evaluates each of the first two
// cheaply on its own, but runs out of resources when the same literal
// evaluations are combined in one proof, or when the classified hand appears
// as a literal in the goal; hence the split, and the example is stated for a
// hand h given by its cards rather than for the literal.
module HandExamples {
  import opened Cards
  import opened Sorting
  import opened Categories
  import opened Classifier

  /** Reduces the classification of a literal five-card hand to its sorted form. */
  lemma DetermineFive(hand: seq<Card>, sorted: seq<Card>, ranks: seq<Rank>, suits: set<Suit>)
    requires |hand| == 5
    requires Insert(hand[0], Insert(hand[1], Insert(hand[2], Insert(hand[3], Insert(hand[4], []))))) == sorted
    requires Ranks(sorted) == ranks && SuitSet(sorted) == suits
    ensures |ranks| == 5
    ensures DetermineHand(hand) == ClassifySorted(ranks, suits)
    ensures Ranks(TopFive(hand)) == ranks
  {
    assert hand == [hand[0], hand[1], hand[2], hand[3], hand[4]];
    SortFive(hand[0], hand[1], hand[2], hand[3], hand[4]);
    assert TopFive(hand) == sorted;
  }

  /** With exactly five cards the top five are the whole sorted hand. */
  lemma FiveCardsAreTopFive(hand: seq<Card>)
    requires |hand| == 5
    ensures TopFive(hand) == SortCards(hand)
  {
    assert SortCards(hand)[0..] == SortCards(hand);
  }

  /** The stable sort of the `royal flush` hand. */
  lemma RoyalFlushSorted()
    ensures Insert(Card(Ten, Clubs), Insert(Card(Jack, Clubs), Insert(Card(Queen, Clubs), Insert(Card(King, Clubs), Insert(Card(Ace, Clubs), [])))))
         == [Card(Ten, Clubs), Card(Jack, Clubs), Card(Queen, Clubs), Card(King, Clubs), Card(Ace, Clubs)]
  {}

  /** The ranks and suits of the sorted `royal flush` hand, and their category. */
  lemma RoyalFlushClassified()
    ensures Ranks([Card(Ten, Clubs), Card(Jack, Clubs), Card(Queen, Clubs), Card(King, Clubs), Card(Ace, Clubs)]) == [Ten, Jack, Queen, King, Ace]
    ensures SuitSet([Card(Ten, Clubs), Card(Jack, Clubs), Card(Queen, Clubs), Card(King, Clubs), Card(Ace, Clubs)]) == {Clubs}
    ensures ClassifySorted([Ten, Jack, Queen, King, Ace], {Clubs}) == RoyalFlush
  {}

  /** The `royal flush` hand is classified as royal flush, in whatever order it is dealt. */
  lemma RoyalFlushExample(h: seq<Card>)
    requires |h| == 5 && multiset(h) == multiset([Card(Ten, Clubs), Card(Jack, Clubs), Card(Queen, Clubs), Card(King, Clubs), Card(Ace, Clubs)])
    ensures DetermineHand(h) == RoyalFlush
    ensures Ranks(TopFive(h)) == [Ten, Jack, Queen, King, Ace]
  {
    RoyalFlushSorted();
    RoyalFlushClassified();
    var hand := [Card(Ten, Clubs), Card(Jack, Clubs), Card(Queen, Clubs), Card(King, Clubs), Card(Ace, Clubs)];
    DetermineFive(hand, [Card(Ten, Clubs), Card(Jack, Clubs), Card(Queen, Clubs), Card(King, Clubs), Card(Ace, Clubs)], [Ten, Jack, Queen, King, Ace], {Clubs});
    DetermineHandOrderIndependent(h, hand);
    SortedRanksOfPermutation(h, hand);
    FiveCardsAreTopFive(h);
    FiveCardsAreTopFive(hand);
  }

  /** The stable sort of the `straight flush` hand. */
  lemma StraightFlushSorted()
    ensures Insert(Card(Four, Clubs), Insert(Card(Five, Clubs), Insert(Card(Six, Clubs), Insert(Card(Seven, Clubs), Insert(Card(Eight, Clubs), [])))))
         == [Card(Four, Clubs), Card(Five, Clubs), Card(Six, Clubs), Card(Seven, Clubs), Card(Eight, Clubs)]
  {}

  /** The ranks and suits of the sorted `straight flush` hand, and their category. */
  lemma StraightFlushClassified()
    ensures Ranks([Card(Four, Clubs), Card(Five, Clubs), Card(Six, Clubs), Card(Seven, Clubs), Card(Eight, Clubs)]) == [Four, Five, Six, Seven, Eight]
    ensures SuitSet([Card(Four, Clubs), Card(Five, Clubs), Card(Six, Clubs), Card(Seven, Clubs), Card(Eight, Clubs)]) == {Clubs}
    ensures ClassifySorted([Four, Five, Six, Seven, Eight], {Clubs}) == StraightFlush
  {}

  /** The `straight flush` hand is classified as straight flush, in whatever order it is dealt. */
  lemma StraightFlushExample(h: seq<Card>)
    requires |h| == 5 && multiset(h) == multiset([Card(Four, Clubs), Card(Five, Clubs), Card(Six, Clubs), Card(Seven, Clubs), Card(Eight, Clubs)])
    ensures DetermineHand(h) == StraightFlush
    ensures Ranks(TopFive(h)) == [Four, Five, Six, Seven, Eight]
  {
    StraightFlushSorted();
    StraightFlushClassified();
    var hand := [Card(Four, Clubs), Card(Five, Clubs), Card(Six, Clubs), Card(Seven, Clubs), Card(Eight, Clubs)];
    DetermineFive(hand, [Card(Four, Clubs), Card(Five, Clubs), Card(Six, Clubs), Card(Seven, Clubs), Card(Eight, Clubs)], [Four, Five, Six, Seven, Eight], {Clubs});
    DetermineHandOrderIndependent(h, hand);
    SortedRanksOfPermutation(h, hand);
    FiveCardsAreTopFive(h);
    FiveCardsAreTopFive(hand);
  }

  /** The stable sort of the `flush` hand. */
  lemma FlushSorted()
    ensures Insert(Card(Two, Clubs), Insert(Card(Seven, Clubs), Insert(Card(Eight, Clubs), Insert(Card(Jack, Clubs), Insert(Card(Ace, Clubs), [])))))
         == [Card(Two, Clubs), Card(Seven, Clubs), Card(Eight, Clubs), Card(Jack, Clubs), Card(Ace, Clubs)]
  {}

  /** The ranks and suits of the sorted `flush` hand, and their category. */
  lemma FlushClassified()
    ensures Ranks([Card(Two, Clubs), Card(Seven, Clubs), Card(Eight, Clubs), Card(Jack, Clubs), Card(Ace, Clubs)]) == [Two, Seven, Eight, Jack, Ace]
    ensures SuitSet([Card(Two, Clubs), Card(Seven, Clubs), Card(Eight, Clubs), Card(Jack, Clubs), Card(Ace, Clubs)]) == {Clubs}
    ensures ClassifySorted([Two, Seven, Eight, Jack, Ace], {Clubs}) == Flush
  {}

  /** The `flush` hand is classified as flush, in whatever order it is dealt. */
  lemma FlushExample(h: seq<Card>)
    requires |h| == 5 && multiset(h) == multiset([Card(Two, Clubs), Card(Seven, Clubs), Card(Eight, Clubs), Card(Jack, Clubs), Card(Ace, Clubs)])
    ensures DetermineHand(h) == Flush
    ensures Ranks(TopFive(h)) == [Two, Seven, Eight, Jack, Ace]
  {
    FlushSorted();
    FlushClassified();
    var hand := [Card(Two, Clubs), Card(Seven, Clubs), Card(Eight, Clubs), Card(Jack, Clubs), Card(Ace, Clubs)];
    DetermineFive(hand, [Card(Two, Clubs), Card(Seven, Clubs), Card(Eight, Clubs), Card(Jack, Clubs), Card(Ace, Clubs)], [Two, Seven, Eight, Jack, Ace], {Clubs});
    DetermineHandOrderIndependent(h, hand);
    SortedRanksOfPermutation(h, hand);
    FiveCardsAreTopFive(h);
    FiveCardsAreTopFive(hand);
  }

  /** The stable sort of the `four of a kind-1` hand. */
  lemma FourOfAKind1Sorted()
    ensures Insert(Card(Four, Clubs), Insert(Card(Four, Hearts), Insert(Card(Four, Diamonds), Insert(Card(Four, Spades), Insert(Card(Ace, Spades), [])))))
         == [Card(Four, Clubs), Card(Four, Hearts), Card(Four, Diamonds), Card(Four, Spades), Card(Ace, Spades)]
  {}

  /** The ranks and suits of the sorted `four of a kind-1` hand, and their category. */
  lemma FourOfAKind1Classified()
    ensures Ranks([Card(Four, Clubs), Card(Four, Hearts), Card(Four, Diamonds), Card(Four, Spades), Card(Ace, Spades)]) == [Four, Four, Four, Four, Ace]
    ensures SuitSet([Card(Four, Clubs), Card(Four, Hearts), Card(Four, Diamonds), Card(Four, Spades), Card(Ace, Spades)]) == {Clubs, Hearts, Diamonds, Spades}
    ensures ClassifySorted([Four, Four, Four, Four, Ace], {Clubs, Hearts, Diamonds, Spades}) == FourOfAKind
  {}

  /** The `four of a kind-1` hand is classified as four of a kind, in whatever order it is dealt. */
  lemma FourOfAKind1Example(h: seq<Card>)
    requires |h| == 5 && multiset(h) == multiset([Card(Four, Clubs), Card(Four, Hearts), Card(Four, Diamonds), Card(Four, Spades), Card(Ace, Spades)])
    ensures DetermineHand(h) == FourOfAKind
    ensures Ranks(TopFive(h)) == [Four, Four, Four, Four, Ace]
  {
    FourOfAKind1Sorted();
    FourOfAKind1Classified();
    var hand := [Card(Four, Clubs), Card(Four, Hearts), Card(Four, Diamonds), Card(Four, Spades), Card(Ace, Spades)];
    DetermineFive(hand, [Card(Four, Clubs), Card(Four, Hearts), Card(Four, Diamonds), Card(Four, Spades), Card(Ace, Spades)], [Four, Four, Four, Four, Ace], {Clubs, Hearts, Diamonds, Spades});
    DetermineHandOrderIndependent(h, hand);
    SortedRanksOfPermutation(h, hand);
    FiveCardsAreTopFive(h);
    FiveCardsAreTopFive(hand);
  }

  /** The stable sort of the `four of a kind-2` hand. */
  lemma FourOfAKind2Sorted()
    ensures Insert(Card(Two, Clubs), Insert(Card(Ace, Clubs), Insert(Card(Ace, Diamonds), Insert(Card(Ace, Hearts), Insert(Card(Ace, Spades), [])))))
         == [Card(Two, Clubs), Card(Ace, Clubs), Card(Ace, Diamonds), Card(Ace, Hearts), Card(Ace, Spades)]
  {}

  /** The ranks and suits of the sorted `four of a kind-2` hand, and their category. */
  lemma FourOfAKind2Classified()
    ensures Ranks([Card(Two, Clubs), Card(Ace, Clubs), Card(Ace, Diamonds), Card(Ace, Hearts), Card(Ace, Spades)]) == [Two, Ace, Ace, Ace, Ace]
    ensures SuitSet([Card(Two, Clubs), Card(Ace, Clubs), Card(Ace, Diamonds), Card(Ace, Hearts), Card(Ace, Spades)]) == {Clubs, Diamonds, Hearts, Spades}
    ensures ClassifySorted([Two, Ace, Ace, Ace, Ace], {Clubs, Diamonds, Hearts, Spades}) == FourOfAKind
  {}

  /** The `four of a kind-2` hand is classified as four of a kind, in whatever order it is dealt. */
  lemma FourOfAKind2Example(h: seq<Card>)
    requires |h| == 5 && multiset(h) == multiset([Card(Two, Clubs), Card(Ace, Clubs), Card(Ace, Diamonds), Card(Ace, Hearts), Card(Ace, Spades)])
    ensures DetermineHand(h) == FourOfAKind
    ensures Ranks(TopFive(h)) == [Two, Ace, Ace, Ace, Ace]
  {
    FourOfAKind2Sorted();
    FourOfAKind2Classified();
    var hand := [Card(Two, Clubs), Card(Ace, Clubs), Card(Ace, Diamonds), Card(Ace, Hearts), Card(Ace, Spades)];
    DetermineFive(hand, [Card(Two, Clubs), Card(Ace, Clubs), Card(Ace, Diamonds), Card(Ace, Hearts), Card(Ace, Spades)], [Two, Ace, Ace, Ace, Ace], {Clubs, Diamonds, Hearts, Spades});
    DetermineHandOrderIndependent(h, hand);
    SortedRanksOfPermutation(h, hand);
    FiveCardsAreTopFive(h);
    FiveCardsAreTopFive(hand);
  }

  /** The stable sort of the `full house-1` hand. */
  lemma FullHouse1Sorted()
    ensures Insert(Card(Ten, Diamonds), Insert(Card(Ten, Clubs), Insert(Card(Jack, Diamonds), Insert(Card(Jack, Hearts), Insert(Card(Jack, Spades), [])))))
         == [Card(Ten, Diamonds), Card(Ten, Clubs), Card(Jack, Diamonds), Card(Jack, Hearts), Card(Jack, Spades)]
  {}

  /** The ranks and suits of the sorted `full house-1` hand, and their category. */
  lemma FullHouse1Classified()
    ensures Ranks([Card(Ten, Diamonds), Card(Ten, Clubs), Card(Jack, Diamonds), Card(Jack, Hearts), Card(Jack, Spades)]) == [Ten, Ten, Jack, Jack, Jack]
    ensures SuitSet([Card(Ten, Diamonds), Card(Ten, Clubs), Card(Jack, Diamonds), Card(Jack, Hearts), Card(Jack, Spades)]) == {Diamonds, Clubs, Hearts, Spades}
    ensures ClassifySorted([Ten, Ten, Jack, Jack, Jack], {Diamonds, Clubs, Hearts, Spades}) == FullHouse
  {}

  /** The `full house-1` hand is classified as full house, in whatever order it is dealt. */
  lemma FullHouse1Example(h: seq<Card>)
    requires |h| == 5 && multiset(h) == multiset([Card(Ten, Diamonds), Card(Ten, Clubs), Card(Jack, Diamonds), Card(Jack, Hearts), Card(Jack, Spades)])
    ensures DetermineHand(h) == FullHouse
    ensures Ranks(TopFive(h)) == [Ten, Ten, Jack, Jack, Jack]
  {
    FullHouse1Sorted();
    FullHouse1Classified();
    var hand := [Card(Ten, Diamonds), Card(Ten, Clubs), Card(Jack, Diamonds), Card(Jack, Hearts), Card(Jack, Spades)];
    DetermineFive(hand, [Card(Ten, Diamonds), Card(Ten, Clubs), Card(Jack, Diamonds), Card(Jack, Hearts), Card(Jack, Spades)], [Ten, Ten, Jack, Jack, Jack], {Diamonds, Clubs, Hearts, Spades});
    DetermineHandOrderIndependent(h, hand);
    SortedRanksOfPermutation(h, hand);
    FiveCardsAreTopFive(h);
    FiveCardsAreTopFive(hand);
  }

  /** The stable sort of the `full house-2` hand. */
  lemma FullHouse2Sorted()
    ensures Insert(Card(Three, Diamonds), Insert(Card(Three, Clubs), Insert(Card(Three, Spades), Insert(Card(Jack, Hearts), Insert(Card(Jack, Spades), [])))))
         == [Card(Three, Diamonds), Card(Three, Clubs), Card(Three, Spades), Card(Jack, Hearts), Card(Jack, Spades)]
  {}

  /** The ranks and suits of the sorted `full house-2` hand, and their category. */
  lemma FullHouse2Classified()
    ensures Ranks([Card(Three, Diamonds), Card(Three, Clubs), Card(Three, Spades), Card(Jack, Hearts), Card(Jack, Spades)]) == [Three, Three, Three, Jack, Jack]
    ensures SuitSet([Card(Three, Diamonds), Card(Three, Clubs), Card(Three, Spades), Card(Jack, Hearts), Card(Jack, Spades)]) == {Diamonds, Clubs, Spades, Hearts}
    ensures ClassifySorted([Three, Three, Three, Jack, Jack], {Diamonds, Clubs, Spades, Hearts}) == FullHouse
  {}

  /** The `full house-2` hand is classified as full house, in whatever order it is dealt. */
  lemma FullHouse2Example(h: seq<Card>)
    requires |h| == 5 && multiset(h) == multiset([Card(Three, Diamonds), Card(Three, Clubs), Card(Three, Spades), Card(Jack, Hearts), Card(Jack, Spades)])
    ensures DetermineHand(h) == FullHouse
    ensures Ranks(TopFive(h)) == [Three, Three, Three, Jack, Jack]
  {
    FullHouse2Sorted();
    FullHouse2Classified();
    var hand := [Card(Three, Diamonds), Card(Three, Clubs), Card(Three, Spades), Card(Jack, Hearts), Card(Jack, Spades)];
    DetermineFive(hand, [Card(Three, Diamonds), Card(Three, Clubs), Card(Three, Spades), Card(Jack, Hearts), Card(Jack, Spades)], [Three, Three, Three, Jack, Jack], {Diamonds, Clubs, Spades, Hearts});
    DetermineHandOrderIndependent(h, hand);
    SortedRanksOfPermutation(h, hand);
    FiveCardsAreTopFive(h);
    FiveCardsAreTopFive(hand);
  }

  /** The stable sort of the `straight` hand. */
  lemma StraightSorted()
    ensures Insert(Card(Four, Diamonds), Insert(Card(Five, Clubs), Insert(Card(Six, Hearts), Insert(Card(Seven, Spades), Insert(Card(Eight, Spades), [])))))
         == [Card(Four, Diamonds), Card(Five, Clubs), Card(Six, Hearts), Card(Seven, Spades), Card(Eight, Spades)]
  {}

  /** The ranks and suits of the sorted `straight` hand, and their category. */
  lemma StraightClassified()
    ensures Ranks([Card(Four, Diamonds), Card(Five, Clubs), Card(Six, Hearts), Card(Seven, Spades), Card(Eight, Spades)]) == [Four, Five, Six, Seven, Eight]
    ensures SuitSet([Card(Four, Diamonds), Card(Five, Clubs), Card(Six, Hearts), Card(Seven, Spades), Card(Eight, Spades)]) == {Diamonds, Clubs, Hearts, Spades}
    ensures ClassifySorted([Four, Five, Six, Seven, Eight], {Diamonds, Clubs, Hearts, Spades}) == Straight
  {}

  /** The `straight` hand is classified as straight, in whatever order it is dealt. */
  lemma StraightExample(h: seq<Card>)
    requires |h| == 5 && multiset(h) == multiset([Card(Four, Diamonds), Card(Five, Clubs), Card(Six, Hearts), Card(Seven, Spades), Card(Eight, Spades)])
    ensures DetermineHand(h) == Straight
    ensures Ranks(TopFive(h)) == [Four, Five, Six, Seven, Eight]
  {
    StraightSorted();
    StraightClassified();
    var hand := [Card(Four, Diamonds), Card(Five, Clubs), Card(Six, Hearts), Card(Seven, Spades), Card(Eight, Spades)];
    DetermineFive(hand, [Card(Four, Diamonds), Card(Five, Clubs), Card(Six, Hearts), Card(Seven, Spades), Card(Eight, Spades)], [Four, Five, Six, Seven, Eight], {Diamonds, Clubs, Hearts, Spades});
    DetermineHandOrderIndependent(h, hand);
    SortedRanksOfPermutation(h, hand);
    FiveCardsAreTopFive(h);
    FiveCardsAreTopFive(hand);
  }

  /** The stable sort of the `three of a kind-1` hand. */
  lemma ThreeOfAKind1Sorted()
    ensures Insert(Card(Five, Clubs), Insert(Card(Five, Hearts), Insert(Card(Five, Diamonds), Insert(Card(Six, Hearts), Insert(Card(Ace, Spades), [])))))
         == [Card(Five, Clubs), Card(Five, Hearts), Card(Five, Diamonds), Card(Six, Hearts), Card(Ace, Spades)]
  {}

  /** The ranks and suits of the sorted `three of a kind-1` hand, and their category. */
  lemma ThreeOfAKind1Classified()
    ensures Ranks([Card(Five, Clubs), Card(Five, Hearts), Card(Five, Diamonds), Card(Six, Hearts), Card(Ace, Spades)]) == [Five, Five, Five, Six, Ace]
    ensures SuitSet([Card(Five, Clubs), Card(Five, Hearts), Card(Five, Diamonds), Card(Six, Hearts), Card(Ace, Spades)]) == {Clubs, Hearts, Diamonds, Spades}
    ensures ClassifySorted([Five, Five, Five, Six, Ace], {Clubs, Hearts, Diamonds, Spades}) == ThreeOfAKind
  {}

  /** The `three of a kind-1` hand is classified as three of a kind, in whatever order it is dealt. */
  lemma ThreeOfAKind1Example(h: seq<Card>)
    requires |h| == 5 && multiset(h) == multiset([Card(Five, Clubs), Card(Five, Hearts), Card(Five, Diamonds), Card(Six, Hearts), Card(Ace, Spades)])
    ensures DetermineHand(h) == ThreeOfAKind
    ensures Ranks(TopFive(h)) == [Five, Five, Five, Six, Ace]
  {
    ThreeOfAKind1Sorted();
    ThreeOfAKind1Classified();
    var hand := [Card(Five, Clubs), Card(Five, Hearts), Card(Five, Diamonds), Card(Six, Hearts), Card(Ace, Spades)];
    DetermineFive(hand, [Card(Five, Clubs), Card(Five, Hearts), Card(Five, Diamonds), Card(Six, Hearts), Card(Ace, Spades)], [Five, Five, Five, Six, Ace], {Clubs, Hearts, Diamonds, Spades});
    DetermineHandOrderIndependent(h, hand);
    SortedRanksOfPermutation(h, hand);
    FiveCardsAreTopFive(h);
    FiveCardsAreTopFive(hand);
  }

  /** The stable sort of the `three of a kind-2` hand. */
  lemma ThreeOfAKind2Sorted()
    ensures Insert(Card(Two, Clubs), Insert(Card(Seven, Clubs), Insert(Card(Seven, Diamonds), Insert(Card(Seven, Hearts), Insert(Card(Ace, Spades), [])))))
         == [Card(Two, Clubs), Card(Seven, Clubs), Card(Seven, Diamonds), Card(Seven, Hearts), Card(Ace, Spades)]
  {}

  /** The ranks and suits of the sorted `three of a kind-2` hand, and their category. */
  lemma ThreeOfAKind2Classified()
    ensures Ranks([Card(Two, Clubs), Card(Seven, Clubs), Card(Seven, Diamonds), Card(Seven, Hearts), Card(Ace, Spades)]) == [Two, Seven, Seven, Seven, Ace]
    ensures SuitSet([Card(Two, Clubs), Card(Seven, Clubs), Card(Seven, Diamonds), Card(Seven, Hearts), Card(Ace, Spades)]) == {Clubs, Diamonds, Hearts, Spades}
    ensures ClassifySorted([Two, Seven, Seven, Seven, Ace], {Clubs, Diamonds, Hearts, Spades}) == ThreeOfAKind
  {}

  /** The `three of a kind-2` hand is classified as three of a kind, in whatever order it is dealt. */
  lemma ThreeOfAKind2Example(h: seq<Card>)
    requires |h| == 5 && multiset(h) == multiset([Card(Two, Clubs), Card(Seven, Clubs), Card(Seven, Diamonds), Card(Seven, Hearts), Card(Ace, Spades)])
    ensures DetermineHand(h) == ThreeOfAKind
    ensures Ranks(TopFive(h)) == [Two, Seven, Seven, Seven, Ace]
  {
    ThreeOfAKind2Sorted();
    ThreeOfAKind2Classified();
    var hand := [Card(Two, Clubs), Card(Seven, Clubs), Card(Seven, Diamonds), Card(Seven, Hearts), Card(Ace, Spades)];
    DetermineFive(hand, [Card(Two, Clubs), Card(Seven, Clubs), Card(Seven, Diamonds), Card(Seven, Hearts), Card(Ace, Spades)], [Two, Seven, Seven, Seven, Ace], {Clubs, Diamonds, Hearts, Spades});
    DetermineHandOrderIndependent(h, hand);
    SortedRanksOfPermutation(h, hand);
    FiveCardsAreTopFive(h);
    FiveCardsAreTopFive(hand);
  }

  /** The stable sort of the `three of a kind-3` hand. */
  lemma ThreeOfAKind3Sorted()
    ensures Insert(Card(Two, Clubs), Insert(Card(Five, Clubs), Insert(Card(Ace, Diamonds), Insert(Card(Ace, Hearts), Insert(Card(Ace, Spades), [])))))
         == [Card(Two, Clubs), Card(Five, Clubs), Card(Ace, Diamonds), Card(Ace, Hearts), Card(Ace, Spades)]
  {}

  /** The ranks and suits of the sorted `three of a kind-3` hand, and their category. */
  lemma ThreeOfAKind3Classified()
    ensures Ranks([Card(Two, Clubs), Card(Five, Clubs), Card(Ace, Diamonds), Card(Ace, Hearts), Card(Ace, Spades)]) == [Two, Five, Ace, Ace, Ace]
    ensures SuitSet([Card(Two, Clubs), Card(Five, Clubs), Card(Ace, Diamonds), Card(Ace, Hearts), Card(Ace, Spades)]) == {Clubs, Diamonds, Hearts, Spades}
    ensures ClassifySorted([Two, Five, Ace, Ace, Ace], {Clubs, Diamonds, Hearts, Spades}) == ThreeOfAKind
  {}

  /** The `three of a kind-3` hand is classified as three of a kind, in whatever order it is dealt. */
  lemma ThreeOfAKind3Example(h: seq<Card>)
    requires |h| == 5 && multiset(h) == multiset([Card(Two, Clubs), Card(Five, Clubs), Card(Ace, Diamonds), Card(Ace, Hearts), Card(Ace, Spades)])
    ensures DetermineHand(h) == ThreeOfAKind
    ensures Ranks(TopFive(h)) == [Two, Five, Ace, Ace, Ace]
  {
    ThreeOfAKind3Sorted();
    ThreeOfAKind3Classified();
    var hand := [Card(Two, Clubs), Card(Five, Clubs), Card(Ace, Diamonds), Card(Ace, Hearts), Card(Ace, Spades)];
    DetermineFive(hand, [Card(Two, Clubs), Card(Five, Clubs), Card(Ace, Diamonds), Card(Ace, Hearts), Card(Ace, Spades)], [Two, Five, Ace, Ace, Ace], {Clubs, Diamonds, Hearts, Spades});
    DetermineHandOrderIndependent(h, hand);
    SortedRanksOfPermutation(h, hand);
    FiveCardsAreTopFive(h);
    FiveCardsAreTopFive(hand);
  }

  /** The stable sort of the `two pairs-1` hand. */
  lemma TwoPairs1Sorted()
    ensures Insert(Card(Seven, Hearts), Insert(Card(Seven, Clubs), Insert(Card(Ten, Diamonds), Insert(Card(Ten, Hearts), Insert(Card(King, Spades), [])))))
         == [Card(Seven, Hearts), Card(Seven, Clubs), Card(Ten, Diamonds), Card(Ten, Hearts), Card(King, Spades)]
  {}

  /** The ranks and suits of the sorted `two pairs-1` hand, and their category. */
  lemma TwoPairs1Classified()
    ensures Ranks([Card(Seven, Hearts), Card(Seven, Clubs), Card(Ten, Diamonds), Card(Ten, Hearts), Card(King, Spades)]) == [Seven, Seven, Ten, Ten, King]
    ensures SuitSet([Card(Seven, Hearts), Card(Seven, Clubs), Card(Ten, Diamonds), Card(Ten, Hearts), Card(King, Spades)]) == {Hearts, Clubs, Diamonds, Spades}
    ensures ClassifySorted([Seven, Seven, Ten, Ten, King], {Hearts, Clubs, Diamonds, Spades}) == TwoPairs
  {}

  /** The `two pairs-1` hand is classified as two pairs, in whatever order it is dealt. */
  lemma TwoPairs1Example(h: seq<Card>)
    requires |h| == 5 && multiset(h) == multiset([Card(Seven, Hearts), Card(Seven, Clubs), Card(Ten, Diamonds), Card(Ten, Hearts), Card(King, Spades)])
    ensures DetermineHand(h) == TwoPairs
    ensures Ranks(TopFive(h)) == [Seven, Seven, Ten, Ten, King]
  {
    TwoPairs1Sorted();
    TwoPairs1Classified();
    var hand := [Card(Seven, Hearts), Card(Seven, Clubs), Card(Ten, Diamonds), Card(Ten, Hearts), Card(King, Spades)];
    DetermineFive(hand, [Card(Seven, Hearts), Card(Seven, Clubs), Card(Ten, Diamonds), Card(Ten, Hearts), Card(King, Spades)], [Seven, Seven, Ten, Ten, King], {Hearts, Clubs, Diamonds, Spades});
    DetermineHandOrderIndependent(h, hand);
    SortedRanksOfPermutation(h, hand);
    FiveCardsAreTopFive(h);
    FiveCardsAreTopFive(hand);
  }

  /** The stable sort of the `two pairs-2` hand. */
  lemma TwoPairs2Sorted()
    ensures Insert(Card(Three, Spades), Insert(Card(Seven, Hearts), Insert(Card(Seven, Clubs), Insert(Card(Ten, Diamonds), Insert(Card(Ten, Hearts), [])))))
         == [Card(Three, Spades), Card(Seven, Hearts), Card(Seven, Clubs), Card(Ten, Diamonds), Card(Ten, Hearts)]
  {}

  /** The ranks and suits of the sorted `two pairs-2` hand, and their category. */
  lemma TwoPairs2Classified()
    ensures Ranks([Card(Three, Spades), Card(Seven, Hearts), Card(Seven, Clubs), Card(Ten, Diamonds), Card(Ten, Hearts)]) == [Three, Seven, Seven, Ten, Ten]
    ensures SuitSet([Card(Three, Spades), Card(Seven, Hearts), Card(Seven, Clubs), Card(Ten, Diamonds), Card(Ten, Hearts)]) == {Spades, Hearts, Clubs, Diamonds}
    ensures ClassifySorted([Three, Seven, Seven, Ten, Ten], {Spades, Hearts, Clubs, Diamonds}) == TwoPairs
  {}

  /** The `two pairs-2` hand is classified as two pairs, in whatever order it is dealt. */
  lemma TwoPairs2Example(h: seq<Card>)
    requires |h| == 5 && multiset(h) == multiset([Card(Three, Spades), Card(Seven, Hearts), Card(Seven, Clubs), Card(Ten, Diamonds), Card(Ten, Hearts)])
    ensures DetermineHand(h) == TwoPairs
    ensures Ranks(TopFive(h)) == [Three, Seven, Seven, Ten, Ten]
  {
    TwoPairs2Sorted();
    TwoPairs2Classified();
    var hand := [Card(Three, Spades), Card(Seven, Hearts), Card(Seven, Clubs), Card(Ten, Diamonds), Card(Ten, Hearts)];
    DetermineFive(hand, [Card(Three, Spades), Card(Seven, Hearts), Card(Seven, Clubs), Card(Ten, Diamonds), Card(Ten, Hearts)], [Three, Seven, Seven, Ten, Ten], {Spades, Hearts, Clubs, Diamonds});
    DetermineHandOrderIndependent(h, hand);
    SortedRanksOfPermutation(h, hand);
    FiveCardsAreTopFive(h);
    FiveCardsAreTopFive(hand);
  }

  /** The stable sort of the `two pairs-3` hand. */
  lemma TwoPairs3Sorted()
    ensures Insert(Card(Seven, Hearts), Insert(Card(Seven, Clubs), Insert(Card(Nine, Spades), Insert(Card(Ten, Diamonds), Insert(Card(Ten, Hearts), [])))))
         == [Card(Seven, Hearts), Card(Seven, Clubs), Card(Nine, Spades), Card(Ten, Diamonds), Card(Ten, Hearts)]
  {}

  /** The ranks and suits of the sorted `two pairs-3` hand, and their category. */
  lemma TwoPairs3Classified()
    ensures Ranks([Card(Seven, Hearts), Card(Seven, Clubs), Card(Nine, Spades), Card(Ten, Diamonds), Card(Ten, Hearts)]) == [Seven, Seven, Nine, Ten, Ten]
    ensures SuitSet([Card(Seven, Hearts), Card(Seven, Clubs), Card(Nine, Spades), Card(Ten, Diamonds), Card(Ten, Hearts)]) == {Hearts, Clubs, Spades, Diamonds}
    ensures ClassifySorted([Seven, Seven, Nine, Ten, Ten], {Hearts, Clubs, Spades, Diamonds}) == TwoPairs
  {}

  /** The `two pairs-3` hand is classified as two pairs, in whatever order it is dealt. */
  lemma TwoPairs3Example(h: seq<Card>)
    requires |h| == 5 && multiset(h) == multiset([Card(Seven, Hearts), Card(Seven, Clubs), Card(Nine, Spades), Card(Ten, Diamonds), Card(Ten, Hearts)])
    ensures DetermineHand(h) == TwoPairs
    ensures Ranks(TopFive(h)) == [Seven, Seven, Nine, Ten, Ten]
  {
    TwoPairs3Sorted();
    TwoPairs3Classified();
    var hand := [Card(Seven, Hearts), Card(Seven, Clubs), Card(Nine, Spades), Card(Ten, Diamonds), Card(Ten, Hearts)];
    DetermineFive(hand, [Card(Seven, Hearts), Card(Seven, Clubs), Card(Nine, Spades), Card(Ten, Diamonds), Card(Ten, Hearts)], [Seven, Seven, Nine, Ten, Ten], {Hearts, Clubs, Spades, Diamonds});
    DetermineHandOrderIndependent(h, hand);
    SortedRanksOfPermutation(h, hand);
    FiveCardsAreTopFive(h);
    FiveCardsAreTopFive(hand);
  }

  /** The stable sort of the `pair-1` hand. */
  lemma Pair1Sorted()
    ensures Insert(Card(Eight, Hearts), Insert(Card(Eight, Clubs), Insert(Card(Nine, Diamonds), Insert(Card(Jack, Hearts), Insert(Card(Queen, Spades), [])))))
         == [Card(Eight, Hearts), Card(Eight, Clubs), Card(Nine, Diamonds), Card(Jack, Hearts), Card(Queen, Spades)]
  {}

  /** The ranks and suits of the sorted `pair-1` hand, and their category. */
  lemma Pair1Classified()
    ensures Ranks([Card(Eight, Hearts), Card(Eight, Clubs), Card(Nine, Diamonds), Card(Jack, Hearts), Card(Queen, Spades)]) == [Eight, Eight, Nine, Jack, Queen]
    ensures SuitSet([Card(Eight, Hearts), Card(Eight, Clubs), Card(Nine, Diamonds), Card(Jack, Hearts), Card(Queen, Spades)]) == {Hearts, Clubs, Diamonds, Spades}
    ensures ClassifySorted([Eight, Eight, Nine, Jack, Queen], {Hearts, Clubs, Diamonds, Spades}) == Pair
  {}

  /** The `pair-1` hand is classified as pair, in whatever order it is dealt. */
  lemma Pair1Example(h: seq<Card>)
    requires |h| == 5 && multiset(h) == multiset([Card(Eight, Hearts), Card(Eight, Clubs), Card(Nine, Diamonds), Card(Jack, Hearts), Card(Queen, Spades)])
    ensures DetermineHand(h) == Pair
    ensures Ranks(TopFive(h)) == [Eight, Eight, Nine, Jack, Queen]
  {
    Pair1Sorted();
    Pair1Classified();
    var hand := [Card(Eight, Hearts), Card(Eight, Clubs), Card(Nine, Diamonds), Card(Jack, Hearts), Card(Queen, Spades)];
    DetermineFive(hand, [Card(Eight, Hearts), Card(Eight, Clubs), Card(Nine, Diamonds), Card(Jack, Hearts), Card(Queen, Spades)], [Eight, Eight, Nine, Jack, Queen], {Hearts, Clubs, Diamonds, Spades});
    DetermineHandOrderIndependent(h, hand);
    SortedRanksOfPermutation(h, hand);
    FiveCardsAreTopFive(h);
    FiveCardsAreTopFive(hand);
  }

  /** The stable sort of the `pair-2` hand. */
  lemma Pair2Sorted()
    ensures Insert(Card(Eight, Hearts), Insert(Card(Nine, Clubs), Insert(Card(Nine, Diamonds), Insert(Card(Jack, Hearts), Insert(Card(Queen, Spades), [])))))
         == [Card(Eight, Hearts), Card(Nine, Clubs), Card(Nine, Diamonds), Card(Jack, Hearts), Card(Queen, Spades)]
  {}

  /** The ranks and suits of the sorted `pair-2` hand, and their category. */
  lemma Pair2Classified()
    ensures Ranks([Card(Eight, Hearts), Card(Nine, Clubs), Card(Nine, Diamonds), Card(Jack, Hearts), Card(Queen, Spades)]) == [Eight, Nine, Nine, Jack, Queen]
    ensures SuitSet([Card(Eight, Hearts), Card(Nine, Clubs), Card(Nine, Diamonds), Card(Jack, Hearts), Card(Queen, Spades)]) == {Hearts, Clubs, Diamonds, Spades}
    ensures ClassifySorted([Eight, Nine, Nine, Jack, Queen], {Hearts, Clubs, Diamonds, Spades}) == Pair
  {}

  /** The `pair-2` hand is classified as pair, in whatever order it is dealt. */
  lemma Pair2Example(h: seq<Card>)
    requires |h| == 5 && multiset(h) == multiset([Card(Eight, Hearts), Card(Nine, Clubs), Card(Nine, Diamonds), Card(Jack, Hearts), Card(Queen, Spades)])
    ensures DetermineHand(h) == Pair
    ensures Ranks(TopFive(h)) == [Eight, Nine, Nine, Jack, Queen]
  {
    Pair2Sorted();
    Pair2Classified();
    var hand := [Card(Eight, Hearts), Card(Nine, Clubs), Card(Nine, Diamonds), Card(Jack, Hearts), Card(Queen, Spades)];
    DetermineFive(hand, [Card(Eight, Hearts), Card(Nine, Clubs), Card(Nine, Diamonds), Card(Jack, Hearts), Card(Queen, Spades)], [Eight, Nine, Nine, Jack, Queen], {Hearts, Clubs, Diamonds, Spades});
    DetermineHandOrderIndependent(h, hand);
    SortedRanksOfPermutation(h, hand);
    FiveCardsAreTopFive(h);
    FiveCardsAreTopFive(hand);
  }

  /** The stable sort of the `pair-3` hand. */
  lemma Pair3Sorted()
    ensures Insert(Card(Eight, Hearts), Insert(Card(Nine, Clubs), Insert(Card(Jack, Diamonds), Insert(Card(Jack, Hearts), Insert(Card(Queen, Spades), [])))))
         == [Card(Eight, Hearts), Card(Nine, Clubs), Card(Jack, Diamonds), Card(Jack, Hearts), Card(Queen, Spades)]
  {}

  /** The ranks and suits of the sorted `pair-3` hand, and their category. */
  lemma Pair3Classified()
    ensures Ranks([Card(Eight, Hearts), Card(Nine, Clubs), Card(Jack, Diamonds), Card(Jack, Hearts), Card(Queen, Spades)]) == [Eight, Nine, Jack, Jack, Queen]
    ensures SuitSet([Card(Eight, Hearts), Card(Nine, Clubs), Card(Jack, Diamonds), Card(Jack, Hearts), Card(Queen, Spades)]) == {Hearts, Clubs, Diamonds, Spades}
    ensures ClassifySorted([Eight, Nine, Jack, Jack, Queen], {Hearts, Clubs, Diamonds, Spades}) == Pair
  {}

  /** The `pair-3` hand is classified as pair, in whatever order it is dealt. */
  lemma Pair3Example(h: seq<Card>)
    requires |h| == 5 && multiset(h) == multiset([Card(Eight, Hearts), Card(Nine, Clubs), Card(Jack, Diamonds), Card(Jack, Hearts), Card(Queen, Spades)])
    ensures DetermineHand(h) == Pair
    ensures Ranks(TopFive(h)) == [Eight, Nine, Jack, Jack, Queen]
  {
    Pair3Sorted();
    Pair3Classified();
    var hand := [Card(Eight, Hearts), Card(Nine, Clubs), Card(Jack, Diamonds), Card(Jack, Hearts), Card(Queen, Spades)];
    DetermineFive(hand, [Card(Eight, Hearts), Card(Nine, Clubs), Card(Jack, Diamonds), Card(Jack, Hearts), Card(Queen, Spades)], [Eight, Nine, Jack, Jack, Queen], {Hearts, Clubs, Diamonds, Spades});
    DetermineHandOrderIndependent(h, hand);
    SortedRanksOfPermutation(h, hand);
    FiveCardsAreTopFive(h);
    FiveCardsAreTopFive(hand);
  }

  /** The stable sort of the `pair-4` hand. */
  lemma Pair4Sorted()
    ensures Insert(Card(Eight, Hearts), Insert(Card(Nine, Clubs), Insert(Card(Ten, Diamonds), Insert(Card(Queen, Hearts), Insert(Card(Queen, Spades), [])))))
         == [Card(Eight, Hearts), Card(Nine, Clubs), Card(Ten, Diamonds), Card(Queen, Hearts), Card(Queen, Spades)]
  {}

  /** The ranks and suits of the sorted `pair-4` hand, and their category. */
  lemma Pair4Classified()
    ensures Ranks([Card(Eight, Hearts), Card(Nine, Clubs), Card(Ten, Diamonds), Card(Queen, Hearts), Card(Queen, Spades)]) == [Eight, Nine, Ten, Queen, Queen]
    ensures SuitSet([Card(Eight, Hearts), Card(Nine, Clubs), Card(Ten, Diamonds), Card(Queen, Hearts), Card(Queen, Spades)]) == {Hearts, Clubs, Diamonds, Spades}
    ensures ClassifySorted([Eight, Nine, Ten, Queen, Queen], {Hearts, Clubs, Diamonds, Spades}) == Pair
  {}

  /** The `pair-4` hand is classified as pair, in whatever order it is dealt. */
  lemma Pair4Example(h: seq<Card>)
    requires |h| == 5 && multiset(h) == multiset([Card(Eight, Hearts), Card(Nine, Clubs), Card(Ten, Diamonds), Card(Queen, Hearts), Card(Queen, Spades)])
    ensures DetermineHand(h) == Pair
    ensures Ranks(TopFive(h)) == [Eight, Nine, Ten, Queen, Queen]
  {
    Pair4Sorted();
    Pair4Classified();
    var hand := [Card(Eight, Hearts), Card(Nine, Clubs), Card(Ten, Diamonds), Card(Queen, Hearts), Card(Queen, Spades)];
    DetermineFive(hand, [Card(Eight, Hearts), Card(Nine, Clubs), Card(Ten, Diamonds), Card(Queen, Hearts), Card(Queen, Spades)], [Eight, Nine, Ten, Queen, Queen], {Hearts, Clubs, Diamonds, Spades});
    DetermineHandOrderIndependent(h, hand);
    SortedRanksOfPermutation(h, hand);
    FiveCardsAreTopFive(h);
    FiveCardsAreTopFive(hand);
  }

  /** The stable sort of the `high card` hand. */
  lemma HighCardSorted()
    ensures Insert(Card(Five, Hearts), Insert(Card(Six, Clubs), Insert(Card(Nine, Diamonds), Insert(Card(Queen, Hearts), Insert(Card(King, Spades), [])))))
         == [Card(Five, Hearts), Card(Six, Clubs), Card(Nine, Diamonds), Card(Queen, Hearts), Card(King, Spades)]
  {}

  /** The ranks and suits of the sorted `high card` hand, and their category. */
  lemma HighCardClassified()
    ensures Ranks([Card(Five, Hearts), Card(Six, Clubs), Card(Nine, Diamonds), Card(Queen, Hearts), Card(King, Spades)]) == [Five, Six, Nine, Queen, King]
    ensures SuitSet([Card(Five, Hearts), Card(Six, Clubs), Card(Nine, Diamonds), Card(Queen, Hearts), Card(King, Spades)]) == {Hearts, Clubs, Diamonds, Spades}
    ensures ClassifySorted([Five, Six, Nine, Queen, King], {Hearts, Clubs, Diamonds, Spades}) == HighCard
  {}

  /** The `high card` hand is classified as high card, in whatever order it is dealt. */
  lemma HighCardExample(h: seq<Card>)
    requires |h| == 5 && multiset(h) == multiset([Card(Five, Hearts), Card(Six, Clubs), Card(Nine, Diamonds), Card(Queen, Hearts), Card(King, Spades)])
    ensures DetermineHand(h) == HighCard
    ensures Ranks(TopFive(h)) == [Five, Six, Nine, Queen, King]
  {
    HighCardSorted();
    HighCardClassified();
    var hand := [Card(Five, Hearts), Card(Six, Clubs), Card(Nine, Diamonds), Card(Queen, Hearts), Card(King, Spades)];
    DetermineFive(hand, [Card(Five, Hearts), Card(Six, Clubs), Card(Nine, Diamonds), Card(Queen, Hearts), Card(King, Spades)], [Five, Six, Nine, Queen, King], {Hearts, Clubs, Diamonds, Spades});
    DetermineHandOrderIndependent(h, hand);
    SortedRanksOfPermutation(h, hand);
    FiveCardsAreTopFive(h);
    FiveCardsAreTopFive(hand);
  }

  /** The stable sort of the `full house of tens` hand. */
  lemma FullHouseOfTensSorted()
    ensures Insert(Card(Ten, Clubs), Insert(Card(Ten, Diamonds), Insert(Card(Ten, Hearts), Insert(Card(King, Hearts), Insert(Card(King, Spades), [])))))
         == [Card(Ten, Clubs), Card(Ten, Diamonds), Card(Ten, Hearts), Card(King, Hearts), Card(King, Spades)]
  {}

  /** The ranks and suits of the sorted `full house of tens` hand, and their category. */
  lemma FullHouseOfTensClassified()
    ensures Ranks([Card(Ten, Clubs), Card(Ten, Diamonds), Card(Ten, Hearts), Card(King, Hearts), Card(King, Spades)]) == [Ten, Ten, Ten, King, King]
    ensures SuitSet([Card(Ten, Clubs), Card(Ten, Diamonds), Card(Ten, Hearts), Card(King, Hearts), Card(King, Spades)]) == {Clubs, Diamonds, Hearts, Spades}
    ensures ClassifySorted([Ten, Ten, Ten, King, King], {Clubs, Diamonds, Hearts, Spades}) == FullHouse
  {}

  /** A compare_hands example: the `full house of tens` hand is classified as full house, in whatever order it is dealt. */
  lemma FullHouseOfTensExample(h: seq<Card>)
    requires |h| == 5 && multiset(h) == multiset([Card(Ten, Clubs), Card(Ten, Diamonds), Card(Ten, Hearts), Card(King, Hearts), Card(King, Spades)])
    ensures DetermineHand(h) == FullHouse
    ensures Ranks(TopFive(h)) == [Ten, Ten, Ten, King, King]
  {
    FullHouseOfTensSorted();
    FullHouseOfTensClassified();
    var hand := [Card(Ten, Clubs), Card(Ten, Diamonds), Card(Ten, Hearts), Card(King, Hearts), Card(King, Spades)];
    DetermineFive(hand, [Card(Ten, Clubs), Card(Ten, Diamonds), Card(Ten, Hearts), Card(King, Hearts), Card(King, Spades)], [Ten, Ten, Ten, King, King], {Clubs, Diamonds, Hearts, Spades});
    DetermineHandOrderIndependent(h, hand);
    SortedRanksOfPermutation(h, hand);
    FiveCardsAreTopFive(h);
    FiveCardsAreTopFive(hand);
  }

  /** The stable sort of the `royal flush of hearts` hand. */
  lemma RoyalFlushOfHeartsSorted()
    ensures Insert(Card(Ten, Hearts), Insert(Card(Jack, Hearts), Insert(Card(Queen, Hearts), Insert(Card(King, Hearts), Insert(Card(Ace, Hearts), [])))))
         == [Card(Ten, Hearts), Card(Jack, Hearts), Card(Queen, Hearts), Card(King, Hearts), Card(Ace, Hearts)]
  {}

  /** The ranks and suits of the sorted `royal flush of hearts` hand, and their category. */
  lemma RoyalFlushOfHeartsClassified()
    ensures Ranks([Card(Ten, Hearts), Card(Jack, Hearts), Card(Queen, Hearts), Card(King, Hearts), Card(Ace, Hearts)]) == [Ten, Jack, Queen, King, Ace]
    ensures SuitSet([Card(Ten, Hearts), Card(Jack, Hearts), Card(Queen, Hearts), Card(King, Hearts), Card(Ace, Hearts)]) == {Hearts}
    ensures ClassifySorted([Ten, Jack, Queen, King, Ace], {Hearts}) == RoyalFlush
  {}

  /** A compare_hands example: the `royal flush of hearts` hand is classified as royal flush, in whatever order it is dealt. */
  lemma RoyalFlushOfHeartsExample(h: seq<Card>)
    requires |h| == 5 && multiset(h) == multiset([Card(Ten, Hearts), Card(Jack, Hearts), Card(Queen, Hearts), Card(King, Hearts), Card(Ace, Hearts)])
    ensures DetermineHand(h) == RoyalFlush
    ensures Ranks(TopFive(h)) == [Ten, Jack, Queen, King, Ace]
  {
    RoyalFlushOfHeartsSorted();
    RoyalFlushOfHeartsClassified();
    var hand := [Card(Ten, Hearts), Card(Jack, Hearts), Card(Queen, Hearts), Card(King, Hearts), Card(Ace, Hearts)];
    DetermineFive(hand, [Card(Ten, Hearts), Card(Jack, Hearts), Card(Queen, Hearts), Card(King, Hearts), Card(Ace, Hearts)], [Ten, Jack, Queen, King, Ace], {Hearts});
    DetermineHandOrderIndependent(h, hand);
    SortedRanksOfPermutation(h, hand);
    FiveCardsAreTopFive(h);
    FiveCardsAreTopFive(hand);
  }

  /** The stable sort of the `pair of fives ace high` hand. */
  lemma PairOfFivesAceHighSorted()
    ensures Insert(Card(Five, Clubs), Insert(Card(Five, Diamonds), Insert(Card(Queen, Hearts), Insert(Card(King, Spades), Insert(Card(Ace, Clubs), [])))))
         == [Card(Five, Clubs), Card(Five, Diamonds), Card(Queen, Hearts), Card(King, Spades), Card(Ace, Clubs)]
  {}

  /** The ranks and suits of the sorted `pair of fives ace high` hand, and their category. */
  lemma PairOfFivesAceHighClassified()
    ensures Ranks([Card(Five, Clubs), Card(Five, Diamonds), Card(Queen, Hearts), Card(King, Spades), Card(Ace, Clubs)]) == [Five, Five, Queen, King, Ace]
    ensures SuitSet([Card(Five, Clubs), Card(Five, Diamonds), Card(Queen, Hearts), Card(King, Spades), Card(Ace, Clubs)]) == {Clubs, Diamonds, Hearts, Spades}
    ensures ClassifySorted([Five, Five, Queen, King, Ace], {Clubs, Diamonds, Hearts, Spades}) == Pair
  {}

  /** A compare_hands example: the `pair of fives ace high` hand is classified as pair, in whatever order it is dealt. */
  lemma PairOfFivesAceHighExample(h: seq<Card>)
    requires |h| == 5 && multiset(h) == multiset([Card(Five, Clubs), Card(Five, Diamonds), Card(Queen, Hearts), Card(King, Spades), Card(Ace, Clubs)])
    ensures DetermineHand(h) == Pair
    ensures Ranks(TopFive(h)) == [Five, Five, Queen, King, Ace]
  {
    PairOfFivesAceHighSorted();
    PairOfFivesAceHighClassified();
    var hand := [Card(Five, Clubs), Card(Five, Diamonds), Card(Queen, Hearts), Card(King, Spades), Card(Ace, Clubs)];
    DetermineFive(hand, [Card(Five, Clubs), Card(Five, Diamonds), Card(Queen, Hearts), Card(King, Spades), Card(Ace, Clubs)], [Five, Five, Queen, King, Ace], {Clubs, Diamonds, Hearts, Spades});
    DetermineHandOrderIndependent(h, hand);
    SortedRanksOfPermutation(h, hand);
    FiveCardsAreTopFive(h);
    FiveCardsAreTopFive(hand);
  }

  /** The stable sort of the `pair of sixes six high` hand. */
  lemma PairOfSixesSixHighSorted()
    ensures Insert(Card(Two, Clubs), Insert(Card(Three, Diamonds), Insert(Card(Four, Hearts), Insert(Card(Six, Spades), Insert(Card(Six, Clubs), [])))))
         == [Card(Two, Clubs), Card(Three, Diamonds), Card(Four, Hearts), Card(Six, Spades), Card(Six, Clubs)]
  {}

  /** The ranks and suits of the sorted `pair of sixes six high` hand, and their category. */
  lemma PairOfSixesSixHighClassified()
    ensures Ranks([Card(Two, Clubs), Card(Three, Diamonds), Card(Four, Hearts), Card(Six, Spades), Card(Six, Clubs)]) == [Two, Three, Four, Six, Six]
    ensures SuitSet([Card(Two, Clubs), Card(Three, Diamonds), Card(Four, Hearts), Card(Six, Spades), Card(Six, Clubs)]) == {Clubs, Diamonds, Hearts, Spades}
    ensures ClassifySorted([Two, Three, Four, Six, Six], {Clubs, Diamonds, Hearts, Spades}) == Pair
  {}

  /** A compare_hands example: the `pair of sixes six high` hand is classified as pair, in whatever order it is dealt. */
  lemma PairOfSixesSixHighExample(h: seq<Card>)
    requires |h| == 5 && multiset(h) == multiset([Card(Two, Clubs), Card(Three, Diamonds), Card(Four, Hearts), Card(Six, Spades), Card(Six, Clubs)])
    ensures DetermineHand(h) == Pair
    ensures Ranks(TopFive(h)) == [Two, Three, Four, Six, Six]
  {
    PairOfSixesSixHighSorted();
    PairOfSixesSixHighClassified();
    var hand := [Card(Two, Clubs), Card(Three, Diamonds), Card(Four, Hearts), Card(Six, Spades), Card(Six, Clubs)];
    DetermineFive(hand, [Card(Two, Clubs), Card(Three, Diamonds), Card(Four, Hearts), Card(Six, Spades), Card(Six, Clubs)], [Two, Three, Four, Six, Six], {Clubs, Diamonds, Hearts, Spades});
    DetermineHandOrderIndependent(h, hand);
    SortedRanksOfPermutation(h, hand);
    FiveCardsAreTopFive(h);
    FiveCardsAreTopFive(hand);
  }

  /** The stable sort of the `aces and queens` hand. */
  lemma AcesAndQueensSorted()
    ensures Insert(Card(Queen, Clubs), Insert(Card(Queen, Diamonds), Insert(Card(King, Hearts), Insert(Card(Ace, Spades), Insert(Card(Ace, Clubs), [])))))
         == [Card(Queen, Clubs), Card(Queen, Diamonds), Card(King, Hearts), Card(Ace, Spades), Card(Ace, Clubs)]
  {}

  /** The ranks and suits of the sorted `aces and queens` hand, and their category. */
  lemma AcesAndQueensClassified()
    ensures Ranks([Card(Queen, Clubs), Card(Queen, Diamonds), Card(King, Hearts), Card(Ace, Spades), Card(Ace, Clubs)]) == [Queen, Queen, King, Ace, Ace]
    ensures SuitSet([Card(Queen, Clubs), Card(Queen, Diamonds), Card(King, Hearts), Card(Ace, Spades), Card(Ace, Clubs)]) == {Clubs, Diamonds, Hearts, Spades}
    ensures ClassifySorted([Queen, Queen, King, Ace, Ace], {Clubs, Diamonds, Hearts, Spades}) == TwoPairs
  {}

  /** A compare_hands example: the `aces and queens` hand is classified as two pairs, in whatever order it is dealt. */
  lemma AcesAndQueensExample(h: seq<Card>)
    requires |h| == 5 && multiset(h) == multiset([Card(Queen, Clubs), Card(Queen, Diamonds), Card(King, Hearts), Card(Ace, Spades), Card(Ace, Clubs)])
    ensures DetermineHand(h) == TwoPairs
    ensures Ranks(TopFive(h)) == [Queen, Queen, King, Ace, Ace]
  {
    AcesAndQueensSorted();
    AcesAndQueensClassified();
    var hand := [Card(Queen, Clubs), Card(Queen, Diamonds), Card(King, Hearts), Card(Ace, Spades), Card(Ace, Clubs)];
    DetermineFive(hand, [Card(Queen, Clubs), Card(Queen, Diamonds), Card(King, Hearts), Card(Ace, Spades), Card(Ace, Clubs)], [Queen, Queen, King, Ace, Ace], {Clubs, Diamonds, Hearts, Spades});
    DetermineHandOrderIndependent(h, hand);
    SortedRanksOfPermutation(h, hand);
    FiveCardsAreTopFive(h);
    FiveCardsAreTopFive(hand);
  }

  /** The stable sort of the `aces and kings` hand. */
  lemma AcesAndKingsSorted()
    ensures Insert(Card(Two, Clubs), Insert(Card(King, Diamonds), Insert(Card(King, Hearts), Insert(Card(Ace, Diamonds), Insert(Card(Ace, Hearts), [])))))
         == [Card(Two, Clubs), Card(King, Diamonds), Card(King, Hearts), Card(Ace, Diamonds), Card(Ace, Hearts)]
  {}

  /** The ranks and suits of the sorted `aces and kings` hand, and their category. */
  lemma AcesAndKingsClassified()
    ensures Ranks([Card(Two, Clubs), Card(King, Diamonds), Card(King, Hearts), Card(Ace, Diamonds), Card(Ace, Hearts)]) == [Two, King, King, Ace, Ace]
    ensures SuitSet([Card(Two, Clubs), Card(King, Diamonds), Card(King, Hearts), Card(Ace, Diamonds), Card(Ace, Hearts)]) == {Clubs, Diamonds, Hearts}
    ensures ClassifySorted([Two, King, King, Ace, Ace], {Clubs, Diamonds, Hearts}) == TwoPairs
  {}

  /** A compare_hands example: the `aces and kings` hand is classified as two pairs, in whatever order it is dealt. */
  lemma AcesAndKingsExample(h: seq<Card>)
    requires |h| == 5 && multiset(h) == multiset([Card(Two, Clubs), Card(King, Diamonds), Card(King, Hearts), Card(Ace, Diamonds), Card(Ace, Hearts)])
    ensures DetermineHand(h) == TwoPairs
    ensures Ranks(TopFive(h)) == [Two, King, King, Ace, Ace]
  {
    AcesAndKingsSorted();
    AcesAndKingsClassified();
    var hand := [Card(Two, Clubs), Card(King, Diamonds), Card(King, Hearts), Card(Ace, Diamonds), Card(Ace, Hearts)];
    DetermineFive(hand, [Card(Two, Clubs), Card(King, Diamonds), Card(King, Hearts), Card(Ace, Diamonds), Card(Ace, Hearts)], [Two, King, King, Ace, Ace], {Clubs, Diamonds, Hearts});
    DetermineHandOrderIndependent(h, hand);
    SortedRanksOfPermutation(h, hand);
    FiveCardsAreTopFive(h);
    FiveCardsAreTopFive(hand);
  }
}
