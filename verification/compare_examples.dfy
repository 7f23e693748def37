// The compare_hands test table, and two comparisons that show how the
// positional tiebreak sum behaves when it is reached. Every example holds for
// any order of the cards within each hand.
module CompareExamples {
  import opened Cards
  import opened Categories
  import opened Classifier
  import opened Comparator
  import opened HandExamples

  /** A royal flush beats a full house, from either side. */
  lemma RoyalFlushBeatsFullHouse(h1: seq<Card>, h2: seq<Card>)
    requires |h1| == 5 && multiset(h1) == multiset([Card(Ten, Clubs), Card(Jack, Clubs), Card(Queen, Clubs), Card(King, Clubs), Card(Ace, Clubs)])
    requires |h2| == 5 && multiset(h2) == multiset([Card(Ten, Clubs), Card(Ten, Diamonds), Card(Ten, Hearts), Card(King, Hearts), Card(King, Spades)])
    ensures CompareHands(h1, h2) == 0
    ensures CompareHands(h2, h1) == 1
  {
    RoyalFlushExample(h1);
    FullHouseOfTensExample(h2);
  }

  /** Two royal flushes in different suits are a draw. */
  lemma RoyalFlushesDraw(h1: seq<Card>, h2: seq<Card>)
    requires |h1| == 5 && multiset(h1) == multiset([Card(Ten, Clubs), Card(Jack, Clubs), Card(Queen, Clubs), Card(King, Clubs), Card(Ace, Clubs)])
    requires |h2| == 5 && multiset(h2) == multiset([Card(Ten, Hearts), Card(Jack, Hearts), Card(Queen, Hearts), Card(King, Hearts), Card(Ace, Hearts)])
    ensures CompareHands(h1, h2) == 2
  {
    RoyalFlushExample(h1);
    RoyalFlushOfHeartsExample(h2);
    TieBreakOfRanks(h1, [Ten, Jack, Queen, King, Ace]);
    TieBreakOfRanks(h2, [Ten, Jack, Queen, King, Ace]);
  }

  /** The weighted sums of the rank sequences used below. */
  lemma TieBreakSums()
    ensures WeightedSum(Powers([Five, Five, Queen, King, Ace]), 5) == 154255
    ensures WeightedSum(Powers([Two, Three, Four, Six, Six]), 5) == 66432
    ensures WeightedSum(Powers([Queen, Queen, King, Ace, Ace]), 5) == 155432
    ensures WeightedSum(Powers([Two, King, King, Ace, Ace]), 5) == 155432
  {
  }

  /** Between two pairs the sum decides, not the rank of the pair: a pair of
      fives with ace, king and queen (154255) beats a pair of sixes with two,
      three and four (66432). */
  lemma HighKickersOutweighHigherPair(h1: seq<Card>, h2: seq<Card>)
    requires |h1| == 5 && multiset(h1) == multiset([Card(Five, Clubs), Card(Five, Diamonds), Card(Queen, Hearts), Card(King, Spades), Card(Ace, Clubs)])
    requires |h2| == 5 && multiset(h2) == multiset([Card(Two, Clubs), Card(Three, Diamonds), Card(Four, Hearts), Card(Six, Spades), Card(Six, Clubs)])
    ensures TieBreak(h1) == 154255 && TieBreak(h2) == 66432
    ensures CompareHands(h1, h2) == 0
  {
    PairOfFivesAceHighExample(h1);
    PairOfSixesSixHighExample(h2);
    TieBreakOfRanks(h1, [Five, Five, Queen, King, Ace]);
    TieBreakOfRanks(h2, [Two, Three, Four, Six, Six]);
    TieBreakSums();
  }

  /** Different two-pair hands can have the same sum: aces and queens with a
      king, and aces and kings with a two, both come to 155432 and draw. */
  lemma TieBreakCollision(h1: seq<Card>, h2: seq<Card>)
    requires |h1| == 5 && multiset(h1) == multiset([Card(Queen, Clubs), Card(Queen, Diamonds), Card(King, Hearts), Card(Ace, Spades), Card(Ace, Clubs)])
    requires |h2| == 5 && multiset(h2) == multiset([Card(Two, Clubs), Card(King, Diamonds), Card(King, Hearts), Card(Ace, Diamonds), Card(Ace, Hearts)])
    ensures Ranks(TopFive(h1)) != Ranks(TopFive(h2))
    ensures TieBreak(h1) == 155432 && TieBreak(h2) == 155432
    ensures CompareHands(h1, h2) == 2
  {
    AcesAndQueensExample(h1);
    AcesAndKingsExample(h2);
    TieBreakOfRanks(h1, [Queen, Queen, King, Ace, Ace]);
    TieBreakOfRanks(h2, [Two, King, King, Ace, Ace]);
    TieBreakSums();
  }
}
