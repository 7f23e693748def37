/** Building the deck and dealing cards from its front. */
module Deck {
  import opened Wrappers
  import opened Cards

  /** A complete deck: all 52 rank and suit combinations, each exactly once. */
  ghost predicate IsFullDeck(d: seq<Card>) {
    && |d| == 52
    && NoDuplicates(d)
    && forall c: Card :: c in d
  }

  /** The deck before shuffling, built by the two nested loops over ranks
      (outer) and suits (inner): card 4 * i + j is rank i with suit j. */
  method BuildDeck() returns (deck: seq<Card>)
    ensures IsFullDeck(deck)
    ensures forall i, j | 0 <= i < |AllRanks| && 0 <= j < |AllSuits| :: deck[4 * i + j] == Card(AllRanks[i], AllSuits[j])
  {
    deck := [];
    var i := 0;
    while i < |AllRanks|
      invariant 0 <= i <= |AllRanks|
      invariant |deck| == 4 * i
      invariant forall k | 0 <= k < |deck| :: deck[k] == Card(AllRanks[k / 4], AllSuits[k % 4])
    {
      var j := 0;
      while j < |AllSuits|
        invariant 0 <= j <= |AllSuits|
        invariant |deck| == 4 * i + j
        invariant forall k | 0 <= k < |deck| :: deck[k] == Card(AllRanks[k / 4], AllSuits[k % 4])
      {
        assert (4 * i + j) / 4 == i && (4 * i + j) % 4 == j;
        deck := deck + [Card(AllRanks[i], AllSuits[j])];
        j := j + 1;
      }
      i := i + 1;
    }
    RankMajorOrderIsFull(deck);
  }

  /** The 52 cards listed rank-major, suit-minor form a full deck. */
  lemma RankMajorOrderIsFull(deck: seq<Card>)
    requires |deck| == 52
    requires forall k | 0 <= k < 52 :: deck[k] == Card(AllRanks[k / 4], AllSuits[k % 4])
    ensures IsFullDeck(deck)
    ensures forall i, j | 0 <= i < |AllRanks| && 0 <= j < |AllSuits| :: deck[4 * i + j] == Card(AllRanks[i], AllSuits[j])
  {
    forall i, j | 0 <= i < |AllRanks| && 0 <= j < |AllSuits|
      ensures deck[4 * i + j] == Card(AllRanks[i], AllSuits[j])
    {
      assert (4 * i + j) / 4 == i && (4 * i + j) % 4 == j;
    }
    forall p, q | 0 <= p < q < |deck|
      ensures deck[p] != deck[q]
    {
      RankMajorPositionsDiffer(p, q);
    }
    forall c: Card
      ensures c in deck
    {
      AllRanksAscending();
      var i, j := Power(c.rank) - 2, SuitIndex(c.suit);
      assert (4 * i + j) / 4 == i && (4 * i + j) % 4 == j;
      assert deck[4 * i + j] == c;
    }
  }

  /** Distinct positions of the rank-major listing hold distinct cards. */
  lemma RankMajorPositionsDiffer(p: int, q: int)
    requires 0 <= p < q < 52
    ensures Card(AllRanks[p / 4], AllSuits[p % 4]) != Card(AllRanks[q / 4], AllSuits[q % 4])
  {
    AllRanksAscending();
    if p / 4 == q / 4 {
      assert p % 4 != q % 4;
    } else {
      assert Power(AllRanks[p / 4]) != Power(AllRanks[q / 4]);
    }
  }

  /** Shuffling only permutes the deck: any permutation of a full deck is
      again a full deck. */
  lemma ShuffleKeepsFullDeck(deck: seq<Card>, shuffled: seq<Card>)
    requires IsFullDeck(deck)
    requires multiset(shuffled) == multiset(deck)
    ensures IsFullDeck(shuffled)
  {
    NoDuplicatesIffSingleCounts(deck);
    NoDuplicatesIffSingleCounts(shuffled);
    assert |shuffled| == |multiset(shuffled)| == |multiset(deck)| == 52;
    forall c: Card
      ensures c in shuffled
    {
      assert c in deck;
      assert multiset(shuffled)[c] > 0;
    }
  }

  /** The two ValueErrors get_cards raises. */
  datatype DealError = NonPositive | ExceedsDeck

  /** The message each error carries. */
  function Message(e: DealError): (m: string)
    ensures m == "n must be > 0!" || m == "n must be <= len(deck)!"
  {
    match e
    case NonPositive => "n must be > 0!"
    case ExceedsDeck => "n must be <= len(deck)!"
  }

  /** The two messages tell the errors apart. */
  lemma MessagesDistinguishErrors(e1: DealError, e2: DealError)
    ensures Message(e1) == Message(e2) <==> e1 == e2
  {
    if e1 != e2 {
      assert Message(e1)[10] != Message(e2)[10];
    }
  }

  /** What a call of get_cards produces: the dealt cards or an error, and
      the contents of the deck list once the call is over. */
  datatype DealOutcome = DealOutcome(dealt: Result<seq<Card>, DealError>, deckAfter: seq<Card>)

  /** Deals the first n cards of the deck, leaving the rest in the deck. */
  function GetCards(n: int, deck: seq<Card>): (r: DealOutcome)
    ensures n <= 0 ==> r.dealt == Failure(NonPositive)
    ensures 0 < n && |deck| < n ==> r.dealt == Failure(ExceedsDeck)
    ensures r.dealt.Success? <==> 0 < n <= |deck|
    ensures r.dealt.Failure? ==> r.deckAfter == deck
    ensures r.dealt.Success? ==> |r.dealt.value| == n && r.dealt.value + r.deckAfter == deck
  {
    if n <= 0 then
      DealOutcome(Failure(NonPositive), deck)
    else if n > |deck| then
      DealOutcome(Failure(ExceedsDeck), deck)
    else
      DealOutcome(Success(deck[..n]), deck[n..])
  }

  /** Dealing from a deck without duplicates yields cards that are not
      duplicated and that are no longer in the deck; no card is lost. */
  lemma DealSplitsDeck(n: int, deck: seq<Card>)
    requires NoDuplicates(deck)
    requires GetCards(n, deck).dealt.Success?
    ensures var r := GetCards(n, deck);
      && NoDuplicates(r.dealt.value)
      && NoDuplicates(r.deckAfter)
      && multiset(r.dealt.value) + multiset(r.deckAfter) == multiset(deck)
      && forall c | c in r.dealt.value :: c !in r.deckAfter
  {
    var r := GetCards(n, deck);
    assert deck == r.dealt.value + r.deckAfter;
    forall c | c in r.dealt.value
      ensures c !in r.deckAfter
    {
      var i :| 0 <= i < n && r.dealt.value[i] == c;
      assert deck[i] == c;
    }
  }

  /** The two five-card hands the game deals one after the other from a deck
      without duplicates share no card. */
  lemma SuccessiveDealsDisjoint(deck: seq<Card>)
    requires NoDuplicates(deck)
    requires |deck| >= 10
    ensures var first := GetCards(5, deck);
      var second := GetCards(5, first.deckAfter);
      && first.dealt.Success? && second.dealt.Success?
      && forall c | c in first.dealt.value :: c !in second.dealt.value
  {
    var first := GetCards(5, deck);
    DealSplitsDeck(5, deck);
    var second := GetCards(5, first.deckAfter);
    assert forall c | c in second.dealt.value :: c in first.deckAfter;
  }

  lemma GetCardsExamples()
    ensures GetCards(1, [Card(Two, Clubs), Card(Ace, Hearts)]) == DealOutcome(Success([Card(Two, Clubs)]), [Card(Ace, Hearts)])
    ensures GetCards(2, [Card(Two, Clubs), Card(Ace, Hearts)]) == DealOutcome(Success([Card(Two, Clubs), Card(Ace, Hearts)]), [])
    ensures GetCards(0, [Card(Two, Clubs), Card(Ace, Hearts)]).dealt == Failure(NonPositive)
    ensures GetCards(-2, [Card(Two, Clubs), Card(Ace, Hearts)]).dealt == Failure(NonPositive)
    ensures GetCards(10, [Card(Two, Clubs), Card(Ace, Hearts)]).dealt == Failure(ExceedsDeck)
    ensures GetCards(1, []).dealt == Failure(ExceedsDeck)
  {
    var deck := [Card(Two, Clubs), Card(Ace, Hearts)];
    assert deck[..1] == [Card(Two, Clubs)] && deck[1..] == [Card(Ace, Hearts)];
    assert deck[..2] == deck && deck[2..] == [];
  }
}
