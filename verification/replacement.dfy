/** replace_card: exchanging one card of a hand for another during the draw. */
module Replacement {
  import opened Wrappers
  import opened Cards

  /** The position of the first occurrence of a card, as list.index finds it. */
  function IndexOf(hand: seq<Card>, card: Card): (i: nat)
    requires card in hand
    ensures i < |hand| && hand[i] == card
    ensures forall j | 0 <= j < i :: hand[j] != card
  {
    if hand[0] == card then 0 else 1 + IndexOf(hand[1..], card)
  }

  /** list.index raises when the card is absent; that is the only failure. */
  datatype ReplaceError = NotFound

  /** replace_card: the first occurrence of card is overwritten with newCard. */
  function ReplaceCard(hand: seq<Card>, card: Card, newCard: Card): (r: Result<seq<Card>, ReplaceError>)
    ensures r.Failure? <==> card !in hand
    ensures r.Success? ==>
      && |r.value| == |hand|
      && r.value[IndexOf(hand, card)] == newCard
      && forall j | 0 <= j < |hand| && j != IndexOf(hand, card) :: r.value[j] == hand[j]
  {
    if card in hand then Success(hand[IndexOf(hand, card) := newCard]) else Failure(NotFound)
  }

  /** The hand loses one copy of card and gains one of newCard. */
  lemma ReplaceExchangesOneCard(hand: seq<Card>, card: Card, newCard: Card)
    requires card in hand
    ensures ReplaceCard(hand, card, newCard).Success?
    ensures multiset(ReplaceCard(hand, card, newCard).value)
         == multiset(hand) - multiset{card} + multiset{newCard}
  {
    var i := IndexOf(hand, card);
    var r := ReplaceCard(hand, card, newCard).value;
    assert hand == hand[..i] + [card] + hand[i + 1..];
    assert r == hand[..i] + [newCard] + hand[i + 1..];
  }

  /** Drawing a card that is not yet in a hand without duplicates keeps the
      hand free of duplicates. */
  lemma ReplaceKeepsNoDuplicates(hand: seq<Card>, card: Card, newCard: Card)
    requires card in hand && newCard !in hand && NoDuplicates(hand)
    ensures NoDuplicates(ReplaceCard(hand, card, newCard).value)
  {
    var r := ReplaceCard(hand, card, newCard).value;
    var i := IndexOf(hand, card);
    forall j, k | 0 <= j < k < |r|
      ensures r[j] != r[k]
    {
      if j == i {
        assert r[k] == hand[k];
      } else if k == i {
        assert r[j] == hand[j];
      } else {
        assert r[j] == hand[j] && r[k] == hand[k];
      }
    }
  }

  /** Putting the old card back undoes a replacement by a card the hand did
      not hold. */
  lemma ReplaceUndo(hand: seq<Card>, card: Card, newCard: Card)
    requires card in hand && newCard !in hand
    ensures ReplaceCard(hand, card, newCard).Success?
    ensures var r := ReplaceCard(hand, card, newCard).value;
      ReplaceCard(r, newCard, card) == Success(hand)
  {
    var i := IndexOf(hand, card);
    var r := ReplaceCard(hand, card, newCard).value;
    assert newCard in r;
    assert IndexOf(r, newCard) == i;
    assert r[i := card] == hand;
  }

  /** The replace_card test case: Q of clubs is exchanged for K of hearts. */
  lemma ReplaceCardExample()
    ensures ReplaceCard([Card(Ten, Clubs), Card(Jack, Clubs), Card(Queen, Clubs), Card(King, Clubs), Card(Ace, Clubs)],
                        Card(Queen, Clubs), Card(King, Hearts))
         == Success([Card(Ten, Clubs), Card(Jack, Clubs), Card(King, Hearts), Card(King, Clubs), Card(Ace, Clubs)])
  {
    var hand := [Card(Ten, Clubs), Card(Jack, Clubs), Card(Queen, Clubs), Card(King, Clubs), Card(Ace, Clubs)];
    var want := [Card(Ten, Clubs), Card(Jack, Clubs), Card(King, Hearts), Card(King, Clubs), Card(Ace, Clubs)];
    assert hand[2] == Card(Queen, Clubs);
    var r := ReplaceCard(hand, Card(Queen, Clubs), Card(King, Hearts));
    assert IndexOf(hand, Card(Queen, Clubs)) == 2;
    assert r.value == want;
  }
}
