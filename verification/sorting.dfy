/** sort_cards: a stable sort of cards keyed only on the rank power. */
module Sorting {
  import opened Cards

  /** The cards are in non-decreasing rank power. */
  predicate SortedByPower(s: seq<Card>) {
    forall i, j | 0 <= i < j < |s| :: Power(s[i].rank) <= Power(s[j].rank)
  }

  /** The ranks are in non-decreasing power. */
  predicate RanksAscending(rs: seq<Rank>) {
    forall i, j | 0 <= i < j < |rs| :: Power(rs[i]) <= Power(rs[j])
  }

  /** The cards of rank k in s, in the order in which s holds them. */
  function RankFilter(s: seq<Card>, k: Rank): seq<Card> {
    if |s| == 0 then []
    else (if s[0].rank == k then [s[0]] else []) + RankFilter(s[1..], k)
  }

  /** Unfolds RankFilter once. */
  lemma RankFilterCons(s: seq<Card>, k: Rank)
    requires |s| > 0
    ensures RankFilter(s, k) == (if s[0].rank == k then [s[0]] else []) + RankFilter(s[1..], k)
  {
  }

  /** Inserts c in front of the first card of s whose power is at least c's,
      so c keeps its place ahead of the cards of s that share its rank. */
  function Insert(c: Card, s: seq<Card>): (r: seq<Card>)
    ensures |r| == |s| + 1
  {
    if |s| == 0 || Power(c.rank) <= Power(s[0].rank) then
      [c] + s
    else
      [s[0]] + Insert(c, s[1..])
  }

  /** Insertion adds exactly c. */
  lemma {:induction false} InsertPermutes(c: Card, s: seq<Card>)
    ensures multiset(Insert(c, s)) == multiset{c} + multiset(s)
  {
    if |s| > 0 && Power(c.rank) > Power(s[0].rank) {
      InsertPermutes(c, s[1..]);
      assert s == [s[0]] + s[1..];
    }
  }

  /** Inserting into a sorted sequence keeps it sorted; the new first card
      is c or the old first card. */
  lemma {:induction false} InsertSorted(c: Card, s: seq<Card>)
    requires SortedByPower(s)
    ensures SortedByPower(Insert(c, s))
    ensures Insert(c, s)[0] == c || Insert(c, s)[0] == s[0]
  {
    if |s| > 0 && Power(c.rank) > Power(s[0].rank) {
      InsertSorted(c, s[1..]);
      var r := Insert(c, s[1..]);
      var t := Insert(c, s);
      assert t == [s[0]] + r;
      assert Power(s[0].rank) <= Power(r[0].rank);
      forall i, j | 0 <= i < j < |t|
        ensures Power(t[i].rank) <= Power(t[j].rank)
      {
        if i == 0 {
          assert t[j] == r[j - 1];
          if j > 1 {
            assert Power(r[0].rank) <= Power(r[j - 1].rank);
          }
        } else {
          assert t[i] == r[i - 1] && t[j] == r[j - 1];
        }
      }
    }
  }

  /** Insertion is stable: the cards of every rank keep the order they have
      in c followed by s. */
  lemma {:induction false} InsertStableAt(c: Card, s: seq<Card>, k: Rank)
    ensures RankFilter(Insert(c, s), k) == RankFilter([c] + s, k)
  {
    if |s| > 0 && Power(c.rank) > Power(s[0].rank) {
      InsertStableAt(c, s[1..], k);
      var r := Insert(c, s[1..]);
      RankFilterCons([s[0]] + r, k);
      assert ([s[0]] + r)[1..] == r;
      RankFilterCons([c] + s[1..], k);
      assert ([c] + s[1..])[1..] == s[1..];
      RankFilterCons([c] + s, k);
      assert ([c] + s)[1..] == s;
      RankFilterCons(s, k);
      assert s[0].rank != c.rank;
    }
  }

  lemma InsertStable(c: Card, s: seq<Card>)
    ensures forall k :: RankFilter(Insert(c, s), k) == RankFilter([c] + s, k)
  {
    forall k
      ensures RankFilter(Insert(c, s), k) == RankFilter([c] + s, k)
    {
      InsertStableAt(c, s, k);
    }
  }

  /** sort_cards: the cards sorted by rank power. Python's sorted is stable,
      so cards of equal rank keep their input order. */
  function SortCards(cards: seq<Card>): (r: seq<Card>)
    ensures |r| == |cards|
    ensures SortedByPower(r)
    ensures forall k :: RankFilter(r, k) == RankFilter(cards, k)
  {
    if |cards| == 0 then []
    else
      var rest := SortCards(cards[1..]);
      InsertSorted(cards[0], rest);
      InsertStable(cards[0], rest);
      SortCardsStableStep(cards, rest);
      Insert(cards[0], rest)
  }

  lemma SortCardsStableStep(cards: seq<Card>, rest: seq<Card>)
    requires |cards| > 0
    requires forall k :: RankFilter(rest, k) == RankFilter(cards[1..], k)
    ensures forall k :: RankFilter([cards[0]] + rest, k) == RankFilter(cards, k)
  {
    forall k
      ensures RankFilter([cards[0]] + rest, k) == RankFilter(cards, k)
    {
      RankFilterCons([cards[0]] + rest, k);
      assert ([cards[0]] + rest)[1..] == rest;
      RankFilterCons(cards, k);
    }
  }

  /** sort_cards returns a permutation of its input. */
  lemma {:induction false} SortCardsPermutes(cards: seq<Card>)
    ensures multiset(SortCards(cards)) == multiset(cards)
  {
    if |cards| > 0 {
      SortCardsPermutes(cards[1..]);
      InsertPermutes(cards[0], SortCards(cards[1..]));
      assert cards == [cards[0]] + cards[1..];
    }
  }

  /** A card is kept by the filter of rank k exactly when it is in s and has rank k. */
  lemma {:induction false} RankFilterMembers(s: seq<Card>, k: Rank, c: Card)
    ensures c in RankFilter(s, k) <==> c in s && c.rank == k
  {
    if |s| > 0 {
      RankFilterMembers(s[1..], k, c);
      assert s == [s[0]] + s[1..];
    }
  }

  /** Two sorted sequences that agree on the order of the cards of every
      rank are equal. */
  lemma {:induction false} SortedSameFiltersEqual(a: seq<Card>, b: seq<Card>)
    requires SortedByPower(a) && SortedByPower(b)
    requires forall k :: RankFilter(a, k) == RankFilter(b, k)
    ensures a == b
  {
    if |a| == 0 && |b| == 0 {
      return;
    }
    if |a| == 0 || |b| == 0 {
      var c := if |a| == 0 then b[0] else a[0];
      RankFilterMembers(a, c.rank, c);
      RankFilterMembers(b, c.rank, c);
      assert false;
    }
    var x, y := a[0], b[0];
    RankFilterMembers(a, y.rank, y);
    RankFilterMembers(b, y.rank, y);
    RankFilterMembers(a, x.rank, x);
    RankFilterMembers(b, x.rank, x);
    assert Power(x.rank) <= Power(y.rank) <= Power(x.rank);
    PowerBijective();
    assert x.rank == y.rank;
    RankFilterCons(a, x.rank);
    RankFilterCons(b, x.rank);
    assert RankFilter(a, x.rank)[0] == x && RankFilter(b, x.rank)[0] == y;
    assert x == y;
    forall k
      ensures RankFilter(a[1..], k) == RankFilter(b[1..], k)
    {
      RankFilterCons(a, k);
      RankFilterCons(b, k);
      if x.rank == k {
        assert ([x] + RankFilter(a[1..], k))[1..] == RankFilter(a[1..], k);
        assert ([y] + RankFilter(b[1..], k))[1..] == RankFilter(b[1..], k);
      } else {
        assert [] + RankFilter(a[1..], k) == RankFilter(a[1..], k);
        assert [] + RankFilter(b[1..], k) == RankFilter(b[1..], k);
      }
    }
    SortedSameFiltersEqual(a[1..], b[1..]);
    assert a == [x] + a[1..] && b == [y] + b[1..];
  }

  /** Any sorting by rank power that is stable gives exactly SortCards: the
      result does not depend on the sorting algorithm. */
  lemma StableSortUnique(cards: seq<Card>, sorted: seq<Card>)
    requires SortedByPower(sorted)
    requires forall k :: RankFilter(sorted, k) == RankFilter(cards, k)
    ensures sorted == SortCards(cards)
  {
    SortedSameFiltersEqual(sorted, SortCards(cards));
  }

  /** Applies f to every card of s. */
  function MapCards(f: Card -> Card, s: seq<Card>): seq<Card> {
    seq(|s|, i requires 0 <= i < |s| => f(s[i]))
  }

  lemma {:induction false} InsertIgnoresSuits(f: Card -> Card, c: Card, s: seq<Card>)
    requires forall d :: f(d).rank == d.rank
    ensures Insert(f(c), MapCards(f, s)) == MapCards(f, Insert(c, s))
  {
    if |s| > 0 && Power(c.rank) > Power(s[0].rank) {
      InsertIgnoresSuits(f, c, s[1..]);
      assert MapCards(f, s) == [f(s[0])] + MapCards(f, s[1..]);
      assert MapCards(f, s)[1..] == MapCards(f, s[1..]);
      assert MapCards(f, Insert(c, s)) == [f(s[0])] + MapCards(f, Insert(c, s[1..]));
    } else {
      assert MapCards(f, [c] + s) == [f(c)] + MapCards(f, s);
    }
  }

  /** Suit never influences position: changing the cards in any way that
      keeps each card's rank, before or after sorting, gives the same result. */
  lemma {:induction false} SortIgnoresSuits(f: Card -> Card, cards: seq<Card>)
    requires forall d :: f(d).rank == d.rank
    ensures SortCards(MapCards(f, cards)) == MapCards(f, SortCards(cards))
  {
    if |cards| > 0 {
      SortIgnoresSuits(f, cards[1..]);
      assert MapCards(f, cards)[1..] == MapCards(f, cards[1..]);
      InsertIgnoresSuits(f, cards[0], SortCards(cards[1..]));
    }
  }

  /** The ranks of a sorted hand ascend in power. */
  lemma SortedRanksAscend(s: seq<Card>)
    requires SortedByPower(s)
    ensures RanksAscending(Ranks(s))
  {
  }

  lemma MultisetTail(s: seq<Rank>)
    requires |s| > 0
    ensures multiset(s[1..]) == multiset(s) - multiset{s[0]}
  {
    assert s == [s[0]] + s[1..];
  }

  /** Two ascending rank sequences with the same rank multiset are equal. */
  lemma {:induction false} AscendingRanksUnique(s: seq<Rank>, t: seq<Rank>)
    requires RanksAscending(s) && RanksAscending(t)
    requires multiset(s) == multiset(t)
    ensures s == t
  {
    if |s| == 0 {
      assert |t| == |multiset(t)| == 0;
      return;
    }
    assert |t| == |multiset(t)| == |multiset(s)| > 0;
    var x, y := s[0], t[0];
    assert y in multiset(s) && x in multiset(t);
    var i :| 0 <= i < |s| && s[i] == y;
    var j :| 0 <= j < |t| && t[j] == x;
    assert Power(x) <= Power(s[i]);
    assert Power(y) <= Power(t[j]);
    PowerInjective(x, y);
    MultisetTail(s);
    MultisetTail(t);
    AscendingRanksUnique(s[1..], t[1..]);
  }

  /** Sorting permutations of the same cards yields the same rank sequence. */
  lemma SortedRanksOfPermutation(a: seq<Card>, b: seq<Card>)
    requires multiset(a) == multiset(b)
    ensures Ranks(SortCards(a)) == Ranks(SortCards(b))
  {
    SortCardsPermutes(a);
    SortCardsPermutes(b);
    RanksOfPermutation(SortCards(a), SortCards(b));
    AscendingRanksUnique(Ranks(SortCards(a)), Ranks(SortCards(b)));
  }

  /** Sorting five cards is inserting them one by one, the last card first. */
  lemma SortFive(a: Card, b: Card, c: Card, d: Card, e: Card)
    ensures SortCards([a, b, c, d, e]) == Insert(a, Insert(b, Insert(c, Insert(d, Insert(e, [])))))
  {
    SortCardsCons(e, []);
    SortCardsCons(d, [e]);
    SortCardsCons(c, [d, e]);
    SortCardsCons(b, [c, d, e]);
    SortCardsCons(a, [b, c, d, e]);
  }

  lemma SortCardsCons(c: Card, s: seq<Card>)
    ensures SortCards([c] + s) == Insert(c, SortCards(s))
  {
    assert ([c] + s)[1..] == s;
  }

  /** The three orderings sort_cards is exercised on: already sorted,
      reversed and shuffled. */
  lemma SortCardsExampleSorted()
    ensures SortCards([Card(Two, Clubs), Card(Five, Hearts), Card(Nine, Diamonds), Card(Ten, Spades), Card(King, Spades)])
         == [Card(Two, Clubs), Card(Five, Hearts), Card(Nine, Diamonds), Card(Ten, Spades), Card(King, Spades)]
  {
    SortFive(Card(Two, Clubs), Card(Five, Hearts), Card(Nine, Diamonds), Card(Ten, Spades), Card(King, Spades));
  }

  lemma SortCardsExampleReversed()
    ensures SortCards([Card(King, Spades), Card(Ten, Spades), Card(Nine, Diamonds), Card(Five, Hearts), Card(Two, Clubs)])
         == [Card(Two, Clubs), Card(Five, Hearts), Card(Nine, Diamonds), Card(Ten, Spades), Card(King, Spades)]
  {
    SortFive(Card(King, Spades), Card(Ten, Spades), Card(Nine, Diamonds), Card(Five, Hearts), Card(Two, Clubs));
  }

  lemma SortCardsExampleShuffled()
    ensures SortCards([Card(Nine, Clubs), Card(Two, Hearts), Card(Four, Diamonds), Card(Queen, Spades), Card(Ace, Spades)])
         == [Card(Two, Hearts), Card(Four, Diamonds), Card(Nine, Clubs), Card(Queen, Spades), Card(Ace, Spades)]
  {
    SortFive(Card(Nine, Clubs), Card(Two, Hearts), Card(Four, Diamonds), Card(Queen, Spades), Card(Ace, Spades));
  }
}
