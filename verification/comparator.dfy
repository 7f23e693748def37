/** compare_hands: which of two hands wins. Categories are compared first;
    equal categories fall back to a weighted sum of the top five powers. */
module Comparator {
  import opened Cards
  import opened Sorting
  import opened Categories
  import opened Classifier

  /** 10 to the power i. */
  function Pow10(i: nat): (p: nat)
    ensures p >= 1
  {
    if i == 0 then 1 else 10 * Pow10(i - 1)
  }

  /** The sum over i < n of ps[i] * 10^i: the weighting compare_hands applies
      to the ascending powers of the top five, lowest card in the units place. */
  function WeightedSum(ps: seq<int>, n: nat): int
    requires n <= |ps|
  {
    if n == 0 then 0 else WeightedSum(ps, n - 1) + ps[n - 1] * Pow10(n - 1)
  }

  /** The repunit 1...1 with n ones. */
  function Repunit(n: nat): nat {
    if n == 0 then 0 else Repunit(n - 1) + Pow10(n - 1)
  }

  /** With every weighted term a rank power (2 to 14), the sum lies between
      2 and 14 times the repunit. */
  lemma {:induction false} WeightedSumBounds(ps: seq<int>, n: nat)
    requires n <= |ps|
    requires forall i | 0 <= i < n :: 2 <= ps[i] <= 14
    ensures 2 * Repunit(n) <= WeightedSum(ps, n) <= 14 * Repunit(n)
  {
    if n > 0 {
      WeightedSumBounds(ps, n - 1);
      ScaleBounds(ps[n - 1], Pow10(n - 1));
    }
  }

  lemma ScaleBounds(x: int, p: nat)
    requires 2 <= x <= 14
    ensures 2 * p <= x * p <= 14 * p
  {
    assert (x - 2) * p >= 0;
    assert (14 - x) * p >= 0;
  }

  /** The tiebreak value of a hand: the weighted sum of its top five powers. */
  function TieBreak(hand: seq<Card>): (t: int)
    requires |hand| >= 5
    ensures 22222 <= t <= 155554
  {
    var ps := Powers(Ranks(TopFive(hand)));
    PowerBijective();
    WeightedSumBounds(ps, 5);
    assert Repunit(5) == 11111;
    WeightedSum(ps, 5)
  }

  /** The HAND_POWER strength of a hand's category. */
  function HandPower(hand: seq<Card>): (p: int)
    requires |hand| >= 5
    ensures 0 <= p <= 9
    ensures p == Strength(DetermineHand(hand))
  {
    HandPowerTableAgrees();
    HandPowerTable[Name(DetermineHand(hand))]
  }

  /** compare_hands: 0 when the first hand wins, 1 when the second does,
      2 for a draw. */
  function CompareHands(h1: seq<Card>, h2: seq<Card>): (code: int)
    requires |h1| >= 5 && |h2| >= 5
    ensures 0 <= code <= 2
    ensures Strength(DetermineHand(h1)) > Strength(DetermineHand(h2)) ==> code == 0
    ensures Strength(DetermineHand(h1)) < Strength(DetermineHand(h2)) ==> code == 1
    ensures code == 2 <==> DetermineHand(h1) == DetermineHand(h2) && TieBreak(h1) == TieBreak(h2)
    ensures DetermineHand(h1) == DetermineHand(h2) ==>
      (code == 0 <==> TieBreak(h1) > TieBreak(h2)) && (code == 1 <==> TieBreak(h1) < TieBreak(h2))
  {
    StrengthIsInjective();
    var p1 := HandPower(h1);
    var p2 := HandPower(h2);
    if p1 > p2 then 0
    else if p1 < p2 then 1
    else
      var s1 := TieBreak(h1);
      var s2 := TieBreak(h2);
      if s1 > s2 then 0
      else if s1 < s2 then 1
      else 2
  }

  /** The order compare_hands induces: a hand's category strength, then its
      tiebreak value, compared lexicographically. */
  predicate Beats(h1: seq<Card>, h2: seq<Card>)
    requires |h1| >= 5 && |h2| >= 5
  {
    Strength(DetermineHand(h1)) > Strength(DetermineHand(h2))
    || (Strength(DetermineHand(h1)) == Strength(DetermineHand(h2)) && TieBreak(h1) > TieBreak(h2))
  }

  /** compare_hands answers 0 exactly when the first hand beats the second,
      1 exactly when the second beats the first. */
  lemma CompareMeansBeats(h1: seq<Card>, h2: seq<Card>)
    requires |h1| >= 5 && |h2| >= 5
    ensures CompareHands(h1, h2) == 0 <==> Beats(h1, h2)
    ensures CompareHands(h1, h2) == 1 <==> Beats(h2, h1)
  {
    StrengthIsInjective();
  }

  /** Swapping the hands exchanges the answers 0 and 1 and keeps 2. */
  lemma CompareSwap(h1: seq<Card>, h2: seq<Card>)
    requires |h1| >= 5 && |h2| >= 5
    ensures CompareHands(h2, h1) == if CompareHands(h1, h2) == 2 then 2 else 1 - CompareHands(h1, h2)
  {
    CompareMeansBeats(h1, h2);
    CompareMeansBeats(h2, h1);
  }

  /** A hand compared with itself is a draw. */
  lemma CompareSelf(h: seq<Card>)
    requires |h| >= 5
    ensures CompareHands(h, h) == 2
  {
  }

  /** Winning is transitive. */
  lemma CompareTransitive(h1: seq<Card>, h2: seq<Card>, h3: seq<Card>)
    requires |h1| >= 5 && |h2| >= 5 && |h3| >= 5
    ensures CompareHands(h1, h2) == 0 && CompareHands(h2, h3) == 0 ==> CompareHands(h1, h3) == 0
  {
    CompareMeansBeats(h1, h2);
    CompareMeansBeats(h2, h3);
    CompareMeansBeats(h1, h3);
  }

  /** A draw is transitive too, so compare_hands is a total preorder. */
  lemma DrawTransitive(h1: seq<Card>, h2: seq<Card>, h3: seq<Card>)
    requires |h1| >= 5 && |h2| >= 5 && |h3| >= 5
    ensures CompareHands(h1, h2) == 2 && CompareHands(h2, h3) == 2 ==> CompareHands(h1, h3) == 2
  {
  }

  /** For five-card hands only the cards matter, not the order they are held in. */
  lemma CompareOrderIndependent(a1: seq<Card>, b1: seq<Card>, a2: seq<Card>, b2: seq<Card>)
    requires |a1| == 5 && |b1| == 5 && multiset(a1) == multiset(b1)
    requires |a2| == 5 && |b2| == 5 && multiset(a2) == multiset(b2)
    ensures CompareHands(a1, a2) == CompareHands(b1, b2)
  {
    DetermineHandOrderIndependent(a1, b1);
    DetermineHandOrderIndependent(a2, b2);
    TopFiveRanksOfPermutation(a1, b1);
    TopFiveRanksOfPermutation(a2, b2);
  }

  /** Permuting a five-card hand keeps the ranks of its top five. */
  lemma TopFiveRanksOfPermutation(a: seq<Card>, b: seq<Card>)
    requires |a| == 5 && |b| == 5 && multiset(a) == multiset(b)
    ensures Ranks(TopFive(a)) == Ranks(TopFive(b))
  {
    SortedRanksOfPermutation(a, b);
    assert TopFive(a) == SortCards(a);
    assert TopFive(b) == SortCards(b);
  }

  /** Suits never affect the tiebreak: any change to the cards that keeps
      every rank keeps the sum. */
  lemma TieBreakIgnoresSuits(f: Card -> Card, h: seq<Card>)
    requires |h| >= 5
    requires forall d :: f(d).rank == d.rank
    ensures TieBreak(MapCards(f, h)) == TieBreak(h)
  {
    var g := MapCards(f, h);
    SortIgnoresSuits(f, h);
    assert Ranks(TopFive(g)) == Ranks(TopFive(h)) by {
      forall i | 0 <= i < 5
        ensures TopFive(g)[i].rank == TopFive(h)[i].rank
      {
        assert TopFive(g)[i] == MapCards(f, SortCards(h))[|h| - 5 + i];
      }
    }
  }

  /** Unfolds the tiebreak for a hand whose top five ranks are known. */
  lemma TieBreakOfRanks(h: seq<Card>, ranks: seq<Rank>)
    requires |h| >= 5 && Ranks(TopFive(h)) == ranks
    ensures TieBreak(h) == WeightedSum(Powers(ranks), 5)
  {
  }
}
