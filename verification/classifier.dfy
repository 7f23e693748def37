/** determine_hand: the ordered, first-match decision list over the five
    highest cards of a hand. */
module Classifier {
  import opened Cards
  import opened Sorting
  import opened Categories
  import opened PokerRules

  /** The last five cards after sorting by rank power: the five highest. */
  function TopFive(hand: seq<Card>): (top: seq<Card>)
    requires |hand| >= 5
    ensures |top| == 5
    ensures SortedByPower(top)
    ensures forall i, j | 0 <= i < |hand| - 5 && 0 <= j < 5 :: Power(SortCards(hand)[i].rank) <= Power(top[j].rank)
    ensures multiset(top) + multiset(SortCards(hand)[..|hand| - 5]) == multiset(hand)
  {
    var s := SortCards(hand);
    SortCardsPermutes(hand);
    assert s == s[..|hand| - 5] + s[|hand| - 5..];
    s[|hand| - 5..]
  }

  // The positional tests of determine_hand on the ranks r1 .. r5 (here
  // r[0] .. r[4]) of the sorted top five. A Python chain a == b == c means
  // a == b and b == c.

  predicate FourPattern(r: seq<Rank>)
    requires |r| == 5
  {
    (r[0] == r[1] && r[1] == r[2] && r[2] == r[3]) || (r[1] == r[2] && r[2] == r[3] && r[3] == r[4])
  }

  predicate FullHousePattern(r: seq<Rank>)
    requires |r| == 5
  {
    (r[0] == r[1] && r[1] == r[2] && r[3] == r[4]) || (r[0] == r[1] && r[2] == r[3] && r[3] == r[4])
  }

  predicate ThreePattern(r: seq<Rank>)
    requires |r| == 5
  {
    (r[0] == r[1] && r[1] == r[2]) || (r[1] == r[2] && r[2] == r[3]) || (r[2] == r[3] && r[3] == r[4])
  }

  predicate TwoPairPattern(r: seq<Rank>)
    requires |r| == 5
  {
    (r[0] == r[1] && r[2] == r[3]) || (r[1] == r[2] && r[3] == r[4]) || (r[0] == r[1] && r[3] == r[4])
  }

  predicate PairPattern(r: seq<Rank>)
    requires |r| == 5
  {
    r[0] == r[1] || r[1] == r[2] || r[2] == r[3] || r[3] == r[4]
  }

  /** The four consecutive power differences are equal and the last is 1,
      each link of the comparison chain tested separately. */
  predicate StepsOfOne(r: seq<Rank>)
    requires |r| == 5
  {
    var p1, p2, p3, p4, p5 := Power(r[0]), Power(r[1]), Power(r[2]), Power(r[3]), Power(r[4]);
    p2 - p1 == p3 - p2 && p3 - p2 == p4 - p3 && p4 - p3 == p5 - p4 && p5 - p4 == 1
  }

  /** The decision list of determine_hand, on the ranks of the sorted top
      five and the set of their suits. */
  function ClassifySorted(ranks: seq<Rank>, suits: set<Suit>): (c: Category)
    requires |ranks| == 5
    ensures IsFlushFamily(c) <==> |suits| == 1
    ensures c == RoyalFlush <==> |suits| == 1 && ranks == [Ten, Jack, Queen, King, Ace]
  {
    if |suits| == 1 then
      if ranks == [Ten, Jack, Queen, King, Ace] then RoyalFlush
      else if StepsOfOne(ranks) then StraightFlush
      else Flush
    else if FourPattern(ranks) then FourOfAKind
    else if FullHousePattern(ranks) then FullHouse
    else if StepsOfOne(ranks) then Straight
    else if ThreePattern(ranks) then ThreeOfAKind
    else if TwoPairPattern(ranks) then TwoPairs
    else if PairPattern(ranks) then Pair
    else HighCard
  }

  /** determine_hand: the category of a hand of at least five cards. The
      flush family is chosen exactly when the top five share one suit. */
  function DetermineHand(hand: seq<Card>): (c: Category)
    requires |hand| >= 5
    ensures IsFlushFamily(c) <==> |SuitSet(TopFive(hand))| == 1
  {
    var top := TopFive(hand);
    ClassifySorted(Ranks(top), SuitSet(top))
  }

  function Ind(b: bool): int {
    if b then 1 else 0
  }

  /** How often each rank occurs among five ranks. */
  lemma CountsOfFive(s: seq<Rank>)
    requires |s| == 5
    ensures forall r :: multiset(s)[r] == Ind(s[0] == r) + Ind(s[1] == r) + Ind(s[2] == r) + Ind(s[3] == r) + Ind(s[4] == r)
  {
    assert s == [s[0]] + [s[1]] + [s[2]] + [s[3]] + [s[4]];
  }

  /** In ascending ranks equal ranks are adjacent: two equal ranks enclose
      only ranks equal to them. */
  lemma AscendingFive(s: seq<Rank>)
    requires |s| == 5 && RanksAscending(s)
    ensures s[0] == s[2] ==> s[1] == s[0]
    ensures s[1] == s[3] ==> s[2] == s[1]
    ensures s[2] == s[4] ==> s[3] == s[2]
    ensures s[0] == s[3] ==> s[1] == s[0] && s[2] == s[0]
    ensures s[1] == s[4] ==> s[2] == s[1] && s[3] == s[1]
    ensures s[0] == s[4] ==> s[1] == s[0] && s[2] == s[0] && s[3] == s[0]
  {
    forall i, j, k | 0 <= i < j < k < 5 && s[i] == s[k]
      ensures s[j] == s[i]
    {
      PowerInjective(s[j], s[i]);
    }
  }

  lemma FourPatternIsFourOfARank(s: seq<Rank>)
    requires |s| == 5 && RanksAscending(s)
    ensures FourPattern(s) <==> HasAtLeast(multiset(s), 4)
  {
    CountsOfFive(s);
    if FourPattern(s) {
      assert multiset(s)[s[2]] >= 4;
    }
    if HasAtLeast(multiset(s), 4) {
      var r :| multiset(s)[r] >= 4;
      AscendingFive(s);
      if s[0] != r {
        assert s[1] == r && s[2] == r && s[3] == r && s[4] == r;
      } else if s[4] != r {
        assert s[1] == r && s[2] == r && s[3] == r;
      }
    }
  }

  lemma FullHousePatternIsThreeAndTwo(s: seq<Rank>)
    requires |s| == 5 && RanksAscending(s)
    requires !FourPattern(s)
    ensures FullHousePattern(s) <==> HasCount(multiset(s), 3) && HasCount(multiset(s), 2)
  {
    if FullHousePattern(s) {
      FullHousePatternCounts(s);
    }
    if HasCount(multiset(s), 3) && HasCount(multiset(s), 2) {
      var r :| multiset(s)[r] == 3;
      var q :| multiset(s)[q] == 2;
      ThreeAndTwoIsFullHousePattern(s, r, q);
    }
  }

  lemma FullHousePatternCounts(s: seq<Rank>)
    requires |s| == 5 && RanksAscending(s)
    requires !FourPattern(s) && FullHousePattern(s)
    ensures HasCount(multiset(s), 3) && HasCount(multiset(s), 2)
  {
    CountsOfFive(s);
    if s[0] == s[1] && s[1] == s[2] && s[3] == s[4] {
      assert s[2] != s[3];
      assert multiset(s)[s[0]] == 3 && multiset(s)[s[4]] == 2;
    } else {
      assert s[1] != s[2];
      assert multiset(s)[s[0]] == 2 && multiset(s)[s[4]] == 3;
    }
  }

  lemma ThreeAndTwoIsFullHousePattern(s: seq<Rank>, r: Rank, q: Rank)
    requires |s| == 5 && RanksAscending(s)
    requires multiset(s)[r] == 3 && multiset(s)[q] == 2
    ensures FullHousePattern(s)
  {
    CountsOfFive(s);
    AscendingFive(s);
    if s[0] == r {
      assert s[1] == r && s[2] == r;
      assert s[3] == q && s[4] == q;
    } else {
      assert s[0] == q && s[1] == q;
      assert s[2] == r && s[3] == r && s[4] == r;
    }
  }

  lemma StepsOfOneIsRun(s: seq<Rank>)
    requires |s| == 5 && RanksAscending(s)
    ensures StepsOfOne(s) <==> IsRun(multiset(s))
  {
    CountsOfFive(s);
    AscendingFive(s);
    var m := multiset(s);
    if StepsOfOne(s) {
      var lo := Power(s[0]);
      forall r
        ensures m[r] == (if lo <= Power(r) <= lo + 4 then 1 else 0)
      {
        if lo <= Power(r) <= lo + 4 {
          var k := Power(r) - lo;
          assert Power(s[k]) == Power(r);
          PowerInjective(s[k], r);
        }
      }
      assert IsRunFrom(m, lo);
    }
    if IsRun(m) {
      var lo :| 2 <= lo <= 10 && IsRunFrom(m, lo);
      RunIsConsecutive(s, lo);
    }
  }

  /** Five ascending ranks that are the run lo .. lo + 4 have powers lo .. lo + 4 in order. */
  lemma RunIsConsecutive(s: seq<Rank>, lo: int)
    requires |s| == 5 && RanksAscending(s)
    requires IsRunFrom(multiset(s), lo)
    ensures forall i | 0 <= i < 5 :: Power(s[i]) == lo + i
  {
    CountsOfFive(s);
    AscendingFive(s);
    var m := multiset(s);
    assert m[s[0]] == 1 && m[s[1]] == 1 && m[s[2]] == 1 && m[s[3]] == 1 && m[s[4]] == 1;
    assert lo <= Power(s[0]) && Power(s[4]) <= lo + 4;
  }

  lemma RoyalRanksIsRunFromTen(s: seq<Rank>)
    requires |s| == 5 && RanksAscending(s)
    ensures s == [Ten, Jack, Queen, King, Ace] <==> IsRunFrom(multiset(s), 10)
  {
    CountsOfFive(s);
    if IsRunFrom(multiset(s), 10) {
      RunIsConsecutive(s, 10);
      PowerInjective(s[0], Ten);
      PowerInjective(s[1], Jack);
      PowerInjective(s[2], Queen);
      PowerInjective(s[3], King);
      PowerInjective(s[4], Ace);
    }
  }

  lemma ThreePatternIsThreeOfARank(s: seq<Rank>)
    requires |s| == 5 && RanksAscending(s)
    requires !FourPattern(s)
    ensures ThreePattern(s) <==> HasCount(multiset(s), 3)
  {
    CountsOfFive(s);
    AscendingFive(s);
    if ThreePattern(s) {
      assert multiset(s)[s[2]] == 3;
    }
    if HasCount(multiset(s), 3) {
      var r :| multiset(s)[r] == 3;
      assert s[2] == r;
    }
  }

  lemma TwoPairPatternIsTwoPairs(s: seq<Rank>)
    requires |s| == 5 && RanksAscending(s)
    requires !ThreePattern(s)
    ensures TwoPairPattern(s) <==> HasTwoPairs(multiset(s))
  {
    if TwoPairPattern(s) {
      TwoPairPatternCounts(s);
    }
    if HasTwoPairs(multiset(s)) {
      var r, q :| r != q && multiset(s)[r] == 2 && multiset(s)[q] == 2;
      TwoPairsIsTwoPairPattern(s, r, q);
    }
  }

  lemma TwoPairPatternCounts(s: seq<Rank>)
    requires |s| == 5 && RanksAscending(s)
    requires !ThreePattern(s) && TwoPairPattern(s)
    ensures HasTwoPairs(multiset(s))
  {
    CountsOfFive(s);
    AscendingFive(s);
    if s[0] == s[1] && s[2] == s[3] {
      assert multiset(s)[s[0]] == 2 && multiset(s)[s[2]] == 2;
    } else if s[1] == s[2] && s[3] == s[4] {
      assert multiset(s)[s[1]] == 2 && multiset(s)[s[3]] == 2;
    } else {
      assert multiset(s)[s[0]] == 2 && multiset(s)[s[3]] == 2;
    }
  }

  lemma TwoPairsIsTwoPairPattern(s: seq<Rank>, r: Rank, q: Rank)
    requires |s| == 5 && RanksAscending(s)
    requires r != q && multiset(s)[r] == 2 && multiset(s)[q] == 2
    ensures TwoPairPattern(s)
  {
    CountsOfFive(s);
    AscendingFive(s);
    assert s[1] == r || s[1] == q;
    assert s[3] == r || s[3] == q;
  }

  lemma PairPatternIsPair(s: seq<Rank>)
    requires |s| == 5 && RanksAscending(s)
    requires !ThreePattern(s)
    ensures PairPattern(s) <==> HasCount(multiset(s), 2)
  {
    CountsOfFive(s);
    AscendingFive(s);
    if PairPattern(s) {
      if s[0] == s[1] {
        assert multiset(s)[s[0]] == 2;
      } else if s[1] == s[2] {
        assert multiset(s)[s[1]] == 2;
      } else if s[2] == s[3] {
        assert multiset(s)[s[2]] == 2;
      } else {
        assert multiset(s)[s[3]] == 2;
      }
    }
    if HasCount(multiset(s), 2) {
      var r :| multiset(s)[r] == 2;
    }
  }

  /** On ascending ranks the decision list computes the category that the
      poker rules assign by rank counts. */
  lemma ClassifySortedFollowsPokerRules(s: seq<Rank>, suits: set<Suit>)
    requires |s| == 5 && RanksAscending(s)
    ensures ClassifySorted(s, suits) == PokerCategory(multiset(s), suits)
  {
    RoyalRanksIsRunFromTen(s);
    StepsOfOneIsRun(s);
    FourPatternIsFourOfARank(s);
    if !FourPattern(s) {
      FullHousePatternIsThreeAndTwo(s);
      ThreePatternIsThreeOfARank(s);
      if !ThreePattern(s) {
        TwoPairPatternIsTwoPairs(s);
        PairPatternIsPair(s);
      }
    }
  }

  /** determine_hand computes the poker category of the five highest cards:
      only their rank multiset and their suit set matter. */
  lemma DetermineHandFollowsPokerRules(hand: seq<Card>)
    requires |hand| >= 5
    ensures DetermineHand(hand) == PokerCategory(multiset(Ranks(TopFive(hand))), SuitSet(TopFive(hand)))
  {
    SortedRanksAscend(TopFive(hand));
    ClassifySortedFollowsPokerRules(Ranks(TopFive(hand)), SuitSet(TopFive(hand)));
  }

  /** For five cards the category does not depend on their order. */
  lemma DetermineHandOrderIndependent(a: seq<Card>, b: seq<Card>)
    requires |a| == 5 && |b| == 5 && multiset(a) == multiset(b)
    ensures DetermineHand(a) == DetermineHand(b)
  {
    assert TopFive(a) == SortCards(a) && TopFive(b) == SortCards(b);
    SortCardsPermutes(a);
    SortCardsPermutes(b);
    RanksOfPermutation(SortCards(a), SortCards(b));
    SuitsOfPermutation(SortCards(a), SortCards(b));
    DetermineHandFollowsPokerRules(a);
    DetermineHandFollowsPokerRules(b);
  }

  /** determine_hand always returns one of the ten keys of HAND_POWER. */
  lemma DetermineHandNamesAKey(hand: seq<Card>)
    requires |hand| >= 5
    ensures Name(DetermineHand(hand)) in HandPowerTable
  {
    HandPowerTableAgrees();
  }

  /** Aces rank high only: A-2-3-4-5 of mixed suits is no straight but a high card. */
  lemma NoAceLowStraight(hand: seq<Card>)
    requires |hand| >= 5
    requires Ranks(TopFive(hand)) == [Two, Three, Four, Five, Ace]
    requires |SuitSet(TopFive(hand))| != 1
    ensures DetermineHand(hand) == HighCard
  {
  }

  /** Classifying the top five again gives the same category, so print_hand,
      which classifies the already cut hand, reports what determine_hand does. */
  lemma DetermineHandOfTopFive(hand: seq<Card>)
    requires |hand| >= 5
    ensures TopFive(TopFive(hand)) == TopFive(hand)
    ensures DetermineHand(TopFive(hand)) == DetermineHand(hand)
  {
    var top := TopFive(hand);
    StableSortUnique(top, top);
    assert SortCards(top)[0..] == SortCards(top);
  }
}
