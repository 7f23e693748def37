/** The poker hand categories stated by how often each rank occurs, with no
    reference to card order: an independent description of what the
    classifier's positional tests on a sorted hand compute. */
module PokerRules {
  import opened Cards
  import opened Categories

  /** Some rank occurs exactly k times. */
  ghost predicate HasCount(m: multiset<Rank>, k: nat) {
    exists r :: m[r] == k
  }

  /** Some rank occurs at least k times. */
  ghost predicate HasAtLeast(m: multiset<Rank>, k: nat) {
    exists r :: m[r] >= k
  }

  /** Two different ranks occur exactly twice each. */
  ghost predicate HasTwoPairs(m: multiset<Rank>) {
    exists r, r' :: r != r' && m[r] == 2 && m[r'] == 2
  }

  /** The ranks are exactly the five consecutive powers lo .. lo + 4, once each. */
  ghost predicate IsRunFrom(m: multiset<Rank>, lo: int) {
    forall r :: m[r] == (if lo <= Power(r) <= lo + 4 then 1 else 0)
  }

  /** The ranks are five consecutive powers, once each (aces count high only). */
  ghost predicate IsRun(m: multiset<Rank>) {
    exists lo | 2 <= lo <= 10 :: IsRunFrom(m, lo)
  }

  /** The category of a five-card hand with rank multiset m and suit set
      suits, by the usual poker precedence. */
  ghost function PokerCategory(m: multiset<Rank>, suits: set<Suit>): Category {
    var flush := |suits| == 1;
    if flush && IsRunFrom(m, 10) then RoyalFlush
    else if flush && IsRun(m) then StraightFlush
    else if flush then Flush
    else if HasAtLeast(m, 4) then FourOfAKind
    else if HasCount(m, 3) && HasCount(m, 2) then FullHouse
    else if IsRun(m) then Straight
    else if HasCount(m, 3) then ThreeOfAKind
    else if HasTwoPairs(m) then TwoPairs
    else if HasCount(m, 2) then Pair
    else HighCard
  }
}
