/** The ten hand categories and the HAND_POWER table that ranks them. */
module Categories {

  datatype Category =
    | RoyalFlush | StraightFlush | FourOfAKind | FullHouse | Flush
    | Straight | ThreeOfAKind | TwoPairs | Pair | HighCard

  /** The name determine_hand returns for a category. */
  function Name(c: Category): string {
    match c
    case RoyalFlush => "royal flush"
    case StraightFlush => "straight flush"
    case FourOfAKind => "four of a kind"
    case FullHouse => "full house"
    case Flush => "flush"
    case Straight => "straight"
    case ThreeOfAKind => "three of a kind"
    case TwoPairs => "two pairs"
    case Pair => "pair"
    case HighCard => "high card"
  }

  /** The strength of a category: its value in HAND_POWER. */
  function Strength(c: Category): int {
    match c
    case RoyalFlush => 9
    case StraightFlush => 8
    case FourOfAKind => 7
    case FullHouse => 6
    case Flush => 5
    case Straight => 4
    case ThreeOfAKind => 3
    case TwoPairs => 2
    case Pair => 1
    case HighCard => 0
  }

  /** HAND_POWER, keyed by category name. */
  const HandPowerTable: map<string, int> :=
    map["royal flush" := 9, "straight flush" := 8, "four of a kind" := 7, "full house" := 6,
        "flush" := 5, "straight" := 4, "three of a kind" := 3, "two pairs" := 2,
        "pair" := 1, "high card" := 0]

  /** Every category's name is a key of HAND_POWER, stored with the category's
      strength, and every key names a category. */
  lemma HandPowerTableAgrees()
    ensures forall c :: Name(c) in HandPowerTable && HandPowerTable[Name(c)] == Strength(c)
    ensures forall k | k in HandPowerTable :: exists c :: Name(c) == k
  {
    forall k | k in HandPowerTable
      ensures exists c :: Name(c) == k
    {
      var c := if k == "royal flush" then RoyalFlush else if k == "straight flush" then StraightFlush
        else if k == "four of a kind" then FourOfAKind else if k == "full house" then FullHouse
        else if k == "flush" then Flush else if k == "straight" then Straight
        else if k == "three of a kind" then ThreeOfAKind else if k == "two pairs" then TwoPairs
        else if k == "pair" then Pair else HighCard;
      assert Name(c) == k;
    }
  }

  /** Strengths run from 0 to 9 and no two categories share one. */
  lemma StrengthIsInjective()
    ensures forall c :: 0 <= Strength(c) <= 9
    ensures forall c, d :: Strength(c) == Strength(d) ==> c == d
  {
  }

  /** The flush family: the categories that need all five cards of one suit. */
  predicate IsFlushFamily(c: Category) {
    c == RoyalFlush || c == StraightFlush || c == Flush
  }
}
