/** Ranks, suits and cards of a standard 52-card deck, together with the
    RANK_POWER table that orders ranks and feeds the comparator's tiebreak. */
module Cards {

  datatype Rank = Two | Three | Four | Five | Six | Seven | Eight | Nine | Ten | Jack | Queen | King | Ace

  /** Clubs, diamonds, hearts and spades: the symbols 'C', 'D', 'H', 'S'. */
  datatype Suit = Clubs | Diamonds | Hearts | Spades

  /** A card is an immutable (rank, suit) pair; equality is structural. */
  datatype Card = Card(rank: Rank, suit: Suit)

  /** The power of a rank: its value in RANK_POWER. */
  function Power(r: Rank): int {
    match r
    case Two => 2
    case Three => 3
    case Four => 4
    case Five => 5
    case Six => 6
    case Seven => 7
    case Eight => 8
    case Nine => 9
    case Ten => 10
    case Jack => 11
    case Queen => 12
    case King => 13
    case Ace => 14
  }

  /** The string under which the source names a rank. */
  function Symbol(r: Rank): string {
    match r
    case Two => "2"
    case Three => "3"
    case Four => "4"
    case Five => "5"
    case Six => "6"
    case Seven => "7"
    case Eight => "8"
    case Nine => "9"
    case Ten => "10"
    case Jack => "J"
    case Queen => "Q"
    case King => "K"
    case Ace => "A"
  }

  /** RANK_POWER, keyed by rank symbol. */
  const RankPowerTable: map<string, int> :=
    map["A" := 14, "K" := 13, "Q" := 12, "J" := 11, "10" := 10, "9" := 9, "8" := 8,
        "7" := 7, "6" := 6, "5" := 5, "4" := 4, "3" := 3, "2" := 2]

  /** Power agrees with RANK_POWER, whose keys are exactly the 13 rank symbols. */
  lemma RankPowerTableAgrees()
    ensures forall r :: Symbol(r) in RankPowerTable && RankPowerTable[Symbol(r)] == Power(r)
    ensures forall k | k in RankPowerTable :: exists r :: Symbol(r) == k
  {
    forall k | k in RankPowerTable
      ensures exists r :: Symbol(r) == k
    {
      var r := if k == "A" then Ace else if k == "K" then King else if k == "Q" then Queen
        else if k == "J" then Jack else if k == "10" then Ten else if k == "9" then Nine
        else if k == "8" then Eight else if k == "7" then Seven else if k == "6" then Six
        else if k == "5" then Five else if k == "4" then Four else if k == "3" then Three
        else Two;
      assert Symbol(r) == k;
    }
  }

  /** RANK_POWER is a bijection from the 13 ranks onto 2..14. */
  lemma PowerBijective()
    ensures forall r :: 2 <= Power(r) <= 14
    ensures forall a, b :: Power(a) == Power(b) ==> a == b
    ensures forall p | 2 <= p <= 14 :: Power(RankOf(p)) == p
  {
  }

  /** The injectivity of PowerBijective for one pair of ranks. */
  lemma PowerInjective(a: Rank, b: Rank)
    requires Power(a) == Power(b)
    ensures a == b
  {
    PowerBijective();
  }

  /** The rank whose power is p. */
  function RankOf(p: int): (r: Rank)
    requires 2 <= p <= 14
    ensures Power(r) == p
  {
    if p == 2 then Two else if p == 3 then Three else if p == 4 then Four
    else if p == 5 then Five else if p == 6 then Six else if p == 7 then Seven
    else if p == 8 then Eight else if p == 9 then Nine else if p == 10 then Ten
    else if p == 11 then Jack else if p == 12 then Queen else if p == 13 then King
    else Ace
  }

  /** The ranks and suits in the order in which the deck is built. */
  const AllRanks: seq<Rank> := [Two, Three, Four, Five, Six, Seven, Eight, Nine, Ten, Jack, Queen, King, Ace]
  const AllSuits: seq<Suit> := [Clubs, Diamonds, Hearts, Spades]

  /** AllRanks runs through the ranks by increasing power, each exactly once. */
  lemma AllRanksAscending()
    ensures |AllRanks| == 13
    ensures forall i | 0 <= i < 13 :: Power(AllRanks[i]) == i + 2
    ensures forall r :: AllRanks[Power(r) - 2] == r
  {
  }

  /** The position of a suit in AllSuits. */
  function SuitIndex(s: Suit): (i: int)
    ensures 0 <= i < |AllSuits| && AllSuits[i] == s
  {
    match s
    case Clubs => 0
    case Diamonds => 1
    case Hearts => 2
    case Spades => 3
  }

  /** The ranks of a hand, position by position. */
  function Ranks(hand: seq<Card>): seq<Rank> {
    seq(|hand|, i requires 0 <= i < |hand| => hand[i].rank)
  }

  /** The powers of a rank sequence, position by position. */
  function Powers(ranks: seq<Rank>): seq<int> {
    seq(|ranks|, i requires 0 <= i < |ranks| => Power(ranks[i]))
  }

  /** The set of suits occurring in a hand. */
  function SuitSet(hand: seq<Card>): set<Suit> {
    set c | c in hand :: c.suit
  }

  predicate NoDuplicates(s: seq<Card>) {
    forall i, j | 0 <= i < j < |s| :: s[i] != s[j]
  }

  /** A sequence has no duplicates exactly when no card occurs twice in its multiset. */
  lemma {:induction false} NoDuplicatesIffSingleCounts(s: seq<Card>)
    ensures NoDuplicates(s) <==> forall c :: multiset(s)[c] <= 1
  {
    if |s| > 0 {
      NoDuplicatesIffSingleCounts(s[1..]);
      assert s == [s[0]] + s[1..];
      if NoDuplicates(s) {
        assert s[0] !in s[1..];
        assert NoDuplicates(s[1..]) by {
          forall i, j | 0 <= i < j < |s[1..]|
            ensures s[1..][i] != s[1..][j]
          {
            assert s[1..][i] == s[i + 1] && s[1..][j] == s[j + 1];
          }
        }
      } else {
        var i, j :| 0 <= i < j < |s| && s[i] == s[j];
        if i == 0 {
          assert s[1..][j - 1] == s[0];
          assert multiset(s[1..])[s[0]] >= 1;
          assert multiset(s)[s[0]] >= 2;
        } else {
          assert s[1..][i - 1] == s[1..][j - 1];
          assert !NoDuplicates(s[1..]);
          var c :| multiset(s[1..])[c] > 1;
          assert multiset(s)[c] >= multiset(s[1..])[c];
        }
      }
    }
  }

  /** How often a rank occurs in a hand: the number of its cards of any suit. */
  lemma {:induction false} RankCount(a: seq<Card>, r: Rank)
    ensures multiset(Ranks(a))[r]
         == multiset(a)[Card(r, Clubs)] + multiset(a)[Card(r, Diamonds)]
          + multiset(a)[Card(r, Hearts)] + multiset(a)[Card(r, Spades)]
  {
    if |a| > 0 {
      RankCount(a[1..], r);
      assert a == [a[0]] + a[1..];
      assert Ranks(a) == [a[0].rank] + Ranks(a[1..]);
      assert multiset(a) == multiset{a[0]} + multiset(a[1..]);
      assert multiset(Ranks(a)) == multiset{a[0].rank} + multiset(Ranks(a[1..]));
      var c := a[0];
      if c.rank == r {
        assert c == Card(r, c.suit);
        match c.suit
        case Clubs =>
        case Diamonds =>
        case Hearts =>
        case Spades =>
      } else {
        assert c != Card(r, Clubs) && c != Card(r, Diamonds) && c != Card(r, Hearts) && c != Card(r, Spades);
      }
    }
  }

  /** Permuting a hand keeps its rank multiset. */
  lemma RanksOfPermutation(a: seq<Card>, b: seq<Card>)
    requires multiset(a) == multiset(b)
    ensures multiset(Ranks(a)) == multiset(Ranks(b))
  {
    forall r
      ensures multiset(Ranks(a))[r] == multiset(Ranks(b))[r]
    {
      RankCount(a, r);
      RankCount(b, r);
    }
  }

  /** Permuting a hand keeps its suit set. */
  lemma SuitsOfPermutation(a: seq<Card>, b: seq<Card>)
    requires multiset(a) == multiset(b)
    ensures SuitSet(a) == SuitSet(b)
  {
    forall s | s in SuitSet(a)
      ensures s in SuitSet(b)
    {
      var c :| c in a && c.suit == s;
      assert c in multiset(b);
    }
    forall s | s in SuitSet(b)
      ensures s in SuitSet(a)
    {
      var c :| c in b && c.suit == s;
      assert c in multiset(a);
    }
  }
}
