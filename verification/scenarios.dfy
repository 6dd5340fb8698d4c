/**
  Concrete games. Each hand is written as GenerateHands leaves it, sorted
  by rank; each lemma pins down the category the cascade gives one hand,
  and each game states who the cascade credits. The first five games are
  the sample games of Project Euler problem 54; the others show the four
  places where the judge departs from the rules of poker, and a tie.
*/
module Scenarios {
  import opened Wrappers
  import opened Cards
  import opened Detectors
  import opened Comparison

  /** A pair of fives. */
  const FIVES: seq<Card> := [Card(Hearts, FIVE), Card(Clubs, FIVE), Card(Spades, SIX), Card(Spades, SEVEN), Card(Diamonds, KING)]

  /** A pair of eights. */
  const EIGHTS: seq<Card> := [Card(Clubs, TWO), Card(Spades, THREE), Card(Spades, EIGHT), Card(Diamonds, EIGHT), Card(Diamonds, TEN)]

  /** Nothing, ace high. */
  const ACE_HIGH: seq<Card> := [Card(Diamonds, FIVE), Card(Clubs, EIGHT), Card(Spades, NINE), Card(Spades, JACK), Card(Clubs, ACE)]

  /** Nothing, queen high. */
  const QUEEN_HIGH: seq<Card> := [Card(Clubs, TWO), Card(Clubs, FIVE), Card(Diamonds, SEVEN), Card(Spades, EIGHT), Card(Hearts, QUEEN)]

  /** Three aces. */
  const THREE_ACES: seq<Card> := [Card(Diamonds, TWO), Card(Clubs, NINE), Card(Spades, ACE), Card(Hearts, ACE), Card(Clubs, ACE)]

  /** A flush of diamonds. */
  const DIAMOND_FLUSH: seq<Card> := [Card(Diamonds, THREE), Card(Diamonds, SIX), Card(Diamonds, SEVEN), Card(Diamonds, TEN), Card(Diamonds, QUEEN)]

  /** A pair of queens, nine high beside it. */
  const QUEENS_NINE_HIGH: seq<Card> := [Card(Diamonds, FOUR), Card(Spades, SIX), Card(Hearts, NINE), Card(Hearts, QUEEN), Card(Clubs, QUEEN)]

  /** A pair of queens, seven high beside it. */
  const QUEENS_SEVEN_HIGH: seq<Card> := [Card(Diamonds, THREE), Card(Diamonds, SIX), Card(Hearts, SEVEN), Card(Diamonds, QUEEN), Card(Spades, QUEEN)]

  /** A full house, three fours. */
  const FOURS_FULL: seq<Card> := [Card(Hearts, TWO), Card(Diamonds, TWO), Card(Clubs, FOUR), Card(Diamonds, FOUR), Card(Spades, FOUR)]

  /** A full house, three threes. */
  const THREES_FULL: seq<Card> := [Card(Clubs, THREE), Card(Diamonds, THREE), Card(Spades, THREE), Card(Spades, NINE), Card(Diamonds, NINE)]

  /** A straight flush of hearts, five to nine, judged as a plain flush. */
  const HEART_STRAIGHT_FLUSH: seq<Card> := [Card(Hearts, FIVE), Card(Hearts, SIX), Card(Hearts, SEVEN), Card(Hearts, EIGHT), Card(Hearts, NINE)]

  /** Four twos. */
  const FOUR_TWOS: seq<Card> := [Card(Clubs, TWO), Card(Diamonds, TWO), Card(Hearts, TWO), Card(Spades, TWO), Card(Clubs, THREE)]

  /** Four fives beside a two: the odd card is the lowest, so the hand is judged as three fives. */
  const FOUR_FIVES_TWO_LOW: seq<Card> := [Card(Clubs, TWO), Card(Clubs, FIVE), Card(Diamonds, FIVE), Card(Hearts, FIVE), Card(Spades, FIVE)]

  /** Three kings. */
  const THREE_KINGS: seq<Card> := [Card(Spades, THREE), Card(Spades, FOUR), Card(Clubs, KING), Card(Diamonds, KING), Card(Hearts, KING)]

  /** A straight, four to eight. */
  const EIGHT_HIGH_STRAIGHT_CLUBS: seq<Card> := [Card(Clubs, FOUR), Card(Diamonds, FIVE), Card(Hearts, SIX), Card(Spades, SEVEN), Card(Clubs, EIGHT)]

  /** The same straight in other suits. */
  const EIGHT_HIGH_STRAIGHT_DIAMONDS: seq<Card> := [Card(Diamonds, FOUR), Card(Hearts, FIVE), Card(Spades, SIX), Card(Clubs, SEVEN), Card(Diamonds, EIGHT)]

  /** Ace, two, three, four, five: judged as nothing, ace high. */
  const WHEEL: seq<Card> := [Card(Diamonds, TWO), Card(Hearts, THREE), Card(Spades, FOUR), Card(Clubs, FIVE), Card(Clubs, ACE)]

  /** A pair of kings. */
  const KINGS: seq<Card> := [Card(Spades, SEVEN), Card(Clubs, EIGHT), Card(Diamonds, NINE), Card(Diamonds, KING), Card(Hearts, KING)]

  /** Nothing, jack high. */
  const JACK_HIGH_CLUBS: seq<Card> := [Card(Clubs, TWO), Card(Diamonds, FIVE), Card(Hearts, SEVEN), Card(Spades, NINE), Card(Clubs, JACK)]

  /** The same ranks in other suits. */
  const JACK_HIGH_DIAMONDS: seq<Card> := [Card(Diamonds, TWO), Card(Hearts, FIVE), Card(Spades, SEVEN), Card(Clubs, NINE), Card(Diamonds, JACK)]

  lemma FivesCategory()
    ensures IsHand(FIVES) && Category(FIVES) == 1
    ensures OnePairValue(FIVES) == FIVE
  {
    CountFive(FIVES, FIVE);
    FirstOtherFive(FIVES, FIVE);
    CountFive(FIVES, SIX);
    assert PairAt(FIVES, 0) && !PairAt(FIVES, 1) && !PairAt(FIVES, 2) && !PairAt(FIVES, 3);
  }

  lemma EightsCategory()
    ensures IsHand(EIGHTS) && Category(EIGHTS) == 1
    ensures OnePairValue(EIGHTS) == EIGHT
  {
    CountFive(EIGHTS, TWO);
    FirstOtherFive(EIGHTS, TWO);
    CountFive(EIGHTS, THREE);
    assert !PairAt(EIGHTS, 0) && !PairAt(EIGHTS, 1) && PairAt(EIGHTS, 2) && !PairAt(EIGHTS, 3);
  }

  lemma AceHighCategory()
    ensures IsHand(ACE_HIGH) && Category(ACE_HIGH) == 0
  {
    CountFive(ACE_HIGH, FIVE);
    FirstOtherFive(ACE_HIGH, FIVE);
    CountFive(ACE_HIGH, EIGHT);
    assert !PairAt(ACE_HIGH, 0) && !PairAt(ACE_HIGH, 1) && !PairAt(ACE_HIGH, 2) && !PairAt(ACE_HIGH, 3);
  }

  lemma QueenHighCategory()
    ensures IsHand(QUEEN_HIGH) && Category(QUEEN_HIGH) == 0
  {
    CountFive(QUEEN_HIGH, TWO);
    FirstOtherFive(QUEEN_HIGH, TWO);
    CountFive(QUEEN_HIGH, FIVE);
    assert !PairAt(QUEEN_HIGH, 0) && !PairAt(QUEEN_HIGH, 1) && !PairAt(QUEEN_HIGH, 2) && !PairAt(QUEEN_HIGH, 3);
  }

  lemma ThreeAcesCategory()
    ensures IsHand(THREE_ACES) && Category(THREE_ACES) == 3
  {
    CountFive(THREE_ACES, TWO);
    FirstOtherFive(THREE_ACES, TWO);
    CountFive(THREE_ACES, NINE);
    assert !PairAt(THREE_ACES, 0) && !PairAt(THREE_ACES, 1) && PairAt(THREE_ACES, 2) && PairAt(THREE_ACES, 3);
  }

  lemma DiamondFlushCategory()
    ensures IsHand(DIAMOND_FLUSH) && Category(DIAMOND_FLUSH) == 5
  {
    CountFive(DIAMOND_FLUSH, THREE);
    FirstOtherFive(DIAMOND_FLUSH, THREE);
    CountFive(DIAMOND_FLUSH, SIX);
    assert !PairAt(DIAMOND_FLUSH, 0) && !PairAt(DIAMOND_FLUSH, 1) && !PairAt(DIAMOND_FLUSH, 2) && !PairAt(DIAMOND_FLUSH, 3);
  }

  lemma QueensNineHighCategory()
    ensures IsHand(QUEENS_NINE_HIGH) && Category(QUEENS_NINE_HIGH) == 1
    ensures OnePairValue(QUEENS_NINE_HIGH) == QUEEN
  {
    CountFive(QUEENS_NINE_HIGH, FOUR);
    FirstOtherFive(QUEENS_NINE_HIGH, FOUR);
    CountFive(QUEENS_NINE_HIGH, SIX);
    assert !PairAt(QUEENS_NINE_HIGH, 0) && !PairAt(QUEENS_NINE_HIGH, 1) && !PairAt(QUEENS_NINE_HIGH, 2) && PairAt(QUEENS_NINE_HIGH, 3);
  }

  lemma QueensSevenHighCategory()
    ensures IsHand(QUEENS_SEVEN_HIGH) && Category(QUEENS_SEVEN_HIGH) == 1
    ensures OnePairValue(QUEENS_SEVEN_HIGH) == QUEEN
  {
    CountFive(QUEENS_SEVEN_HIGH, THREE);
    FirstOtherFive(QUEENS_SEVEN_HIGH, THREE);
    CountFive(QUEENS_SEVEN_HIGH, SIX);
    assert !PairAt(QUEENS_SEVEN_HIGH, 0) && !PairAt(QUEENS_SEVEN_HIGH, 1) && !PairAt(QUEENS_SEVEN_HIGH, 2) && PairAt(QUEENS_SEVEN_HIGH, 3);
  }

  lemma FoursFullCategory()
    ensures IsHand(FOURS_FULL) && Category(FOURS_FULL) == 6
    ensures FullHouseValue(FOURS_FULL) == FOUR
  {
    CountFive(FOURS_FULL, TWO);
    FirstOtherFive(FOURS_FULL, TWO);
    CountFive(FOURS_FULL, FOUR);
    assert PairAt(FOURS_FULL, 0) && !PairAt(FOURS_FULL, 1) && PairAt(FOURS_FULL, 2) && PairAt(FOURS_FULL, 3);
  }

  lemma ThreesFullCategory()
    ensures IsHand(THREES_FULL) && Category(THREES_FULL) == 6
    ensures FullHouseValue(THREES_FULL) == THREE
  {
    CountFive(THREES_FULL, THREE);
    FirstOtherFive(THREES_FULL, THREE);
    CountFive(THREES_FULL, NINE);
    assert PairAt(THREES_FULL, 0) && PairAt(THREES_FULL, 1) && !PairAt(THREES_FULL, 2) && PairAt(THREES_FULL, 3);
  }

  lemma HeartStraightFlushCategory()
    ensures IsHand(HEART_STRAIGHT_FLUSH) && Category(HEART_STRAIGHT_FLUSH) == 5
  {
    CountFive(HEART_STRAIGHT_FLUSH, FIVE);
    FirstOtherFive(HEART_STRAIGHT_FLUSH, FIVE);
    CountFive(HEART_STRAIGHT_FLUSH, SIX);
    assert !PairAt(HEART_STRAIGHT_FLUSH, 0) && !PairAt(HEART_STRAIGHT_FLUSH, 1) && !PairAt(HEART_STRAIGHT_FLUSH, 2) && !PairAt(HEART_STRAIGHT_FLUSH, 3);
  }

  lemma FourTwosCategory()
    ensures IsHand(FOUR_TWOS) && Category(FOUR_TWOS) == 7
    ensures FourOfAKindValue(FOUR_TWOS) == TWO
  {
    CountFive(FOUR_TWOS, TWO);
    FirstOtherFive(FOUR_TWOS, TWO);
    CountFive(FOUR_TWOS, THREE);
    assert PairAt(FOUR_TWOS, 0) && PairAt(FOUR_TWOS, 1) && PairAt(FOUR_TWOS, 2) && !PairAt(FOUR_TWOS, 3);
  }

  lemma FourFivesTwoLowCategory()
    ensures IsHand(FOUR_FIVES_TWO_LOW) && Category(FOUR_FIVES_TWO_LOW) == 3
    ensures HasThreeOfAKind(FOUR_FIVES_TWO_LOW) == Some(FIVE)
  {
    CountFive(FOUR_FIVES_TWO_LOW, TWO);
    FirstOtherFive(FOUR_FIVES_TWO_LOW, TWO);
    CountFive(FOUR_FIVES_TWO_LOW, FIVE);
    assert !PairAt(FOUR_FIVES_TWO_LOW, 0) && PairAt(FOUR_FIVES_TWO_LOW, 1) && PairAt(FOUR_FIVES_TWO_LOW, 2) && PairAt(FOUR_FIVES_TWO_LOW, 3);
  }

  lemma ThreeKingsCategory()
    ensures IsHand(THREE_KINGS) && Category(THREE_KINGS) == 3
    ensures HasThreeOfAKind(THREE_KINGS) == Some(KING)
  {
    CountFive(THREE_KINGS, THREE);
    FirstOtherFive(THREE_KINGS, THREE);
    CountFive(THREE_KINGS, FOUR);
    assert !PairAt(THREE_KINGS, 0) && !PairAt(THREE_KINGS, 1) && PairAt(THREE_KINGS, 2) && PairAt(THREE_KINGS, 3);
  }

  lemma EightHighStraightClubsCategory()
    ensures IsHand(EIGHT_HIGH_STRAIGHT_CLUBS) && Category(EIGHT_HIGH_STRAIGHT_CLUBS) == 4
    ensures HasStraight(EIGHT_HIGH_STRAIGHT_CLUBS) == EIGHT
  {
    CountFive(EIGHT_HIGH_STRAIGHT_CLUBS, FOUR);
    FirstOtherFive(EIGHT_HIGH_STRAIGHT_CLUBS, FOUR);
    CountFive(EIGHT_HIGH_STRAIGHT_CLUBS, FIVE);
    assert !PairAt(EIGHT_HIGH_STRAIGHT_CLUBS, 0) && !PairAt(EIGHT_HIGH_STRAIGHT_CLUBS, 1) && !PairAt(EIGHT_HIGH_STRAIGHT_CLUBS, 2) && !PairAt(EIGHT_HIGH_STRAIGHT_CLUBS, 3);
  }

  lemma EightHighStraightDiamondsCategory()
    ensures IsHand(EIGHT_HIGH_STRAIGHT_DIAMONDS) && Category(EIGHT_HIGH_STRAIGHT_DIAMONDS) == 4
    ensures HasStraight(EIGHT_HIGH_STRAIGHT_DIAMONDS) == EIGHT
  {
    CountFive(EIGHT_HIGH_STRAIGHT_DIAMONDS, FOUR);
    FirstOtherFive(EIGHT_HIGH_STRAIGHT_DIAMONDS, FOUR);
    CountFive(EIGHT_HIGH_STRAIGHT_DIAMONDS, FIVE);
    assert !PairAt(EIGHT_HIGH_STRAIGHT_DIAMONDS, 0) && !PairAt(EIGHT_HIGH_STRAIGHT_DIAMONDS, 1) && !PairAt(EIGHT_HIGH_STRAIGHT_DIAMONDS, 2) && !PairAt(EIGHT_HIGH_STRAIGHT_DIAMONDS, 3);
  }

  lemma WheelCategory()
    ensures IsHand(WHEEL) && Category(WHEEL) == 0
  {
    CountFive(WHEEL, TWO);
    FirstOtherFive(WHEEL, TWO);
    CountFive(WHEEL, THREE);
    assert !PairAt(WHEEL, 0) && !PairAt(WHEEL, 1) && !PairAt(WHEEL, 2) && !PairAt(WHEEL, 3);
  }

  lemma KingsCategory()
    ensures IsHand(KINGS) && Category(KINGS) == 1
    ensures OnePairValue(KINGS) == KING
  {
    CountFive(KINGS, SEVEN);
    FirstOtherFive(KINGS, SEVEN);
    CountFive(KINGS, EIGHT);
    assert !PairAt(KINGS, 0) && !PairAt(KINGS, 1) && !PairAt(KINGS, 2) && PairAt(KINGS, 3);
  }

  lemma JackHighClubsCategory()
    ensures IsHand(JACK_HIGH_CLUBS) && Category(JACK_HIGH_CLUBS) == 0
  {
    CountFive(JACK_HIGH_CLUBS, TWO);
    FirstOtherFive(JACK_HIGH_CLUBS, TWO);
    CountFive(JACK_HIGH_CLUBS, FIVE);
    assert !PairAt(JACK_HIGH_CLUBS, 0) && !PairAt(JACK_HIGH_CLUBS, 1) && !PairAt(JACK_HIGH_CLUBS, 2) && !PairAt(JACK_HIGH_CLUBS, 3);
  }

  lemma JackHighDiamondsCategory()
    ensures IsHand(JACK_HIGH_DIAMONDS) && Category(JACK_HIGH_DIAMONDS) == 0
  {
    CountFive(JACK_HIGH_DIAMONDS, TWO);
    FirstOtherFive(JACK_HIGH_DIAMONDS, TWO);
    CountFive(JACK_HIGH_DIAMONDS, FIVE);
    assert !PairAt(JACK_HIGH_DIAMONDS, 0) && !PairAt(JACK_HIGH_DIAMONDS, 1) && !PairAt(JACK_HIGH_DIAMONDS, 2) && !PairAt(JACK_HIGH_DIAMONDS, 3);
  }
  // ---------------------------------------------------------------------
  // The sample games of Project Euler problem 54

  lemma PairOfFivesLosesToPairOfEights()
    ensures Analyze(FIVES, EIGHTS) == Player2Wins
  {
    FivesCategory();
    EightsCategory();
    SameCategoryTieBreak(FIVES, EIGHTS);
  }

  lemma AceHighBeatsQueenHigh()
    ensures Analyze(ACE_HIGH, QUEEN_HIGH) == Player1Wins
  {
    AceHighCategory();
    QueenHighCategory();
    SameCategoryTieBreak(ACE_HIGH, QUEEN_HIGH);
  }

  lemma ThreeAcesLoseToFlush()
    ensures Analyze(THREE_ACES, DIAMOND_FLUSH) == Player2Wins
  {
    ThreeAcesCategory();
    DiamondFlushCategory();
    HigherCategoryWins(THREE_ACES, DIAMOND_FLUSH);
  }

  /** Beside the two pairs of queens, nine high beats seven high. */
  lemma QueensRemainingCards()
    ensures |Without(QUEENS_NINE_HIGH, QUEEN)| >= 3 && |Without(QUEENS_SEVEN_HIGH, QUEEN)| >= 3
    ensures RemainingOutcome(QUEENS_NINE_HIGH, QUEENS_SEVEN_HIGH, QUEEN) == Player1Wins
  {
    var a, b := Without(QUEENS_NINE_HIGH, QUEEN), Without(QUEENS_SEVEN_HIGH, QUEEN);
    PairOnTopFiltered(QUEENS_NINE_HIGH, QUEEN);
    PairOnTopFiltered(QUEENS_SEVEN_HIGH, QUEEN);
    SortThreeInOrder(a);
    SortThreeInOrder(b);
    assert SortByValue(a)[2].value == NINE && SortByValue(b)[2].value == SEVEN;
  }

  /** A pair on top of a five-card hand is filtered away, leaving its three lower cards. */
  lemma PairOnTopFiltered(h: seq<Card>, v: CardValue)
    requires |h| == 5 && h[3].value == v && h[4].value == v
    requires h[0].value != v && h[1].value != v && h[2].value != v
    ensures Without(h, v) == h[..3]
  {
    assert h[..4] == h[..3] + [h[3]];
    WithoutSnoc(h[..3], h[3], v);
    assert h == h[..4] + [h[4]];
    WithoutSnoc(h[..4], h[4], v);
    WithoutAbsent(h[..3], v);
  }

  /** Three cards already in rank order keep their ranks in place through the sort. */
  lemma SortThreeInOrder(a: seq<Card>)
    requires |a| == 3 && a[0].value <= a[1].value <= a[2].value
    ensures SameValues(SortByValue(a), a)
  {
    assert SortedByValue(a) by {
      forall i, j | 0 <= i < j < 3
        ensures a[i].value <= a[j].value
      {
      }
    }
    SortSortedSameRanks(a);
  }

  lemma EqualPairsGoToTheHighestOtherCard()
    ensures Analyze(QUEENS_NINE_HIGH, QUEENS_SEVEN_HIGH) == Player1Wins
  {
    QueensNineHighCategory();
    QueensSevenHighCategory();
    SameCategoryTieBreak(QUEENS_NINE_HIGH, QUEENS_SEVEN_HIGH);
    QueensRemainingCards();
  }

  lemma HigherThreeDecidesFullHouses()
    ensures Analyze(FOURS_FULL, THREES_FULL) == Player1Wins
  {
    FoursFullCategory();
    ThreesFullCategory();
    SameCategoryTieBreak(FOURS_FULL, THREES_FULL);
  }

  // ---------------------------------------------------------------------
  // Where the judge departs from the rules of poker

  /** The straight flush is never recognised, so four twos beat it. */
  lemma StraightFlushLosesToFourOfAKind()
    ensures Analyze(HEART_STRAIGHT_FLUSH, FOUR_TWOS) == Player2Wins
  {
    HeartStraightFlushCategory();
    FourTwosCategory();
    HigherCategoryWins(HEART_STRAIGHT_FLUSH, FOUR_TWOS);
  }

  /** Four fives beside a lower card are judged as three fives, so three kings beat them. */
  lemma FourFivesLoseToThreeKings()
    ensures Analyze(FOUR_FIVES_TWO_LOW, THREE_KINGS) == Player2Wins
  {
    FourFivesTwoLowCategory();
    ThreeKingsCategory();
    SameCategoryTieBreak(FOUR_FIVES_TWO_LOW, THREE_KINGS);
  }

  /** Two straights of the same ranks are credited to player 2. */
  lemma EqualStraightsCreditPlayer2()
    ensures Analyze(EIGHT_HIGH_STRAIGHT_CLUBS, EIGHT_HIGH_STRAIGHT_DIAMONDS) == Player2Wins
  {
    EightHighStraightClubsCategory();
    EightHighStraightDiamondsCategory();
    SameRanksOutcome(EIGHT_HIGH_STRAIGHT_CLUBS, EIGHT_HIGH_STRAIGHT_DIAMONDS);
  }

  /** Ace to five is no straight, so a pair of kings beats it. */
  lemma AceLowStraightLosesToPairOfKings()
    ensures Analyze(WHEEL, KINGS) == Player2Wins
  {
    WheelCategory();
    KingsCategory();
    HigherCategoryWins(WHEEL, KINGS);
  }

  /** Two hands of nothing with the same ranks tie. */
  lemma IdenticalHighCardsTie()
    ensures Analyze(JACK_HIGH_CLUBS, JACK_HIGH_DIAMONDS) == Tie
  {
    JackHighClubsCategory();
    JackHighDiamondsCategory();
    JackHighSameRanks();
    SameRanksHighCard(JACK_HIGH_CLUBS, JACK_HIGH_DIAMONDS);
  }

  /** The two jack-high hands differ only in their suits. */
  lemma JackHighSameRanks()
    ensures SameValues(JACK_HIGH_CLUBS, JACK_HIGH_DIAMONDS)
  {
    assert forall i :: 0 <= i < 5 ==> JACK_HIGH_CLUBS[i].value == JACK_HIGH_DIAMONDS[i].value;
  }
}
