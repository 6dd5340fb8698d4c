/**
  The comparison of two hands as the judge performs it (PokerHands/Program.cs,
  DetermineWinner, the *Control methods, the tie-breaks and
  AnalyzePlayersHands), stated as functions on the two sorted hands. The
  judge's methods in module Judge are proved to credit exactly what these
  functions decide.

  A comparison is decided with one Outcome: a win for either player, or a tie,
  which the judge counts as a win for BOTH players.
*/
module Comparison {
  import opened Wrappers
  import opened Cards
  import opened Detectors

  datatype Outcome = Player1Wins | Player2Wins | Tie

  /** The same comparison with the players' seats exchanged. */
  function Flip(o: Outcome): Outcome {
    match o
    case Player1Wins => Player2Wins
    case Player2Wins => Player1Wins
    case Tie => Tie
  }

  /** The wins credited to player 1 by a step; an undecided step credits nobody. */
  function Player1Gain(o: Option<Outcome>): nat {
    if o == Some(Player1Wins) || o == Some(Tie) then 1 else 0
  }

  /** The wins credited to player 2 by a step; an undecided step credits nobody. */
  function Player2Gain(o: Option<Outcome>): nat {
    if o == Some(Player2Wins) || o == Some(Tie) then 1 else 0
  }

  // ---------------------------------------------------------------------
  // DetermineWinner

  /**
    DetermineWinner on two detector results. It is undecided only when neither
    player holds the category; player 1 wins exactly when its rank is strictly
    higher (NULL ranks lowest); player 2 is credited in every other decided
    case, EQUAL RANKS INCLUDED; it never reports a tie.
  */
  function Winner(p1: CardValue, p2: CardValue): (o: Option<Outcome>)
    ensures o.None? <==> p1 == NULL_VALUE && p2 == NULL_VALUE
    ensures o == Some(Player1Wins) <==> p1 > p2
    ensures o == Some(Player2Wins) <==> p2 != NULL_VALUE && p1 <= p2
  {
    if p1 != NULL_VALUE && p2 == NULL_VALUE then Some(Player1Wins)
    else if p1 == NULL_VALUE && p2 != NULL_VALUE then Some(Player2Wins)
    else if p1 != NULL_VALUE && p2 != NULL_VALUE then
      (if p1 > p2 then Some(Player1Wins) else Some(Player2Wins))
    else None
  }

  /** Between different ranks, exchanging the players exchanges the winner. */
  lemma WinnerFlip(p1: CardValue, p2: CardValue)
    requires p1 != p2
    ensures Winner(p1, p2).Some? && Winner(p2, p1) == Some(Flip(Winner(p1, p2).value))
  {
  }

  /** Equal real ranks are not a tie: the comparison credits player 2. */
  lemma EqualRanksCreditPlayer2(v: CardValue)
    requires v != NULL_VALUE
    ensures Winner(v, v) == Some(Player2Wins)
  {
  }

  // ---------------------------------------------------------------------
  // Highest card first: DetermineFlushWinner, HighestRemainingCard and the
  // three-card comparison of DetermineOnePairWinner

  /** Cards k + 1 .. n - 1 of a and b have the same ranks. */
  predicate AgreeAbove(a: seq<Card>, b: seq<Card>, k: int, n: int)
    requires n <= |a| && n <= |b|
  {
    forall i :: k < i < n && 0 <= i ==> a[i].value == b[i].value
  }

  /**
    Compares positions n - 1 down to 0 of two rank-sorted sequences: the first
    position whose ranks differ decides; when none differs it is a tie.
  */
  function CompareFromTop(a: seq<Card>, b: seq<Card>, n: nat): Outcome
    requires n <= |a| && n <= |b|
  {
    if n == 0 then Tie
    else if a[n - 1].value > b[n - 1].value then Player1Wins
    else if a[n - 1].value < b[n - 1].value then Player2Wins
    else CompareFromTop(a, b, n - 1)
  }

  /**
    The comparison is a tie exactly when all n positions agree, and player 1
    wins exactly when at the highest position where they differ player 1's
    rank is higher.
  */
  lemma {:induction false} CompareFromTopMeaning(a: seq<Card>, b: seq<Card>, n: nat)
    requires n <= |a| && n <= |b|
    ensures CompareFromTop(a, b, n) == Tie <==> AgreeAbove(a, b, -1, n)
    ensures CompareFromTop(a, b, n) == Player1Wins <==>
      exists k :: 0 <= k < n && a[k].value > b[k].value && AgreeAbove(a, b, k, n)
    ensures CompareFromTop(a, b, n) == Player2Wins <==>
      exists k :: 0 <= k < n && a[k].value < b[k].value && AgreeAbove(a, b, k, n)
  {
    if n > 0 {
      var top := n - 1;
      if a[top].value > b[top].value {
        assert AgreeAbove(a, b, top, n);
        assert forall k :: 0 <= k < top ==> !AgreeAbove(a, b, k, n);
      } else if a[top].value < b[top].value {
        assert AgreeAbove(a, b, top, n);
        assert forall k :: 0 <= k < top ==> !AgreeAbove(a, b, k, n);
      } else {
        CompareFromTopMeaning(a, b, top);
        assert forall k :: -1 <= k < top ==> (AgreeAbove(a, b, k, n) <==> AgreeAbove(a, b, k, top));
      }
    }
  }

  /** Exchanging the two sequences exchanges the winner; a tie stays a tie. */
  lemma {:induction false} CompareFromTopFlip(a: seq<Card>, b: seq<Card>, n: nat)
    requires n <= |a| && n <= |b|
    ensures CompareFromTop(b, a, n) == Flip(CompareFromTop(a, b, n))
  {
    if n > 0 && a[n - 1].value == b[n - 1].value {
      CompareFromTopFlip(a, b, n - 1);
    }
  }

  /** The three-level test of DetermineOnePairWinner is the comparison of the top three positions. */
  lemma CompareThree(a: seq<Card>, b: seq<Card>)
    requires |a| >= 3 && |b| >= 3
    ensures CompareFromTop(a, b, 3) == Player1Wins <==>
      a[2].value > b[2].value ||
      (a[2].value == b[2].value && a[1].value > b[1].value) ||
      (a[2].value == b[2].value && a[1].value == b[1].value && a[0].value > b[0].value)
    ensures CompareFromTop(a, b, 3) == Player2Wins <==>
      a[2].value < b[2].value ||
      (a[2].value == b[2].value && a[1].value < b[1].value) ||
      (a[2].value == b[2].value && a[1].value == b[1].value && a[0].value < b[0].value)
  {
    // The lowest position decides alone once the two above it agree.
    assert CompareFromTop(a, b, 1) ==
      if a[0].value > b[0].value then Player1Wins else if a[0].value < b[0].value then Player2Wins else Tie;
  }

  /** Two five-card hands compared highest card first (DetermineFlushWinner, HighestRemainingCard). */
  function HighCardOutcome(h1: seq<Card>, h2: seq<Card>): Outcome
    requires |h1| == 5 && |h2| == 5
  {
    CompareFromTop(h1, h2, 5)
  }

  // ---------------------------------------------------------------------
  // Two pairs: DetermineTwoPairWinner

  /** The higher of two pair ranks (the second element after sorting the pair list). */
  function Higher(a: CardValue, b: CardValue): (m: CardValue)
    ensures m >= a && m >= b && (m == a || m == b)
  {
    if a >= b then a else b
  }

  /** The lower of two pair ranks (the first element after sorting the pair list). */
  function Lower(a: CardValue, b: CardValue): (m: CardValue)
    ensures m <= a && m <= b && (m == a || m == b)
  {
    if a <= b then a else b
  }

  /** The two players' pairs are equal as sorted pairs, so the kickers decide. */
  predicate SamePairs(p1a: CardValue, p1b: CardValue, p2a: CardValue, p2b: CardValue) {
    Higher(p1a, p1b) == Higher(p2a, p2b) && Lower(p1a, p1b) == Lower(p2a, p2b)
  }

  /**
    The two-pair tie-break: the higher pairs decide, then the lower pairs,
    then the kickers through DetermineWinner (each hand's kicker being the
    last card in neither of its pairs). Equal kickers credit player 2, so it
    is never a tie.
  */
  function TwoPairOutcome(h1: seq<Card>, h2: seq<Card>, p1a: CardValue, p1b: CardValue, p2a: CardValue, p2b: CardValue): (o: Outcome)
    requires NoNullValues(h1) && NoNullValues(h2)
    requires SamePairs(p1a, p1b, p2a, p2b) ==> HasKicker(h1, p1a, p1b) && HasKicker(h2, p2a, p2b)
    ensures o != Tie
  {
    var hi1, lo1, hi2, lo2 := Higher(p1a, p1b), Lower(p1a, p1b), Higher(p2a, p2b), Lower(p2a, p2b);
    if hi1 > hi2 || (hi1 == hi2 && lo1 > lo2) then Player1Wins
    else if hi1 < hi2 || (hi1 == hi2 && lo1 < lo2) then Player2Wins
    else
      var k1, k2 := LastKicker(h1, p1a, p1b), LastKicker(h2, p2a, p2b);
      assert k1 != NULL_VALUE && k2 != NULL_VALUE;
      Winner(k1, k2).value
  }

  /**
    The pairs decide before the kickers: a strictly higher top pair wins whatever
    the lower pairs and the kickers, and on equal top pairs a strictly higher
    lower pair wins whatever the kickers.
  */
  lemma TwoPairOrder(h1: seq<Card>, h2: seq<Card>, p1a: CardValue, p1b: CardValue, p2a: CardValue, p2b: CardValue)
    requires NoNullValues(h1) && NoNullValues(h2)
    requires SamePairs(p1a, p1b, p2a, p2b) ==> HasKicker(h1, p1a, p1b) && HasKicker(h2, p2a, p2b)
    ensures Higher(p1a, p1b) > Higher(p2a, p2b) ==> TwoPairOutcome(h1, h2, p1a, p1b, p2a, p2b) == Player1Wins
    ensures Higher(p1a, p1b) < Higher(p2a, p2b) ==> TwoPairOutcome(h1, h2, p1a, p1b, p2a, p2b) == Player2Wins
    ensures Higher(p1a, p1b) == Higher(p2a, p2b) && Lower(p1a, p1b) > Lower(p2a, p2b) ==>
      TwoPairOutcome(h1, h2, p1a, p1b, p2a, p2b) == Player1Wins
    ensures Higher(p1a, p1b) == Higher(p2a, p2b) && Lower(p1a, p1b) < Lower(p2a, p2b) ==>
      TwoPairOutcome(h1, h2, p1a, p1b, p2a, p2b) == Player2Wins
  {
  }

  /**
    Exchanging two hands that differ in their higher pair, their lower pair or
    their kicker exchanges the winner; only equal kickers favour a seat.
  */
  lemma TwoPairOutcomeFlip(h1: seq<Card>, h2: seq<Card>, p1a: CardValue, p1b: CardValue, p2a: CardValue, p2b: CardValue)
    requires NoNullValues(h1) && NoNullValues(h2)
    requires SamePairs(p1a, p1b, p2a, p2b) ==> HasKicker(h1, p1a, p1b) && HasKicker(h2, p2a, p2b)
    requires SamePairs(p1a, p1b, p2a, p2b) ==> LastKicker(h1, p1a, p1b) != LastKicker(h2, p2a, p2b)
    ensures TwoPairOutcome(h2, h1, p2a, p2b, p1a, p1b) == Flip(TwoPairOutcome(h1, h2, p1a, p1b, p2a, p2b))
  {
    if SamePairs(p1a, p1b, p2a, p2b) {
      WinnerFlip(LastKicker(h1, p1a, p1b), LastKicker(h2, p2a, p2b));
    }
  }

  // ---------------------------------------------------------------------
  // One pair: DetermineOnePairWinner

  /**
    The one-pair tie-break: the higher pair wins; on equal pairs the cards
    outside the pair, sorted by rank, are compared from the third down to the
    first, and equality there is a tie.
  */
  function OnePairOutcome(h1: seq<Card>, h2: seq<Card>, p1: CardValue, p2: CardValue): Outcome
    requires p1 == p2 ==> |Without(h1, p1)| >= 3 && |Without(h2, p2)| >= 3
  {
    if p1 > p2 then Player1Wins
    else if p1 < p2 then Player2Wins
    else RemainingOutcome(h1, h2, p1)
  }

  /** The three highest cards outside pairs of the same rank p, compared from the top. */
  function RemainingOutcome(h1: seq<Card>, h2: seq<Card>, p: CardValue): Outcome
    requires |Without(h1, p)| >= 3 && |Without(h2, p)| >= 3
  {
    CompareFromTop(SortByValue(Without(h1, p)), SortByValue(Without(h2, p)), 3)
  }

  // ---------------------------------------------------------------------
  // The steps of the cascade (the *Control methods)

  /** RoyalFlushControl: a royal flush beats any other hand; two royal flushes tie. */
  function RoyalFlushStep(h1: seq<Card>, h2: seq<Card>): Option<Outcome>
    requires |h1| == 5 && |h2| == 5
  {
    var r1, r2 := HasRoyalFlush(h1), HasRoyalFlush(h2);
    if r1 && !r2 then Some(Player1Wins)
    else if !r1 && r2 then Some(Player2Wins)
    else if r1 && r2 then Some(Tie)
    else None
  }

  /** FlushControl: a flush beats a non-flush; two flushes are compared highest card first. */
  function FlushStep(h1: seq<Card>, h2: seq<Card>): Option<Outcome>
    requires |h1| == 5 && |h2| == 5
  {
    var f1, f2 := HasFlush(h1), HasFlush(h2);
    if f1 && !f2 then Some(Player1Wins)
    else if !f1 && f2 then Some(Player2Wins)
    else if f1 && f2 then Some(HighCardOutcome(h1, h2))
    else None
  }

  /** ThreeOfAKindControl: two threes of a kind go to DetermineWinner on their ranks. */
  function ThreeOfAKindStep(h1: seq<Card>, h2: seq<Card>): (o: Option<Outcome>)
    requires |h1| == 5 && |h2| == 5 && NoNullValues(h1) && NoNullValues(h2)
    ensures o != Some(Tie)
  {
    var t1, t2 := HasThreeOfAKind(h1), HasThreeOfAKind(h2);
    if t1.Some? && t2.None? then Some(Player1Wins)
    else if t1.None? && t2.Some? then Some(Player2Wins)
    else if t1.Some? && t2.Some? then
      assert t1.value != NULL_VALUE;
      Winner(t1.value, t2.value)
    else None
  }

  /** Each hand with two pairs also holds a card outside them. */
  predicate TwoPairsComparable(h1: seq<Card>, h2: seq<Card>)
    requires |h1| == 5 && |h2| == 5
  {
    (TwoPairValues(h1).Some? ==> HasKicker(h1, TwoPairValues(h1).value.0, TwoPairValues(h1).value.1)) &&
    (TwoPairValues(h2).Some? ==> HasKicker(h2, TwoPairValues(h2).value.0, TwoPairValues(h2).value.1))
  }

  /** TwoPairsControl: two hands with two pairs go to the two-pair tie-break. */
  function TwoPairsStep(h1: seq<Card>, h2: seq<Card>): (o: Option<Outcome>)
    requires |h1| == 5 && |h2| == 5 && NoNullValues(h1) && NoNullValues(h2)
    requires TwoPairsComparable(h1, h2)
    ensures o != Some(Tie)
  {
    var t1, t2 := TwoPairValues(h1), TwoPairValues(h2);
    if t1.Some? && t2.None? then Some(Player1Wins)
    else if t1.None? && t2.Some? then Some(Player2Wins)
    else if t1.Some? && t2.Some? then
      Some(TwoPairOutcome(h1, h2, t1.value.0, t1.value.1, t2.value.0, t2.value.1))
    else None
  }

  /** Each hand with a pair holds at least three cards outside it. */
  predicate OnePairComparable(h1: seq<Card>, h2: seq<Card>)
    requires |h1| == 5 && |h2| == 5
  {
    (OnePairValue(h1) != NULL_VALUE ==> |Without(h1, OnePairValue(h1))| >= 3) &&
    (OnePairValue(h2) != NULL_VALUE ==> |Without(h2, OnePairValue(h2))| >= 3)
  }

  /** OnePairControl: two hands with a pair go to the one-pair tie-break. */
  function OnePairStep(h1: seq<Card>, h2: seq<Card>): Option<Outcome>
    requires |h1| == 5 && |h2| == 5 && OnePairComparable(h1, h2)
  {
    var p1, p2 := OnePairValue(h1), OnePairValue(h2);
    if p1 != NULL_VALUE && p2 == NULL_VALUE then Some(Player1Wins)
    else if p1 == NULL_VALUE && p2 != NULL_VALUE then Some(Player2Wins)
    else if p1 != NULL_VALUE && p2 != NULL_VALUE then Some(OnePairOutcome(h1, h2, p1, p2))
    else None
  }

  /** Hands that get past the four-of-a-kind and full-house steps meet the two-pair tie-break's needs. */
  lemma TwoPairsInCascade(h1: seq<Card>, h2: seq<Card>)
    requires IsHand(h1) && IsHand(h2)
    requires FourOfAKindValue(h1) == NULL_VALUE && FullHouseValue(h1) == NULL_VALUE
    requires FourOfAKindValue(h2) == NULL_VALUE && FullHouseValue(h2) == NULL_VALUE
    ensures TwoPairsComparable(h1, h2)
  {
    if TwoPairValues(h1).Some? {
      TwoPairsHaveKicker(h1);
    }
    if TwoPairValues(h2).Some? {
      TwoPairsHaveKicker(h2);
    }
  }

  /** Hands that get past the three-of-a-kind step meet the one-pair tie-break's needs. */
  lemma OnePairInCascade(h1: seq<Card>, h2: seq<Card>)
    requires IsHand(h1) && IsHand(h2)
    requires HasThreeOfAKind(h1) == None && HasThreeOfAKind(h2) == None
    ensures OnePairComparable(h1, h2)
  {
    if OnePairValue(h1) != NULL_VALUE {
      OnePairLeavesThreeCards(h1);
    }
    if OnePairValue(h2) != NULL_VALUE {
      OnePairLeavesThreeCards(h2);
    }
  }

  // ---------------------------------------------------------------------
  // AnalyzePlayersHands

  /**
    The whole comparison: the first step that decides gives the outcome, in
    the order royal flush, straight flush, four of a kind, full house, flush,
    straight, three of a kind, two pairs, one pair, highest card. The
    straight-flush step never decides (HasStraightFlush always reports NULL),
    so it contributes nothing here.
  */
  function Analyze(h1: seq<Card>, h2: seq<Card>): Outcome
    requires IsHand(h1) && IsHand(h2)
  {
    var royal := RoyalFlushStep(h1, h2);
    if royal.Some? then royal.value else
    var four := Winner(FourOfAKindValue(h1), FourOfAKindValue(h2));
    if four.Some? then four.value else
    var full := Winner(FullHouseValue(h1), FullHouseValue(h2));
    if full.Some? then full.value else
    var flush := FlushStep(h1, h2);
    if flush.Some? then flush.value else
    var straight := Winner(HasStraight(h1), HasStraight(h2));
    if straight.Some? then straight.value else
    var three := ThreeOfAKindStep(h1, h2);
    if three.Some? then three.value else
    TwoPairsInCascade(h1, h2);
    var two := TwoPairsStep(h1, h2);
    if two.Some? then two.value else
    OnePairInCascade(h1, h2);
    var one := OnePairStep(h1, h2);
    if one.Some? then one.value else
    HighCardOutcome(h1, h2)
  }

  /**
    Analyze is the first step that decides, for the steps from royal flush to
    straight: each step's outcome is the result when every earlier step
    left the game undecided.
  */
  lemma AnalyzeUpperSteps(h1: seq<Card>, h2: seq<Card>)
    requires IsHand(h1) && IsHand(h2)
    ensures RoyalFlushStep(h1, h2).Some? ==> Analyze(h1, h2) == RoyalFlushStep(h1, h2).value
    ensures RoyalFlushStep(h1, h2).None? ==>
      var four := Winner(FourOfAKindValue(h1), FourOfAKindValue(h2));
      four.Some? ==> Analyze(h1, h2) == four.value
    ensures RoyalFlushStep(h1, h2).None? && Winner(FourOfAKindValue(h1), FourOfAKindValue(h2)).None? ==>
      var full := Winner(FullHouseValue(h1), FullHouseValue(h2));
      full.Some? ==> Analyze(h1, h2) == full.value
    ensures RoyalFlushStep(h1, h2).None? && Winner(FourOfAKindValue(h1), FourOfAKindValue(h2)).None? &&
            Winner(FullHouseValue(h1), FullHouseValue(h2)).None? ==>
      (FlushStep(h1, h2).Some? ==> Analyze(h1, h2) == FlushStep(h1, h2).value) &&
      (FlushStep(h1, h2).None? ==>
         var straight := Winner(HasStraight(h1), HasStraight(h2));
         straight.Some? ==> Analyze(h1, h2) == straight.value)
  {
  }

  /**
    Once the steps down to straight are undecided, the three-of-a-kind step
    decides next, and the hands meet the needs of the two-pair tie-break and
    (past three of a kind) of the one-pair tie-break.
  */
  lemma AnalyzeLowerSteps(h1: seq<Card>, h2: seq<Card>)
    requires IsHand(h1) && IsHand(h2)
    requires RoyalFlushStep(h1, h2).None? && Winner(FourOfAKindValue(h1), FourOfAKindValue(h2)).None?
    requires Winner(FullHouseValue(h1), FullHouseValue(h2)).None? && FlushStep(h1, h2).None?
    requires Winner(HasStraight(h1), HasStraight(h2)).None?
    ensures TwoPairsComparable(h1, h2)
    ensures ThreeOfAKindStep(h1, h2).Some? ==> Analyze(h1, h2) == ThreeOfAKindStep(h1, h2).value
    ensures ThreeOfAKindStep(h1, h2).None? ==> OnePairComparable(h1, h2)
  {
    TwoPairsInCascade(h1, h2);
    if ThreeOfAKindStep(h1, h2).None? {
      OnePairInCascade(h1, h2);
    }
  }

  /** The two-pair, one-pair and highest-card steps, once three of a kind is undecided too. */
  lemma AnalyzePairSteps(h1: seq<Card>, h2: seq<Card>)
    requires IsHand(h1) && IsHand(h2)
    requires RoyalFlushStep(h1, h2).None? && Winner(FourOfAKindValue(h1), FourOfAKindValue(h2)).None?
    requires Winner(FullHouseValue(h1), FullHouseValue(h2)).None? && FlushStep(h1, h2).None?
    requires Winner(HasStraight(h1), HasStraight(h2)).None? && ThreeOfAKindStep(h1, h2).None?
    requires TwoPairsComparable(h1, h2) && OnePairComparable(h1, h2)
    ensures TwoPairsStep(h1, h2).Some? ==> Analyze(h1, h2) == TwoPairsStep(h1, h2).value
    ensures TwoPairsStep(h1, h2).None? && OnePairStep(h1, h2).Some? ==> Analyze(h1, h2) == OnePairStep(h1, h2).value
    ensures TwoPairsStep(h1, h2).None? && OnePairStep(h1, h2).None? ==> Analyze(h1, h2) == HighCardOutcome(h1, h2)
  {
  }

  /**
    The category a hand is judged in: the first detector of the cascade that
    fires on it. A straight flush is judged as a flush, since its own detector
    never fires.
  */
  function Category(h: seq<Card>): (c: nat)
    requires IsHand(h)
    ensures c <= 9 && c != 8
  {
    if HasRoyalFlush(h) then 9
    else if FourOfAKindValue(h) != NULL_VALUE then 7
    else if FullHouseValue(h) != NULL_VALUE then 6
    else if HasFlush(h) then 5
    else if HasStraight(h) != NULL_VALUE then 4
    else if HasThreeOfAKind(h).Some? then 3
    else if TwoPairValues(h).Some? then 2
    else if OnePairValue(h) != NULL_VALUE then 1
    else 0
  }

  /** A hand judged in a higher category wins, whatever the ranks. */
  lemma HigherCategoryWins(h1: seq<Card>, h2: seq<Card>)
    requires IsHand(h1) && IsHand(h2)
    ensures Category(h1) > Category(h2) ==> Analyze(h1, h2) == Player1Wins
    ensures Category(h1) < Category(h2) ==> Analyze(h1, h2) == Player2Wins
  {
    var c1, c2 := Category(h1), Category(h2);
    if c1 != c2 {
      var w := if c1 > c2 then Player1Wins else Player2Wins;
      var top := if c1 > c2 then c1 else c2;
      if top == 9 {
        assert RoyalFlushStep(h1, h2) == Some(w);
      } else {
        assert RoyalFlushStep(h1, h2) == None;
        if top == 7 {
          assert Winner(FourOfAKindValue(h1), FourOfAKindValue(h2)) == Some(w);
        } else {
          assert Winner(FourOfAKindValue(h1), FourOfAKindValue(h2)) == None;
          if top == 6 {
            assert Winner(FullHouseValue(h1), FullHouseValue(h2)) == Some(w);
          } else {
            assert Winner(FullHouseValue(h1), FullHouseValue(h2)) == None;
            CategoryBelowSix(h1, h2, w, top);
          }
        }
      }
    }
  }

  /** The part of HigherCategoryWins below the full-house step. */
  lemma CategoryBelowSix(h1: seq<Card>, h2: seq<Card>, w: Outcome, top: nat)
    requires IsHand(h1) && IsHand(h2) && Category(h1) != Category(h2)
    requires top < 6 && top == (if Category(h1) > Category(h2) then Category(h1) else Category(h2))
    requires w == if Category(h1) > Category(h2) then Player1Wins else Player2Wins
    requires RoyalFlushStep(h1, h2) == None
    requires Winner(FourOfAKindValue(h1), FourOfAKindValue(h2)) == None
    requires Winner(FullHouseValue(h1), FullHouseValue(h2)) == None
    ensures Analyze(h1, h2) == w
  {
    if top == 5 {
      assert FlushStep(h1, h2) == Some(w);
    } else {
      assert FlushStep(h1, h2) == None;
      if top == 4 {
        assert Winner(HasStraight(h1), HasStraight(h2)) == Some(w);
      } else {
        assert Winner(HasStraight(h1), HasStraight(h2)) == None;
        CategoryBelowFour(h1, h2, w, top);
      }
    }
  }

  /** The part of HigherCategoryWins below the straight step. */
  lemma CategoryBelowFour(h1: seq<Card>, h2: seq<Card>, w: Outcome, top: nat)
    requires IsHand(h1) && IsHand(h2) && Category(h1) != Category(h2)
    requires top < 4 && top == (if Category(h1) > Category(h2) then Category(h1) else Category(h2))
    requires w == if Category(h1) > Category(h2) then Player1Wins else Player2Wins
    requires RoyalFlushStep(h1, h2) == None
    requires Winner(FourOfAKindValue(h1), FourOfAKindValue(h2)) == None
    requires Winner(FullHouseValue(h1), FullHouseValue(h2)) == None
    requires FlushStep(h1, h2) == None
    requires Winner(HasStraight(h1), HasStraight(h2)) == None
    ensures Analyze(h1, h2) == w
  {
    TwoPairsInCascade(h1, h2);
    if top == 3 {
      assert ThreeOfAKindStep(h1, h2) == Some(w);
    } else {
      assert ThreeOfAKindStep(h1, h2) == None;
      CategoryBelowThree(h1, h2, w, top);
    }
  }

  /** The part of HigherCategoryWins below the three-of-a-kind step. */
  lemma CategoryBelowThree(h1: seq<Card>, h2: seq<Card>, w: Outcome, top: nat)
    requires IsHand(h1) && IsHand(h2) && Category(h1) != Category(h2)
    requires top < 3 && top == (if Category(h1) > Category(h2) then Category(h1) else Category(h2))
    requires w == if Category(h1) > Category(h2) then Player1Wins else Player2Wins
    requires RoyalFlushStep(h1, h2) == None
    requires Winner(FourOfAKindValue(h1), FourOfAKindValue(h2)) == None
    requires Winner(FullHouseValue(h1), FullHouseValue(h2)) == None
    requires FlushStep(h1, h2) == None
    requires Winner(HasStraight(h1), HasStraight(h2)) == None
    requires ThreeOfAKindStep(h1, h2) == None
    ensures Analyze(h1, h2) == w
  {
    TwoPairsInCascade(h1, h2);
    OnePairInCascade(h1, h2);
    AnalyzePairSteps(h1, h2);
    if top == 2 {
      assert TwoPairsStep(h1, h2) == Some(w);
    } else {
      assert TwoPairsStep(h1, h2) == None;
      assert OnePairStep(h1, h2) == Some(w);
    }
  }

  /**
    Between two hands of the same category the cascade reaches that
    category's step: in the categories compared by DetermineWinner (four of a
    kind, full house, straight, three of a kind) and in two pairs it never
    ends in a tie; royal flushes always tie; flushes and high cards are
    compared highest card first.
  */
  lemma SameCategoryTieBreak(h1: seq<Card>, h2: seq<Card>)
    requires IsHand(h1) && IsHand(h2) && Category(h1) == Category(h2)
    ensures Category(h1) == 9 ==> Analyze(h1, h2) == Tie
    ensures Category(h1) == 7 ==> Some(Analyze(h1, h2)) == Winner(FourOfAKindValue(h1), FourOfAKindValue(h2))
    ensures Category(h1) == 6 ==> Some(Analyze(h1, h2)) == Winner(FullHouseValue(h1), FullHouseValue(h2))
    ensures Category(h1) == 5 || Category(h1) == 0 ==> Analyze(h1, h2) == HighCardOutcome(h1, h2)
    ensures Category(h1) == 4 ==> Some(Analyze(h1, h2)) == Winner(HasStraight(h1), HasStraight(h2))
    ensures Category(h1) == 3 ==> Some(Analyze(h1, h2)) == ThreeOfAKindStep(h1, h2)
    ensures Category(h1) == 2 ==> TwoPairsComparable(h1, h2) && Some(Analyze(h1, h2)) == TwoPairsStep(h1, h2)
    ensures Category(h1) == 1 ==> OnePairComparable(h1, h2) && Some(Analyze(h1, h2)) == OnePairStep(h1, h2)
  {
    var c := Category(h1);
    if c < 6 {
      assert RoyalFlushStep(h1, h2) == None;
      assert Winner(FourOfAKindValue(h1), FourOfAKindValue(h2)) == None;
      assert Winner(FullHouseValue(h1), FullHouseValue(h2)) == None;
      if c < 4 {
        assert FlushStep(h1, h2) == None;
        assert Winner(HasStraight(h1), HasStraight(h2)) == None;
        SameCategoryBelowFour(h1, h2);
      }
    }
  }

  /** The part of SameCategoryTieBreak below the straight step. */
  lemma SameCategoryBelowFour(h1: seq<Card>, h2: seq<Card>)
    requires IsHand(h1) && IsHand(h2) && Category(h1) == Category(h2) && Category(h1) < 4
    requires RoyalFlushStep(h1, h2) == None
    requires Winner(FourOfAKindValue(h1), FourOfAKindValue(h2)) == None
    requires Winner(FullHouseValue(h1), FullHouseValue(h2)) == None
    requires FlushStep(h1, h2) == None
    requires Winner(HasStraight(h1), HasStraight(h2)) == None
    ensures Category(h1) == 3 ==> Some(Analyze(h1, h2)) == ThreeOfAKindStep(h1, h2)
    ensures Category(h1) == 2 ==> TwoPairsComparable(h1, h2) && Some(Analyze(h1, h2)) == TwoPairsStep(h1, h2)
    ensures Category(h1) == 0 ==> Analyze(h1, h2) == HighCardOutcome(h1, h2)
    ensures Category(h1) == 1 ==> OnePairComparable(h1, h2) && Some(Analyze(h1, h2)) == OnePairStep(h1, h2)
  {
    if Category(h1) == 3 {
      CategoryThree(h1);
      CategoryThree(h2);
      assert ThreeOfAKindStep(h1, h2).Some?;
      AnalyzeLowerSteps(h1, h2);
    } else {
      assert ThreeOfAKindStep(h1, h2) == None;
      SameCategoryBelowThree(h1, h2);
    }
  }

  /** A hand judged as three of a kind holds one. */
  lemma CategoryThree(h: seq<Card>)
    requires IsHand(h) && Category(h) == 3
    ensures HasThreeOfAKind(h).Some?
  {
  }

  /** The part of SameCategoryTieBreak below the three-of-a-kind step. */
  lemma SameCategoryBelowThree(h1: seq<Card>, h2: seq<Card>)
    requires IsHand(h1) && IsHand(h2) && Category(h1) == Category(h2) && Category(h1) < 3
    requires RoyalFlushStep(h1, h2) == None
    requires Winner(FourOfAKindValue(h1), FourOfAKindValue(h2)) == None
    requires Winner(FullHouseValue(h1), FullHouseValue(h2)) == None
    requires FlushStep(h1, h2) == None
    requires Winner(HasStraight(h1), HasStraight(h2)) == None
    requires ThreeOfAKindStep(h1, h2) == None
    ensures Category(h1) == 2 ==> TwoPairsComparable(h1, h2) && Some(Analyze(h1, h2)) == TwoPairsStep(h1, h2)
    ensures Category(h1) == 0 ==> Analyze(h1, h2) == HighCardOutcome(h1, h2)
    ensures Category(h1) == 1 ==> OnePairComparable(h1, h2) && Some(Analyze(h1, h2)) == OnePairStep(h1, h2)
  {
    TwoPairsInCascade(h1, h2);
    OnePairInCascade(h1, h2);
    var two := TwoPairsStep(h1, h2);
    if Category(h1) == 2 {
      assert two.Some?;
      assert Analyze(h1, h2) == two.value;
    } else {
      assert two == None;
      var one := OnePairStep(h1, h2);
      if Category(h1) == 0 {
        assert one == None;
        assert Analyze(h1, h2) == HighCardOutcome(h1, h2);
      } else {
        assert one.Some?;
        assert Analyze(h1, h2) == one.value;
      }
    }
  }

  /**
    A tie happens only between two hands of the same category, and only in
    the categories whose tie-break can end level: royal flush, flush, one
    pair and highest card.
  */
  lemma TieOnlyInLevelCategories(h1: seq<Card>, h2: seq<Card>)
    requires IsHand(h1) && IsHand(h2)
    requires Analyze(h1, h2) == Tie
    ensures Category(h1) == Category(h2)
    ensures Category(h1) == 9 || Category(h1) == 5 || Category(h1) == 1 || Category(h1) == 0
  {
    HigherCategoryWins(h1, h2);
    SameCategoryTieBreak(h1, h2);
    var c := Category(h1);
    assert c != 7 && c != 6 && c != 4 && c != 3 && c != 2;
  }

  /**
    One game raises the two counters together by one, or by two when it is a
    tie, and a tie is a game between two hands of the same level category.
  */
  lemma CreditsPerGame(h1: seq<Card>, h2: seq<Card>)
    requires IsHand(h1) && IsHand(h2)
    ensures Player1Gain(Some(Analyze(h1, h2))) + Player2Gain(Some(Analyze(h1, h2))) ==
      if Analyze(h1, h2) == Tie then 2 else 1
    ensures Analyze(h1, h2) == Tie ==> Category(h1) == Category(h2) && Category(h1) in {9, 5, 1, 0}
  {
    if Analyze(h1, h2) == Tie {
      TieOnlyInLevelCategories(h1, h2);
    }
  }

  /**
    Two hands with the same ranks card by card, judged in the same category,
    tie only in the categories with a level tie-break; in every other
    category the equal ranks credit player 2.
  */
  lemma SameRanksOutcome(h1: seq<Card>, h2: seq<Card>)
    requires IsHand(h1) && IsHand(h2) && SameValues(h1, h2) && Category(h1) == Category(h2)
    ensures Analyze(h1, h2) ==
      if Category(h1) in {9, 5, 1, 0} then Tie else Player2Wins
  {
    var c := Category(h1);
    if c == 2 {
      SameRanksTwoPairs(h1, h2);
    } else if c == 1 {
      SameRanksOnePair(h1, h2);
    } else {
      SameRanksOther(h1, h2);
    }
  }

  /** The categories decided by DetermineWinner or by the highest card. */
  lemma SameRanksOther(h1: seq<Card>, h2: seq<Card>)
    requires IsHand(h1) && IsHand(h2) && SameValues(h1, h2) && Category(h1) == Category(h2)
    requires Category(h1) != 2 && Category(h1) != 1
    ensures Analyze(h1, h2) ==
      if Category(h1) in {9, 5, 0} then Tie else Player2Wins
  {
    var c := Category(h1);
    if c == 7 || c == 6 {
      SameRanksFourOrFull(h1, h2);
    } else if c == 4 {
      SameRanksStraight(h1, h2);
    } else if c == 3 {
      SameRanksThree(h1, h2);
    } else if c == 5 || c == 0 {
      SameRanksHighCard(h1, h2);
    } else {
      SameCategoryTieBreak(h1, h2);
    }
  }

  /** Straights with the same ranks report the same top rank, which credits player 2. */
  lemma SameRanksStraight(h1: seq<Card>, h2: seq<Card>)
    requires IsHand(h1) && IsHand(h2) && SameValues(h1, h2) && Category(h1) == Category(h2) == 4
    ensures Analyze(h1, h2) == Player2Wins
  {
    SameCategoryTieBreak(h1, h2);
    SameRanksSameRuns(h1, h2);
  }

  /** Threes of a kind with the same ranks report the same rank, which credits player 2. */
  lemma SameRanksThree(h1: seq<Card>, h2: seq<Card>)
    requires IsHand(h1) && IsHand(h2) && SameValues(h1, h2) && Category(h1) == Category(h2) == 3
    ensures Analyze(h1, h2) == Player2Wins
  {
    SameCategoryTieBreak(h1, h2);
    SameRanksSameRuns(h1, h2);
  }

  /** The straight and three-of-a-kind detectors look only at the ranks. */
  lemma SameRanksSameRuns(h1: seq<Card>, h2: seq<Card>)
    requires |h1| == 5 && SameValues(h1, h2)
    ensures HasStraight(h1) == HasStraight(h2)
    ensures HasThreeOfAKind(h1) == HasThreeOfAKind(h2)
  {
    assert h1[0].value == h2[0].value && h1[1].value == h2[1].value && h1[2].value == h2[2].value;
    assert h1[3].value == h2[3].value && h1[4].value == h2[4].value;
  }

  /** Flushes and high-card hands with the same ranks are level at every position. */
  lemma SameRanksHighCard(h1: seq<Card>, h2: seq<Card>)
    requires IsHand(h1) && IsHand(h2) && SameValues(h1, h2) && Category(h1) == Category(h2)
    requires Category(h1) == 5 || Category(h1) == 0
    ensures Analyze(h1, h2) == Tie
  {
    SameCategoryTieBreak(h1, h2);
    CompareFromTopMeaning(h1, h2, 5);
  }

  /** Four-of-a-kind and full-house hands with the same ranks report the same rank, which credits player 2. */
  lemma SameRanksFourOrFull(h1: seq<Card>, h2: seq<Card>)
    requires IsHand(h1) && IsHand(h2) && SameValues(h1, h2) && Category(h1) == Category(h2)
    requires Category(h1) == 7 || Category(h1) == 6
    ensures Analyze(h1, h2) == Player2Wins
  {
    SameCategoryTieBreak(h1, h2);
    if Category(h1) == 7 {
      FourOfAKindOnSorted(h1);
      FourOfAKindOnSorted(h2);
      assert FourOfAKindValue(h1) == FourOfAKindValue(h2);
    } else {
      FullHouseOnSorted(h1);
      FullHouseOnSorted(h2);
      assert FullHouseValue(h1) == FullHouseValue(h2);
    }
  }

  /** Two-pair hands with the same ranks: the equal kickers credit player 2. */
  lemma SameRanksTwoPairs(h1: seq<Card>, h2: seq<Card>)
    requires IsHand(h1) && IsHand(h2) && SameValues(h1, h2)
    requires Category(h1) == 2 && Category(h2) == 2
    ensures Analyze(h1, h2) == Player2Wins
  {
    SameCategoryTieBreak(h1, h2);
    assert TwoPairsComparable(h1, h2) && Some(Analyze(h1, h2)) == TwoPairsStep(h1, h2);
    assert TwoPairValues(h1).Some?;
    SameRanksTwoPairsStep(h1, h2);
  }

  lemma SameRanksTwoPairsStep(h1: seq<Card>, h2: seq<Card>)
    requires IsHand(h1) && IsHand(h2) && SameValues(h1, h2)
    requires TwoPairValues(h1).Some? && TwoPairsComparable(h1, h2)
    ensures TwoPairsStep(h1, h2) == Some(Player2Wins)
  {
    var (a, b) := TwoPairValues(h1).value;
    assert TwoPairValues(h2) == TwoPairValues(h1);
    LastKickerSameValues(h1, h2, a, b);
  }

  /** One-pair hands with the same ranks: the three remaining cards are level. */
  lemma SameRanksOnePair(h1: seq<Card>, h2: seq<Card>)
    requires IsHand(h1) && IsHand(h2) && SameValues(h1, h2)
    requires Category(h1) == 1 && Category(h2) == 1
    ensures Analyze(h1, h2) == Tie
  {
    SameCategoryTieBreak(h1, h2);
    assert OnePairValue(h1) != NULL_VALUE;
    SameRanksOnePairStep(h1, h2);
  }

  lemma SameRanksOnePairStep(h1: seq<Card>, h2: seq<Card>)
    requires IsHand(h1) && IsHand(h2) && SameValues(h1, h2)
    requires OnePairValue(h1) != NULL_VALUE && OnePairComparable(h1, h2)
    ensures OnePairStep(h1, h2) == Some(Tie)
  {
    var p := OnePairValue(h1);
    assert OnePairValue(h2) == p;
    WithoutSameValues(h1, h2, p);
    SortSameValues(Without(h1, p), Without(h2, p));
    CompareFromTopMeaning(SortByValue(Without(h1, p)), SortByValue(Without(h2, p)), 3);
  }
}
