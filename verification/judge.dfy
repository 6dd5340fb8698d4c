/**
  The judge's state and the methods that update it (PokerHands/Program.cs,
  class Program): the two win counters and the two current hands, which the
  source keeps in static fields, and the methods that deal a game and credit
  its winner. Each method is proved to change the counters exactly as the
  corresponding function of module Comparison decides.
*/
module Judge {
  import opened Wrappers
  import opened Cards
  import opened Detectors
  import opened Comparison

  /** How many of a game's tokens go to player 1: the first five. */
  function FirstSeat(n: nat): (k: nat)
    ensures k <= n && k <= 5 && (n >= 5 ==> k == 5)
  {
    if n < 5 then n else 5
  }

  class Program {
    var player1Wins: int
    var player2Wins: int
    var player1CurHand: seq<Card>
    var player2CurHand: seq<Card>

    constructor ()
      ensures player1Wins == 0 && player2Wins == 0
      ensures player1CurHand == [] && player2CurHand == []
    {
      player1Wins, player2Wins := 0, 0;
      player1CurHand, player2CurHand := [], [];
    }

    /** Both current hands are five cards sorted by rank, none of NULL rank. */
    predicate Ready()
      reads this`player1CurHand, this`player2CurHand
    {
      IsHand(player1CurHand) && IsHand(player2CurHand)
    }

    /** The counters stand at w1 and w2 plus the wins o credits (a tie credits both). */
    predicate Credited(w1: int, w2: int, o: Option<Outcome>)
      reads this`player1Wins, this`player2Wins
    {
      player1Wins == w1 + Player1Gain(o) && player2Wins == w2 + Player2Gain(o)
    }

    // -------------------------------------------------------------------
    // Dealing a game

    /**
      Deals one game: the first five tokens make player 1's hand, the rest
      player 2's, each card parsed from its token, and both hands sorted by
      rank. With ten tokens, both hands are ready exactly when every rank
      character is a valid one.
    */
    method GenerateHands(tokens: seq<string>)
      requires WellFormedTokens(tokens)
      modifies this`player1CurHand, this`player2CurHand
      ensures SortedByValue(player1CurHand) && SortedByValue(player2CurHand)
      ensures multiset(player1CurHand) == multiset(ParseCards(tokens[..FirstSeat(|tokens|)]))
      ensures multiset(player2CurHand) == multiset(ParseCards(tokens[FirstSeat(|tokens|)..]))
      ensures |tokens| == 10 ==>
        (Ready() <==> forall i :: 0 <= i < |tokens| ==> tokens[i][0] in VALUE_CHARS)
    {
      player1CurHand := [];
      player2CurHand := [];
      for i := 0 to |tokens|
        invariant player1CurHand == ParseCards(tokens[..FirstSeat(i)])
        invariant player2CurHand == ParseCards(tokens[FirstSeat(i)..i])
      {
        var card := Card(DetermineSuit(tokens[i][1]), DetermineValue(tokens[i][0]));
        if i < 5 {
          ParseCardsSnoc(tokens, 0, i);
          player1CurHand := player1CurHand + [card];
        } else {
          ParseCardsSnoc(tokens, 5, i);
          player2CurHand := player2CurHand + [card];
        }
      }
      assert tokens[FirstSeat(|tokens|)..|tokens|] == tokens[FirstSeat(|tokens|)..];
      player1CurHand := SortByValue(player1CurHand);
      player2CurHand := SortByValue(player2CurHand);
      if |tokens| == 10 {
        DealtHandsReady(tokens);
      }
    }

    // -------------------------------------------------------------------
    // DetermineWinner

    /** Credits the player with the higher detector rank; see Comparison.Winner. */
    method DetermineWinner(p1: CardValue, p2: CardValue) returns (decided: bool)
      modifies this`player1Wins, this`player2Wins
      ensures decided == Winner(p1, p2).Some?
      ensures Credited(old(player1Wins), old(player2Wins), Winner(p1, p2))
    {
      if p1 != NULL_VALUE && p2 == NULL_VALUE {
        player1Wins := player1Wins + 1;
        return true;
      } else if p1 == NULL_VALUE && p2 != NULL_VALUE {
        player2Wins := player2Wins + 1;
        return true;
      } else if p1 != NULL_VALUE && p2 != NULL_VALUE {
        if p1 > p2 {
          player1Wins := player1Wins + 1;
        } else {
          player2Wins := player2Wins + 1;
        }
        return true;
      }
      return false;
    }

    // -------------------------------------------------------------------
    // The steps of the cascade

    method RoyalFlushControl() returns (decided: bool)
      requires Ready()
      modifies this`player1Wins, this`player2Wins
      ensures decided == RoyalFlushStep(player1CurHand, player2CurHand).Some?
      ensures Credited(old(player1Wins), old(player2Wins), RoyalFlushStep(player1CurHand, player2CurHand))
    {
      if HasRoyalFlush(player1CurHand) && !HasRoyalFlush(player2CurHand) {
        player1Wins := player1Wins + 1;
        return true;
      } else if !HasRoyalFlush(player1CurHand) && HasRoyalFlush(player2CurHand) {
        player2Wins := player2Wins + 1;
        return true;
      } else if HasRoyalFlush(player1CurHand) && HasRoyalFlush(player2CurHand) {
        player1Wins := player1Wins + 1;
        player2Wins := player2Wins + 1;
        return true;
      }
      return false;
    }

    /** The straight-flush step never decides and never credits anybody. */
    method StraightFlushControl() returns (decided: bool)
      requires Ready()
      modifies this`player1Wins, this`player2Wins
      ensures !decided
      ensures player1Wins == old(player1Wins) && player2Wins == old(player2Wins)
    {
      var p1 := HasStraightFlush(player1CurHand);
      var p2 := HasStraightFlush(player2CurHand);
      decided := DetermineWinner(p1, p2);
    }

    method FourOfAKindControl() returns (decided: bool)
      requires Ready()
      modifies this`player1Wins, this`player2Wins
      ensures decided == Winner(FourOfAKindValue(player1CurHand), FourOfAKindValue(player2CurHand)).Some?
      ensures Credited(old(player1Wins), old(player2Wins),
                       Winner(FourOfAKindValue(player1CurHand), FourOfAKindValue(player2CurHand)))
    {
      var p1 := HasFourOfAKind(player1CurHand);
      var p2 := HasFourOfAKind(player2CurHand);
      decided := DetermineWinner(p1, p2);
    }

    method FullHouseControl() returns (decided: bool)
      requires Ready()
      modifies this`player1Wins, this`player2Wins
      ensures decided == Winner(FullHouseValue(player1CurHand), FullHouseValue(player2CurHand)).Some?
      ensures Credited(old(player1Wins), old(player2Wins),
                       Winner(FullHouseValue(player1CurHand), FullHouseValue(player2CurHand)))
    {
      var p1 := HasFullHouse(player1CurHand);
      var p2 := HasFullHouse(player2CurHand);
      decided := DetermineWinner(p1, p2);
    }

    /**
      Two flushes: the same highest-card-first comparison as
      HighestRemainingCard, which the source writes out a second time.
    */
    method DetermineFlushWinner()
      requires Ready()
      modifies this`player1Wins, this`player2Wins
      ensures Credited(old(player1Wins), old(player2Wins), Some(HighCardOutcome(player1CurHand, player2CurHand)))
    {
      HighestRemainingCard();
    }

    method FlushControl() returns (decided: bool)
      requires Ready()
      modifies this`player1Wins, this`player2Wins
      ensures decided == FlushStep(player1CurHand, player2CurHand).Some?
      ensures Credited(old(player1Wins), old(player2Wins), FlushStep(player1CurHand, player2CurHand))
    {
      var p1 := HasFlush(player1CurHand);
      var p2 := HasFlush(player2CurHand);
      if p1 && !p2 {
        player1Wins := player1Wins + 1;
        return true;
      } else if !p1 && p2 {
        player2Wins := player2Wins + 1;
        return true;
      } else if p1 && p2 {
        DetermineFlushWinner();
        return true;
      }
      return false;
    }

    method StraightControl() returns (decided: bool)
      requires Ready()
      modifies this`player1Wins, this`player2Wins
      ensures decided == Winner(HasStraight(player1CurHand), HasStraight(player2CurHand)).Some?
      ensures Credited(old(player1Wins), old(player2Wins),
                       Winner(HasStraight(player1CurHand), HasStraight(player2CurHand)))
    {
      var p1 := HasStraight(player1CurHand);
      var p2 := HasStraight(player2CurHand);
      decided := DetermineWinner(p1, p2);
    }

    method ThreeOfAKindControl() returns (decided: bool)
      requires Ready()
      modifies this`player1Wins, this`player2Wins
      ensures decided == ThreeOfAKindStep(player1CurHand, player2CurHand).Some?
      ensures Credited(old(player1Wins), old(player2Wins), ThreeOfAKindStep(player1CurHand, player2CurHand))
    {
      var trip1 := HasThreeOfAKind(player1CurHand);
      var trip2 := HasThreeOfAKind(player2CurHand);
      if trip1.Some? && trip2.None? {
        player1Wins := player1Wins + 1;
        return true;
      } else if trip1.None? && trip2.Some? {
        player2Wins := player2Wins + 1;
        return true;
      } else if trip1.Some? && trip2.Some? {
        var _ := DetermineWinner(trip1.value, trip2.value);
        return true;
      }
      return false;
    }

    /**
      Two hands with two pairs: the higher pairs, then the lower pairs, then
      the kickers (the last card of each hand outside its pairs) decide.
    */
    method DetermineTwoPairWinner(p1a: CardValue, p1b: CardValue, p2a: CardValue, p2b: CardValue)
      requires Ready()
      requires SamePairs(p1a, p1b, p2a, p2b) ==>
        HasKicker(player1CurHand, p1a, p1b) && HasKicker(player2CurHand, p2a, p2b)
      modifies this`player1Wins, this`player2Wins
      ensures Credited(old(player1Wins), old(player2Wins),
                       Some(TwoPairOutcome(player1CurHand, player2CurHand, p1a, p1b, p2a, p2b)))
    {
      // The kicker slots start as a default card, whose rank is 0.
      var c1: int := 0;
      var c2: int := 0;
      var hi1, lo1 := Higher(p1a, p1b), Lower(p1a, p1b);
      var hi2, lo2 := Higher(p2a, p2b), Lower(p2a, p2b);
      if hi1 > hi2 || (hi1 == hi2 && lo1 > lo2) {
        player1Wins := player1Wins + 1;
      } else if hi1 < hi2 || (hi1 == hi2 && lo1 < lo2) {
        player2Wins := player2Wins + 1;
      } else {
        var h1, h2 := player1CurHand, player2CurHand;
        for i := 0 to |h1|
          invariant c1 == if HasKicker(h1[..i], p1a, p1b) then LastKicker(h1[..i], p1a, p1b) else 0
          invariant c2 == if HasKicker(h2[..i], p2a, p2b) then LastKicker(h2[..i], p2a, p2b) else 0
          invariant player1Wins == old(player1Wins) && player2Wins == old(player2Wins)
        {
          KickerStep(h1, i, p1a, p1b);
          KickerStep(h2, i, p2a, p2b);
          if h1[i].value != p1a && h1[i].value != p1b {
            c1 := h1[i].value;
          }
          if h2[i].value != p2a && h2[i].value != p2b {
            c2 := h2[i].value;
          }
        }
        assert h1[..|h1|] == h1 && h2[..|h2|] == h2;
        assert c1 == LastKicker(h1, p1a, p1b) && c2 == LastKicker(h2, p2a, p2b);
        assert TwoPairOutcome(h1, h2, p1a, p1b, p2a, p2b) == Winner(c1, c2).value;
        var _ := DetermineWinner(c1, c2);
      }
    }

    method TwoPairsControl() returns (decided: bool)
      requires Ready() && TwoPairsComparable(player1CurHand, player2CurHand)
      modifies this`player1Wins, this`player2Wins
      ensures decided == TwoPairsStep(player1CurHand, player2CurHand).Some?
      ensures Credited(old(player1Wins), old(player2Wins), TwoPairsStep(player1CurHand, player2CurHand))
    {
      var p1, p1a, p1b := HasTwoPairs(player1CurHand);
      var p2, p2a, p2b := HasTwoPairs(player2CurHand);
      if p1 && !p2 {
        player1Wins := player1Wins + 1;
        return true;
      } else if !p1 && p2 {
        player2Wins := player2Wins + 1;
        return true;
      } else if p1 && p2 {
        DetermineTwoPairWinner(p1a, p1b, p2a, p2b);
        return true;
      }
      return false;
    }

    /**
      Two hands with a pair: the higher pair wins; equal pairs are settled by
      the other cards (CompareRemainingCards).
    */
    method DetermineOnePairWinner(p1: CardValue, p2: CardValue)
      requires p1 == p2 ==> |Without(player1CurHand, p1)| >= 3 && |Without(player2CurHand, p2)| >= 3
      modifies this`player1Wins, this`player2Wins
      ensures Credited(old(player1Wins), old(player2Wins),
                       Some(OnePairOutcome(old(player1CurHand), old(player2CurHand), p1, p2)))
    {
      if p1 > p2 {
        player1Wins := player1Wins + 1;
      } else if p1 < p2 {
        player2Wins := player2Wins + 1;
      } else {
        CompareRemainingCards(p1);
      }
    }

    /**
      The equal-pairs branch of DetermineOnePairWinner: player 1 is credited
      when their remaining cards rank higher, player 2 when lower, both when
      the remaining cards are level.
    */
    method CompareRemainingCards(p: CardValue)
      requires |Without(player1CurHand, p)| >= 3 && |Without(player2CurHand, p)| >= 3
      modifies this`player1Wins, this`player2Wins
      ensures Credited(old(player1Wins), old(player2Wins),
                       Some(RemainingOutcome(old(player1CurHand), old(player2CurHand), p)))
    {
      var o := RemainingCardsOutcome(player1CurHand, player2CurHand, p);
      if o == Player1Wins {
        player1Wins := player1Wins + 1;
      } else if o == Player2Wins {
        player2Wins := player2Wins + 1;
      } else {
        player1Wins := player1Wins + 1;
        player2Wins := player2Wins + 1;
      }
    }

    /**
      The cards of each hand outside the pair of rank p, collected in order
      and sorted, compared third, second, first.
    */
    static method RemainingCardsOutcome(h1: seq<Card>, h2: seq<Card>, p: CardValue) returns (o: Outcome)
      requires |Without(h1, p)| >= 3 && |Without(h2, p)| >= 3
      ensures o == RemainingOutcome(h1, h2, p)
    {
      var result1 := OtherCards(h1, p);
      var result2 := OtherCards(h2, p);
      result1 := SortByValue(result1);
      result2 := SortByValue(result2);
      CompareThree(result1, result2);
      if (result1[2].value > result2[2].value) ||
         (result1[2].value == result2[2].value && result1[1].value > result2[1].value) ||
         (result1[2].value == result2[2].value && result1[1].value == result2[1].value && result1[0].value > result2[0].value)
      {
        o := Player1Wins;
      } else if (result1[2].value < result2[2].value) ||
         (result1[2].value == result2[2].value && result1[1].value < result2[1].value) ||
         (result1[2].value == result2[2].value && result1[1].value == result2[1].value && result1[0].value < result2[0].value)
      {
        o := Player2Wins;
      } else {
        o := Tie;
      }
    }

    /** The cards of h whose rank is not v, in their order in h. */
    static method OtherCards(h: seq<Card>, v: CardValue) returns (others: seq<Card>)
      ensures others == Without(h, v)
    {
      others := [];
      for i := 0 to |h|
        invariant others == Without(h[..i], v)
      {
        WithoutStep(h, i, v);
        if h[i].value != v {
          others := others + [h[i]];
        }
      }
      assert h[..|h|] == h;
    }

    method OnePairControl() returns (decided: bool)
      requires Ready() && OnePairComparable(player1CurHand, player2CurHand)
      modifies this`player1Wins, this`player2Wins
      ensures decided == OnePairStep(player1CurHand, player2CurHand).Some?
      ensures Credited(old(player1Wins), old(player2Wins), OnePairStep(player1CurHand, player2CurHand))
    {
      var p1 := HasOnePair(player1CurHand);
      var p2 := HasOnePair(player2CurHand);
      if p1 != NULL_VALUE && p2 == NULL_VALUE {
        player1Wins := player1Wins + 1;
        return true;
      } else if p1 == NULL_VALUE && p2 != NULL_VALUE {
        player2Wins := player2Wins + 1;
        return true;
      } else if p1 != NULL_VALUE && p2 != NULL_VALUE {
        DetermineOnePairWinner(p1, p2);
        return true;
      }
      return false;
    }

    /**
      Compares the two hands card by card from the highest down: the first
      difference credits the higher card's player; equal hands credit both.
    */
    method HighestRemainingCard()
      requires Ready()
      modifies this`player1Wins, this`player2Wins
      ensures Credited(old(player1Wins), old(player2Wins), Some(HighCardOutcome(player1CurHand, player2CurHand)))
    {
      var h1, h2 := player1CurHand, player2CurHand;
      var i := |h1| - 1;
      while i >= 0
        invariant -1 <= i < |h1|
        invariant CompareFromTop(h1, h2, |h1|) == CompareFromTop(h1, h2, i + 1)
        invariant player1Wins == old(player1Wins) && player2Wins == old(player2Wins)
      {
        if h1[i].value > h2[i].value {
          player1Wins := player1Wins + 1;
          return;
        } else if h1[i].value < h2[i].value {
          player2Wins := player2Wins + 1;
          return;
        }
        i := i - 1;
      }
      player1Wins := player1Wins + 1;
      player2Wins := player2Wins + 1;
    }

    // -------------------------------------------------------------------
    // AnalyzePlayersHands

    /**
      Judges the current game: the first step of the cascade that decides
      credits its outcome, and the counters change in no other way.
    */
    method AnalyzePlayersHands()
      requires Ready()
      modifies this`player1Wins, this`player2Wins
      ensures Credited(old(player1Wins), old(player2Wins), Some(Analyze(player1CurHand, player2CurHand)))
    {
      var h1, h2 := player1CurHand, player2CurHand;
      var decided := RoyalFlushControl();
      if decided {
        AnalyzeUpperSteps(h1, h2);
        return;
      }
      decided := StraightFlushControl();
      if decided {
        AnalyzeUpperSteps(h1, h2);
        return;
      }
      decided := FourOfAKindControl();
      if decided {
        AnalyzeUpperSteps(h1, h2);
        return;
      }
      decided := FullHouseControl();
      if decided {
        AnalyzeUpperSteps(h1, h2);
        return;
      }
      decided := FlushControl();
      if decided {
        AnalyzeUpperSteps(h1, h2);
        return;
      }
      decided := StraightControl();
      if decided {
        AnalyzeUpperSteps(h1, h2);
        return;
      }
      AnalyzeLowerSteps(h1, h2);
      decided := ThreeOfAKindControl();
      if decided {
        return;
      }
      decided := TwoPairsControl();
      if decided {
        AnalyzePairSteps(h1, h2);
        return;
      }
      decided := OnePairControl();
      if decided {
        AnalyzePairSteps(h1, h2);
        return;
      }
      AnalyzePairSteps(h1, h2);
      HighestRemainingCard();
    }
  }

  /** Parsing one token more appends its card. */
  lemma ParseCardsSnoc(tokens: seq<string>, lo: nat, hi: nat)
    requires WellFormedTokens(tokens) && lo <= hi < |tokens|
    ensures ParseCards(tokens[lo..hi + 1]) == ParseCards(tokens[lo..hi]) + [ParseCard(tokens[hi])]
  {
    assert tokens[lo..hi + 1] == tokens[lo..hi] + [tokens[hi]];
    var a, b := ParseCards(tokens[lo..hi + 1]), ParseCards(tokens[lo..hi]) + [ParseCard(tokens[hi])];
    assert forall k :: 0 <= k < |a| ==> a[k] == b[k];
  }

  /** Of ten tokens, both sorted hands are ready exactly when every rank character is valid. */
  lemma DealtHandsReady(tokens: seq<string>)
    requires |tokens| == 10 && WellFormedTokens(tokens)
    ensures IsHand(SortByValue(ParseCards(tokens[..5]))) && IsHand(SortByValue(ParseCards(tokens[5..]))) <==>
      forall i :: 0 <= i < |tokens| ==> tokens[i][0] in VALUE_CHARS
  {
    SortedHandReady(tokens[..5]);
    SortedHandReady(tokens[5..]);
    if !forall i :: 0 <= i < |tokens| ==> tokens[i][0] in VALUE_CHARS {
      var i :| 0 <= i < |tokens| && tokens[i][0] !in VALUE_CHARS;
      if i < 5 {
        assert tokens[..5][i] == tokens[i];
      } else {
        assert tokens[5..][i - 5] == tokens[i];
      }
    }
  }

  /** Five tokens make a ready hand exactly when every rank character is valid. */
  lemma SortedHandReady(tokens: seq<string>)
    requires |tokens| == 5 && WellFormedTokens(tokens)
    ensures IsHand(SortByValue(ParseCards(tokens))) <==> forall i :: 0 <= i < 5 ==> tokens[i][0] in VALUE_CHARS
  {
    var dealt := ParseCards(tokens);
    NoNullValuesPermutation(SortByValue(dealt), dealt);
    if !forall i :: 0 <= i < 5 ==> tokens[i][0] in VALUE_CHARS {
      var i :| 0 <= i < 5 && tokens[i][0] !in VALUE_CHARS;
      assert dealt[i].value == NULL_VALUE;
    }
  }

  /** One step of the filter in DetermineOnePairWinner: the cards of a prefix outside rank v grow by one card. */
  lemma WithoutStep(h: seq<Card>, i: nat, v: CardValue)
    requires i < |h|
    ensures Without(h[..i + 1], v) == Without(h[..i], v) + (if h[i].value != v then [h[i]] else [])
  {
    assert h[..i + 1] == h[..i] + [h[i]];
    WithoutSnoc(h[..i], h[i], v);
  }

  /** One step of the kicker scan: how the last kicker of a prefix grows by one card. */
  lemma KickerStep(h: seq<Card>, i: nat, a: CardValue, b: CardValue)
    requires i < |h|
    ensures HasKicker(h[..i + 1], a, b) <==> HasKicker(h[..i], a, b) || (h[i].value != a && h[i].value != b)
    ensures HasKicker(h[..i + 1], a, b) ==>
      LastKicker(h[..i + 1], a, b) == (if h[i].value != a && h[i].value != b then h[i].value else LastKicker(h[..i], a, b))
  {
    assert h[..i + 1] == h[..i] + [h[i]];
    KickerSnoc(h[..i], h[i], a, b);
    if HasKicker(h[..i + 1], a, b) {
      LastKickerSnoc(h[..i], h[i], a, b);
    }
  }
}
