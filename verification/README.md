# Euler 54 poker judge, modelled in Dafny

This project models the judging engine of `PokerHands/Program.cs`, a solver for
Project Euler problem 54. Each input line holds ten card tokens: the first five
are player 1's hand and the last five player 2's. The judge decides who wins the
game and keeps two win counters. The model covers:

- the card enumerations, with ranks kept as their ordinals (NULL = 1, TWO = 2, ..., ACE = 14);
- the parsing of a card token (`DetermineValue`, `DetermineSuit`);
- the dealing and sorting of a game (`GenerateHands`);
- the ten category detectors;
- `DetermineWinner` and every `*Control` and `Determine*Winner` method;
- `HighestRemainingCard` and the priority cascade `AnalyzePlayersHands`.

Modules:

- `Cards` (`cards.dfy`): the enumerations, the `Card` datatype and token parsing.
  It also has the rank sort that `List.Sort` performs, and counting and
  filtering by rank.
- `Detectors` (`detectors.dfy`): one member per detector.
  - Single-expression detectors are functions.
  - Four of a kind, full house, two pairs and one pair are loops in the source.
    Each is a method with that loop, proved equal to a specification function.
  - Lemmas say what each function means on a sorted hand.
- `Comparison` (`comparison.dfy`): the pure specification of a game.
  - `Winner` is `DetermineWinner`; one step function per `*Control`; the
    tie-breaks; and `Analyze`, the whole cascade.
  - `Category` is the category the cascade judges a hand in.
  - Lemmas cover categories, ties and hands that share their ranks.
- `Judge` (`judge.dfy`): class `Program`, with the two counters and the two
  current hands as fields, and the source's methods updating them. Each method
  is proved to change the counters exactly as the matching function of
  `Comparison` decides; a tie credits both players.
- `Scenarios` (`scenarios.dfy`): concrete games.
  - The five sample games of Project Euler problem 54.
  - One game for each place where the judge departs from the rules of poker.

The model keeps the code's behaviour, including its defects, where it departs
from the ranking of hands in poker (the ranking Project Euler problem 54 uses):

- **Straight flushes are never detected.** `HasStraightFlush` overwrites its
  result with NULL after the test (lines 300-301). A straight flush is judged
  as a flush, so four of a kind beats it (`Scenarios.StraightFlushLosesToFourOfAKind`).
  In poker a straight flush outranks four of a kind.
- **A four of a kind whose odd card is the lowest is missed.** `HasFourOfAKind`
  counts the cards that differ from the first card. 2-5-5-5-5 is judged as three
  fives (`Detectors.FourOfAKindMissesLowKicker`, `Scenarios.FourFivesLoseToThreeKings`).
- **Equal ranks credit player 2.** `DetermineWinner` gives every decided
  comparison of equal ranks to player 2 (lines 107-110). This applies to four of
  a kind, full house, straight, three of a kind and the two-pair kicker.
  - These categories never end in a tie, although in poker two hands equal at
    every rank are a tie (`Comparison.SameRanksOutcome`).
  - Exchanging the players does not exchange the outcome.
  - A hand against itself is not always a tie.
- **There is no ace-low straight** (lines 498-501, `Detectors.NoAceLowStraight`).

Several specification functions have no row of their own. Each models a source
span and gets its meaning from the lemmas and methods named here:

| function | source | meaning given by |
|---|---|---|
| `Comparison.CompareFromTop` | lines 830-848 and 444-459 | `Comparison.CompareFromTopMeaning`, `Comparison.CompareFromTopFlip` |
| `Comparison.HighCardOutcome` | lines 830-848 | `Comparison.CompareFromTopMeaning`, `Judge.Program.HighestRemainingCard` |
| `Comparison.RoyalFlushStep` | lines 253-276 | `Judge.Program.RoyalFlushControl`, `Comparison.SameCategoryTieBreak` |
| `Comparison.FlushStep` | lines 462-488 | `Judge.Program.FlushControl`, `Comparison.SameCategoryTieBreak` |
| `Comparison.OnePairOutcome` | lines 752-798 | `Judge.Program.DetermineOnePairWinner`, `Comparison.SameRanksOnePairStep` |
| `Comparison.RemainingOutcome` | lines 762-797 | `Comparison.CompareThree`, `Judge.Program.RemainingCardsOutcome`, `Scenarios.QueensRemainingCards` |
| `Comparison.OnePairStep` | lines 800-824 | `Judge.Program.OnePairControl`, `Comparison.SameRanksOnePairStep` |
| `Comparison.Analyze` | lines 117-147 | `Comparison.HigherCategoryWins`, `Comparison.SameCategoryTieBreak`, `Comparison.CreditsPerGame`, `Judge.Program.AnalyzePlayersHands` |
| `Detectors.IsConsecutive` | lines 498-501 | `Detectors.HasStraight`, `Detectors.NoAceLowStraight` |

`Cards.Count` promises only that it counts no more cards than there are; what
it counts is stated by `Cards.CountFive` and `Cards.CountPrefix`.

## Model

| member | source | states |
|---|---|---|
| Cards.DetermineValue | PokerHands/Program.cs:182-215 | a rank character maps to its rank, and exactly the characters outside "23456789TJQKA" map to NULL; a real rank maps back to its character |
| Cards.DetermineSuit | PokerHands/Program.cs:217-232 | 'C', 'D', 'H', 'S' map to the four suits and exactly the other characters map to the NULL suit; a real suit maps back to its character |
| Cards.ValueCharRoundTrip | PokerHands/Program.cs:182-215 | every real rank is recovered from its character |
| Cards.SuitCharRoundTrip | PokerHands/Program.cs:217-232 | every real suit is recovered from its character |
| Cards.ParseCard | PokerHands/Program.cs:163-165 | the card of a token has a real rank iff its first character is a rank character, and a real suit iff its second is a suit character |
| Cards.CardTextRoundTrip | PokerHands/Program.cs:163-165 | a real card written as its two characters parses back to itself |
| Cards.ParseCards | PokerHands/Program.cs:161-175 | the cards of a token sequence, one per token, in token order |
| Cards.InsertByValue | PokerHands/Program.cs:178-179 | inserting a card into a rank-sorted sequence gives a rank-sorted sequence with that card added to the multiset |
| Cards.SortByValue | PokerHands/Program.cs:178-179 | the sort returns a rank-sorted permutation of its input |
| Cards.SortSortedSameRanks | PokerHands/Program.cs:178-179 | sorting a sequence already in rank order leaves every rank at its position |
| Cards.SortSameValues | PokerHands/Program.cs:178-179 | sorting two sequences with the same ranks position by position gives sequences with the same ranks position by position |
| Cards.NoNullValuesPermutation | PokerHands/Program.cs:178-179 | rearranging cards neither adds nor removes a NULL rank |
| Cards.Without | PokerHands/Program.cs:767-774 | as many cards as the hand holds minus those of rank v, none of them of rank v |
| Cards.WithoutMembers | PokerHands/Program.cs:767-774 | a card is kept iff the hand holds it and its rank is not v, and no card is kept more often than the hand holds it |
| Cards.WithoutAbsent | PokerHands/Program.cs:767-774 | filtering out a rank the cards do not hold leaves them unchanged |
| Cards.WithoutSameValues | PokerHands/Program.cs:767-774 | filtering two hands with the same ranks leaves the same ranks |
| Detectors.CheckForAllSameSuit | PokerHands/Program.cs:87-91 | true iff all five cards have one suit |
| Detectors.HasRoyalFlush | PokerHands/Program.cs:238-247 | true iff all suits are equal, the first card is a Ten and the last an Ace |
| Detectors.RoyalFlushIsTenToAce | PokerHands/Program.cs:238-247 | on a sorted hand of distinct cards, that test is exactly Ten, Jack, Queen, King, Ace of one suit |
| Detectors.HasStraightFlush | PokerHands/Program.cs:282-302 | reports NULL for every hand |
| Detectors.HasStraight | PokerHands/Program.cs:494-512 | a non-NULL result iff the five ordinals are consecutive, and then it is the top card's rank |
| Detectors.NoAceLowStraight | PokerHands/Program.cs:498-501 | a hand holding a Two and an Ace is never a straight |
| Detectors.FourOfAKindValue | PokerHands/Program.cs:324-348 | a non-NULL result is the first card's rank and occurs at least four times |
| Detectors.HasFourOfAKind | PokerHands/Program.cs:324-348 | the loop counting cards unlike the first returns FourOfAKindValue |
| Detectors.FourOfAKindOnSorted | PokerHands/Program.cs:324-348 | on a sorted hand it reports the first card's rank exactly when the first four cards share it, else NULL |
| Detectors.FourOfAKindMissesLowKicker | PokerHands/Program.cs:324-348 | a sorted hand with four cards of one rank above a lower odd card gets NULL |
| Detectors.FullHouseValue | PokerHands/Program.cs:369-412 | a non-NULL result is a rank that occurs exactly three times |
| Detectors.HasFullHouse | PokerHands/Program.cs:369-412 | the two-counter loop returns FullHouseValue |
| Detectors.FullHouseMeaning | PokerHands/Program.cs:369-412 | non-NULL iff two distinct ranks occur three and two times, and then the rank occurring three times |
| Detectors.FullHouseOnSorted | PokerHands/Program.cs:369-412 | on a sorted hand: the shape XXXYY reports X, XXYYY reports Y, anything else NULL |
| Detectors.HasFlush | PokerHands/Program.cs:434-440 | true iff all five cards have one suit |
| Detectors.HasThreeOfAKind | PokerHands/Program.cs:534-559 | present iff three adjacent cards share a rank |
| Detectors.ThreeOfAKindMeaning | PokerHands/Program.cs:534-559 | on a sorted hand it reports v exactly when v occurs at least three times |
| Detectors.TwoPairValues | PokerHands/Program.cs:595-635 | present iff two non-overlapping adjacent pairs exist, and then their ranks, the lower first |
| Detectors.HasTwoPairs | PokerHands/Program.cs:595-635 | the scan that skips both cards of a pair returns true with TwoPairValues, or false with both ranks NULL |
| Detectors.OnePairValue | PokerHands/Program.cs:715-750 | the rank of the first adjacent pair from the lowest card, NULL when none |
| Detectors.HasOnePair | PokerHands/Program.cs:715-750 | the scan returns OnePairValue |
| Detectors.LastKicker | PokerHands/Program.cs:660-672 | the rank of a card of the hand in neither pair, which differs from both pair ranks |
| Detectors.LastKickerIsLast | PokerHands/Program.cs:660-672 | the kicker is the rank of a card after which only cards of the two pairs follow: the last card the overwriting loop sees |
| Detectors.LastKickerSameValues | PokerHands/Program.cs:660-672 | hands with the same ranks have the same kicker |
| Detectors.TwoPairsHaveKicker | PokerHands/Program.cs:639-640 | a two-pair hand that got past four of a kind and full house has a kicker, so the default card is never compared |
| Detectors.OnePairLeavesThreeCards | PokerHands/Program.cs:767-774 | a one-pair hand with no three of a kind holds its pair twice and leaves three other cards |
| Comparison.Winner | PokerHands/Program.cs:93-115 | undecided iff both ranks are NULL; player 1 wins iff its rank is strictly higher; player 2 is credited otherwise, equal ranks included |
| Comparison.WinnerFlip | PokerHands/Program.cs:93-115 | between different ranks, exchanging the players exchanges the winner |
| Comparison.EqualRanksCreditPlayer2 | PokerHands/Program.cs:105-111 | equal real ranks credit player 2 |
| Comparison.CompareFromTopMeaning | PokerHands/Program.cs:830-848 | a tie iff all positions agree; otherwise the higher rank at the highest differing position wins |
| Comparison.CompareFromTopFlip | PokerHands/Program.cs:830-848 | exchanging the hands exchanges the winner of the card-by-card comparison |
| Comparison.CompareThree | PokerHands/Program.cs:780-796 | the three-level test on the remaining cards is the comparison of the top three positions |
| Comparison.Higher | PokerHands/Program.cs:642-646 | the higher of the two pair ranks |
| Comparison.Lower | PokerHands/Program.cs:642-646 | the lower of the two pair ranks |
| Comparison.TwoPairOutcome | PokerHands/Program.cs:637-676 | higher pairs, then lower pairs, then the kickers through DetermineWinner decide; never a tie |
| Comparison.TwoPairOrder | PokerHands/Program.cs:648-659 | a strictly higher top pair wins whatever the rest; on equal top pairs a strictly higher lower pair wins whatever the kickers |
| Comparison.TwoPairOutcomeFlip | PokerHands/Program.cs:648-674 | exchanging two hands that differ in a pair or in the kicker exchanges the winner |
| Comparison.ThreeOfAKindStep | PokerHands/Program.cs:561-589 | a three of a kind beats none; two are compared by DetermineWinner; never a tie |
| Comparison.TwoPairsStep | PokerHands/Program.cs:678-709 | two pairs beat none; two are compared by the two-pair tie-break; never a tie |
| Comparison.TwoPairsInCascade | PokerHands/Program.cs:117-147 | hands past the four-of-a-kind and full-house steps meet the two-pair tie-break's needs |
| Comparison.OnePairInCascade | PokerHands/Program.cs:117-147 | hands past the three-of-a-kind step meet the one-pair tie-break's needs |
| Comparison.AnalyzeUpperSteps | PokerHands/Program.cs:119-135 | royal flush to straight: the first step that decides gives the game's outcome |
| Comparison.AnalyzeLowerSteps | PokerHands/Program.cs:137-138 | past the straight step, three of a kind decides next |
| Comparison.AnalyzePairSteps | PokerHands/Program.cs:140-146 | then two pairs, one pair and finally the highest card decide |
| Comparison.Category | PokerHands/Program.cs:117-147 | the category of the first detector that fires, never the straight flush |
| Comparison.HigherCategoryWins | PokerHands/Program.cs:117-147 | a hand in a higher category wins, whatever the ranks |
| Comparison.CategoryBelowSix | PokerHands/Program.cs:129-147 | the flush and straight cases of HigherCategoryWins |
| Comparison.CategoryBelowFour | PokerHands/Program.cs:135-147 | the three-of-a-kind case of HigherCategoryWins |
| Comparison.CategoryBelowThree | PokerHands/Program.cs:137-147 | the two-pair and one-pair cases of HigherCategoryWins |
| Comparison.SameCategoryTieBreak | PokerHands/Program.cs:117-147 | two hands of one category reach that category's tie-break: royal flushes tie; flush and high card compare from the top; the rest use their step |
| Comparison.SameCategoryBelowFour | PokerHands/Program.cs:135-147 | the three-of-a-kind and lower cases of SameCategoryTieBreak |
| Comparison.SameCategoryBelowThree | PokerHands/Program.cs:137-147 | the two-pair, one-pair and high-card cases of SameCategoryTieBreak |
| Comparison.TieOnlyInLevelCategories | PokerHands/Program.cs:117-147 | a tie only between hands of one category, and only royal flush, flush, one pair or high card |
| Comparison.CreditsPerGame | PokerHands/Program.cs:117-147 | a game credits one win, or two on a tie, which happens only between hands of one level category |
| Comparison.SameRanksOutcome | PokerHands/Program.cs:107-110 | hands with equal ranks in one category tie in royal flush, flush, one pair and high card, and credit player 2 in every other category |
| Comparison.SameRanksOther | PokerHands/Program.cs:93-115 | the same for the categories other than two pairs and one pair |
| Comparison.SameRanksStraight | PokerHands/Program.cs:514-528 | equal-rank straights credit player 2 |
| Comparison.SameRanksThree | PokerHands/Program.cs:561-589 | equal-rank threes of a kind credit player 2 |
| Comparison.SameRanksSameRuns | PokerHands/Program.cs:494-559 | the straight and three-of-a-kind detectors read only the ranks |
| Comparison.SameRanksHighCard | PokerHands/Program.cs:830-848 | equal-rank flushes or high-card hands tie |
| Comparison.SameRanksFourOrFull | PokerHands/Program.cs:107-110 | equal-rank fours of a kind or full houses credit player 2 |
| Comparison.SameRanksTwoPairs | PokerHands/Program.cs:660-674 | equal-rank two-pair hands credit player 2 through their equal kickers |
| Comparison.SameRanksTwoPairsStep | PokerHands/Program.cs:678-709 | the two-pair step credits player 2 on equal-rank hands |
| Comparison.SameRanksOnePair | PokerHands/Program.cs:793-796 | equal-rank one-pair hands tie |
| Comparison.SameRanksOnePairStep | PokerHands/Program.cs:800-824 | the one-pair step ties on equal-rank hands |
| Judge.FirstSeat | PokerHands/Program.cs:167-174 | tokens 0 to 4 go to player 1 |
| Judge.Program.constructor | PokerHands/Program.cs:48-51 | counters at zero and both hands empty |
| Judge.Program.GenerateHands | PokerHands/Program.cs:149-180 | each hand is a rank-sorted permutation of its tokens' cards, the first five for player 1 and the rest for player 2; with ten tokens both hands are ready iff every rank character is valid |
| Judge.Program.DetermineWinner | PokerHands/Program.cs:93-115 | returns whether Winner decides and credits exactly what it decides |
| Judge.Program.RoyalFlushControl | PokerHands/Program.cs:253-276 | credits RoyalFlushStep: one royal flush wins, two credit both |
| Judge.Program.StraightFlushControl | PokerHands/Program.cs:304-318 | never decides and changes no counter |
| Judge.Program.FourOfAKindControl | PokerHands/Program.cs:350-363 | credits Winner on the two four-of-a-kind ranks |
| Judge.Program.FullHouseControl | PokerHands/Program.cs:414-428 | credits Winner on the two full-house ranks |
| Judge.Program.DetermineFlushWinner | PokerHands/Program.cs:442-460 | credits the highest-card-first comparison, both players on full equality |
| Judge.Program.FlushControl | PokerHands/Program.cs:462-488 | credits FlushStep |
| Judge.Program.StraightControl | PokerHands/Program.cs:514-528 | credits Winner on the two straights' top ranks |
| Judge.Program.ThreeOfAKindControl | PokerHands/Program.cs:561-589 | credits ThreeOfAKindStep |
| Judge.Program.DetermineTwoPairWinner | PokerHands/Program.cs:637-676 | credits TwoPairOutcome; the kicker loop finds each hand's last card outside its pairs |
| Judge.Program.TwoPairsControl | PokerHands/Program.cs:678-709 | credits TwoPairsStep |
| Judge.Program.DetermineOnePairWinner | PokerHands/Program.cs:752-798 | the higher pair wins; equal pairs credit the remaining-cards comparison |
| Judge.Program.CompareRemainingCards | PokerHands/Program.cs:762-797 | credits RemainingOutcome, both players when the three remaining cards are level |
| Judge.Program.RemainingCardsOutcome | PokerHands/Program.cs:767-796 | filtering, sorting and the three-level test compute RemainingOutcome |
| Judge.Program.OtherCards | PokerHands/Program.cs:767-774 | the filter loop collects Without(h, v) |
| Judge.Program.OnePairControl | PokerHands/Program.cs:800-824 | credits OnePairStep |
| Judge.Program.HighestRemainingCard | PokerHands/Program.cs:830-848 | credits the comparison from index 4 down to 0, both players on full equality |
| Judge.Program.AnalyzePlayersHands | PokerHands/Program.cs:117-147 | the counters grow by exactly what Analyze decides for the two current hands |
| Judge.ParseCardsSnoc | PokerHands/Program.cs:161-175 | parsing one more token appends its card |
| Judge.DealtHandsReady | PokerHands/Program.cs:149-180 | of ten tokens, both sorted hands are ready iff every rank character is valid |
| Judge.SortedHandReady | PokerHands/Program.cs:161-179 | five tokens make a ready sorted hand iff all five rank characters are valid |
| Judge.WithoutStep | PokerHands/Program.cs:767-774 | one filter step appends the card when its rank is not the pair's |
| Judge.KickerStep | PokerHands/Program.cs:660-672 | one kicker-loop step keeps the last card outside both pairs |
| Scenarios.FivesCategory | PokerHands/Program.cs:715-750 | FIVES is a ready hand that the cascade judges as one pair, with OnePairValue(FIVES) == FIVE |
| Scenarios.EightsCategory | PokerHands/Program.cs:715-750 | EIGHTS is a ready hand that the cascade judges as one pair, with OnePairValue(EIGHTS) == EIGHT |
| Scenarios.AceHighCategory | PokerHands/Program.cs:830-848 | ACE_HIGH is a ready hand that the cascade judges as highest card |
| Scenarios.QueenHighCategory | PokerHands/Program.cs:830-848 | QUEEN_HIGH is a ready hand that the cascade judges as highest card |
| Scenarios.ThreeAcesCategory | PokerHands/Program.cs:534-559 | THREE_ACES is a ready hand that the cascade judges as three of a kind |
| Scenarios.DiamondFlushCategory | PokerHands/Program.cs:434-440 | DIAMOND_FLUSH is a ready hand that the cascade judges as flush |
| Scenarios.QueensNineHighCategory | PokerHands/Program.cs:715-750 | QUEENS_NINE_HIGH is a ready hand that the cascade judges as one pair, with OnePairValue(QUEENS_NINE_HIGH) == QUEEN |
| Scenarios.QueensSevenHighCategory | PokerHands/Program.cs:715-750 | QUEENS_SEVEN_HIGH is a ready hand that the cascade judges as one pair, with OnePairValue(QUEENS_SEVEN_HIGH) == QUEEN |
| Scenarios.FoursFullCategory | PokerHands/Program.cs:369-412 | FOURS_FULL is a ready hand that the cascade judges as full house, with FullHouseValue(FOURS_FULL) == FOUR |
| Scenarios.ThreesFullCategory | PokerHands/Program.cs:369-412 | THREES_FULL is a ready hand that the cascade judges as full house, with FullHouseValue(THREES_FULL) == THREE |
| Scenarios.HeartStraightFlushCategory | PokerHands/Program.cs:282-302 | HEART_STRAIGHT_FLUSH is a ready hand that the cascade judges as flush: its straight-flush detector never fires |
| Scenarios.FourTwosCategory | PokerHands/Program.cs:324-348 | FOUR_TWOS is a ready hand that the cascade judges as four of a kind, with FourOfAKindValue(FOUR_TWOS) == TWO |
| Scenarios.FourFivesTwoLowCategory | PokerHands/Program.cs:324-348 | FOUR_FIVES_TWO_LOW is a ready hand that the cascade judges as three of a kind, with HasThreeOfAKind(FOUR_FIVES_TWO_LOW) == Some(FIVE): the four fives go unnoticed |
| Scenarios.ThreeKingsCategory | PokerHands/Program.cs:534-559 | THREE_KINGS is a ready hand that the cascade judges as three of a kind, with HasThreeOfAKind(THREE_KINGS) == Some(KING) |
| Scenarios.EightHighStraightClubsCategory | PokerHands/Program.cs:494-512 | EIGHT_HIGH_STRAIGHT_CLUBS is a ready hand that the cascade judges as straight, with HasStraight(EIGHT_HIGH_STRAIGHT_CLUBS) == EIGHT |
| Scenarios.EightHighStraightDiamondsCategory | PokerHands/Program.cs:494-512 | EIGHT_HIGH_STRAIGHT_DIAMONDS is a ready hand that the cascade judges as straight, with HasStraight(EIGHT_HIGH_STRAIGHT_DIAMONDS) == EIGHT |
| Scenarios.WheelCategory | PokerHands/Program.cs:494-512 | WHEEL is a ready hand that the cascade judges as highest card: ace to five is no straight |
| Scenarios.KingsCategory | PokerHands/Program.cs:715-750 | KINGS is a ready hand that the cascade judges as one pair, with OnePairValue(KINGS) == KING |
| Scenarios.JackHighClubsCategory | PokerHands/Program.cs:830-848 | JACK_HIGH_CLUBS is a ready hand that the cascade judges as highest card |
| Scenarios.JackHighDiamondsCategory | PokerHands/Program.cs:830-848 | JACK_HIGH_DIAMONDS is a ready hand that the cascade judges as highest card |
| Scenarios.PairOfFivesLosesToPairOfEights | PokerHands/Program.cs:752-761 | 5H 5C 6S 7S KD against 2C 3S 8S 8D TD credits player 2 |
| Scenarios.AceHighBeatsQueenHigh | PokerHands/Program.cs:830-848 | 5D 8C 9S JS AC against 2C 5C 7D 8S QH credits player 1 |
| Scenarios.ThreeAcesLoseToFlush | PokerHands/Program.cs:462-488 | 2D 9C AS AH AC against 3D 6D 7D TD QD credits player 2 |
| Scenarios.QueensRemainingCards | PokerHands/Program.cs:767-796 | beside their queens, 4 6 9 beats 3 6 7 |
| Scenarios.PairOnTopFiltered | PokerHands/Program.cs:767-774 | a five-card hand with its pair on top keeps its three lower cards, in order, after the filter |
| Scenarios.SortThreeInOrder | PokerHands/Program.cs:777-778 | three cards already in rank order keep their ranks at their positions through the sort |
| Scenarios.EqualPairsGoToTheHighestOtherCard | PokerHands/Program.cs:762-797 | 4D 6S 9H QH QC against 3D 6D 7H QD QS credits player 1 |
| Scenarios.HigherThreeDecidesFullHouses | PokerHands/Program.cs:414-428 | 2H 2D 4C 4D 4S against 3C 3D 3S 9S 9D credits player 1 |
| Scenarios.StraightFlushLosesToFourOfAKind | PokerHands/Program.cs:300-301 | a straight flush of hearts from five to nine loses to four twos |
| Scenarios.FourFivesLoseToThreeKings | PokerHands/Program.cs:324-348 | four fives beside a two lose to three kings |
| Scenarios.EqualStraightsCreditPlayer2 | PokerHands/Program.cs:107-110 | two four-to-eight straights credit player 2 |
| Scenarios.AceLowStraightLosesToPairOfKings | PokerHands/Program.cs:498-501 | ace to five loses to a pair of kings |
| Scenarios.IdenticalHighCardsTie | PokerHands/Program.cs:846-847 | two no-pair hands with the same ranks tie |

## Left out

- `Main`, `OpenFile` and the file loop of `AnalyzeAllHands` (lines 53-83) are left out. They are file and console I/O; a game enters the model as its sequence of tokens.
- `string.Split` and `ToCharArray` in `GenerateHands` are left out. `GenerateHands` takes the tokens already split, and every token must hold at least two characters; the source would fail on a shorter one.
- The order of equal-rank cards after `List.Sort` is not modelled. `List.Sort` is not stable, so it does not fix that order. `Cards.SortByValue` is a stable insertion sort, one of the behaviours `List.Sort` allows. The model promises about it only what every rank sort satisfies: `Judge.Program.GenerateHands` gives a rank-sorted permutation, and `Cards.SortSortedSameRanks`, `Cards.SortSameValues` and `Scenarios.SortThreeInOrder` speak only of ranks. No result of the judge depends on the order of equal-rank cards.
- The suits the detectors report with a rank, and the `Player` enumeration, are left out. No comparison reads them.
- The win counters are unbounded integers. The source's 32-bit counters could overflow only after some two billion games.
- NULL ranks are excluded by preconditions where the model compares ranks. A NULL rank is malformed input.
  - Most detectors require only five cards.
  - `Detectors.HasFullHouse`, `Detectors.HasTwoPairs`, `Comparison.TwoPairOutcome`, `Comparison.ThreeOfAKindStep` and `Comparison.TwoPairsStep` also require that no card has the NULL rank.
  - `Comparison.Analyze`, `Comparison.Category` and the `Judge.Program` methods that judge a game require ready hands: five cards, rank-sorted, no NULL rank.
  - `Judge.Program.GenerateHands` states exactly when it produces ready hands.
- Comparing the default card of rank 0 in `DetermineTwoPairWinner` (lines 639-640) is left out. The method starts its kicker variables at 0 as the source does, but it requires a kicker in each hand whenever the pairs are equal, so that default is never compared. `Detectors.TwoPairsHaveKicker` shows that the cascade always provides one.
- Judge.Program.DetermineFlushWinner: credits the flush comparison by calling `HighestRemainingCard`, whose loop is the same as the flush loop (lines 444-459), instead of repeating it.
- Judge.Program.DetermineOnePairWinner: its equal-pairs branch is split in two.
  - `CompareRemainingCards` credits the outcome.
  - `RemainingCardsOutcome` and `OtherCards` compute the outcome: the same filter, sort and three-level test.
  - The source filters both hands in one loop over player 1's hand. The model filters each hand over its own cards, which is the same for two five-card hands.
- Symmetry, reflexivity and "a straight flush beats four of a kind" are not proved. The code breaks all three; see the concrete games in `Scenarios`.
