/**
  The ten category detectors of the poker judge (PokerHands/Program.cs,
  regions "Royal Flush" to "One Pair"). Each inspects one five-card hand; a
  detector that reports a rank uses NULL_VALUE for "category absent".

  The detectors whose source is a single expression are functions. The four
  whose source is a loop over the hand (four of a kind, full house, two pairs,
  one pair) are methods with that loop, each proved equal to a specification
  function; the lemmas below say what those functions mean on a sorted hand.
*/
module Detectors {
  import opened Wrappers
  import opened Cards

  /** All five cards have the same suit. */
  function CheckForAllSameSuit(hand: seq<Card>): (same: bool)
    requires |hand| == 5
    ensures same <==> forall i, j :: 0 <= i < j < 5 ==> hand[i].suit == hand[j].suit
  {
    hand[0].suit == hand[1].suit && hand[0].suit == hand[2].suit &&
    hand[0].suit == hand[3].suit && hand[0].suit == hand[4].suit
  }

  // ---------------------------------------------------------------------
  // Royal flush

  function HasRoyalFlush(hand: seq<Card>): (royal: bool)
    requires |hand| == 5
    ensures royal ==> forall i, j :: 0 <= i < j < 5 ==> hand[i].suit == hand[j].suit
    ensures royal <==> CheckForAllSameSuit(hand) && hand[0].value == TEN && hand[4].value == ACE
  {
    if CheckForAllSameSuit(hand) then hand[0].value == TEN && hand[4].value == ACE else false
  }

  /**
    On a sorted hand of distinct cards the test "same suit, lowest a Ten,
    highest an Ace" is exactly the Ten-Jack-Queen-King-Ace of one suit.
  */
  lemma RoyalFlushIsTenToAce(hand: seq<Card>)
    requires IsHand(hand) && DistinctCards(hand)
    ensures HasRoyalFlush(hand) <==>
      CheckForAllSameSuit(hand) && forall i :: 0 <= i < 5 ==> hand[i].value == TEN + i
  {
    if HasRoyalFlush(hand) {
      forall i | 0 <= i < 4 ensures hand[i].value < hand[i + 1].value {
        assert hand[i].suit == hand[i + 1].suit && hand[i] != hand[i + 1];
      }
    }
  }

  // ---------------------------------------------------------------------
  // Straight flush and straight

  /** The five ranks are consecutive ordinals, lowest first (an Ace counts only as 14). */
  predicate IsConsecutive(hand: seq<Card>)
    requires |hand| == 5
  {
    hand[0].value + 1 == hand[1].value && hand[0].value + 2 == hand[2].value &&
    hand[0].value + 3 == hand[3].value && hand[0].value + 4 == hand[4].value
  }

  /**
    The straight-flush detector as written: it finds the top card of a
    straight flush and then overwrites its result with NULL unconditionally,
    so it reports "absent" for every hand.
  */
  method HasStraightFlush(hand: seq<Card>) returns (top: CardValue)
    requires |hand| == 5
    ensures top == NULL_VALUE
  {
    if CheckForAllSameSuit(hand) {
      var sameVal := IsConsecutive(hand);
      if sameVal {
        top := hand[4].value;
      }
    }
    top := NULL_VALUE;
  }

  /** The rank of the highest card of a straight, or NULL. */
  function HasStraight(hand: seq<Card>): (top: CardValue)
    requires |hand| == 5
    ensures top != NULL_VALUE <==> IsConsecutive(hand)
    ensures top != NULL_VALUE ==>
      top == hand[4].value && forall i :: 0 <= i < 5 ==> hand[i].value == top - 4 + i
  {
    if IsConsecutive(hand) then hand[4].value else NULL_VALUE
  }

  /** There is no Ace-low straight: a straight never holds both a Two and an Ace. */
  lemma NoAceLowStraight(hand: seq<Card>)
    requires |hand| == 5
    requires exists i :: 0 <= i < 5 && hand[i].value == TWO
    requires exists i :: 0 <= i < 5 && hand[i].value == ACE
    ensures HasStraight(hand) == NULL_VALUE
  {
  }

  // ---------------------------------------------------------------------
  // Four of a kind

  /**
    What the four-of-a-kind loop computes: the rank of the FIRST card when at
    most one of the other four differs from it, else NULL.
  */
  function FourOfAKindValue(hand: seq<Card>): (v: CardValue)
    requires |hand| == 5
    ensures v != NULL_VALUE ==> v == hand[0].value && Count(hand, v) >= 4
  {
    if Count(hand, hand[0].value) >= 4 then hand[0].value else NULL_VALUE
  }

  method HasFourOfAKind(hand: seq<Card>) returns (card: CardValue)
    requires |hand| == 5
    ensures card == FourOfAKindValue(hand)
  {
    var temp := hand[0].value;
    var diff := 0;
    assert hand[..1] == [] + [hand[0]];
    CountSnoc([], hand[0], temp);
    for i := 1 to |hand|
      invariant diff + Count(hand[..i], temp) == i
      invariant diff < 2
    {
      assert hand[..i + 1] == hand[..i] + [hand[i]];
      CountSnoc(hand[..i], hand[i], temp);
      if hand[i].value != temp {
        diff := diff + 1;
        if diff == 2 {
          CountPrefix(hand, i + 1, temp);
          card := NULL_VALUE;
          return;
        }
      }
    }
    assert hand[..|hand|] == hand;
    card := temp;
  }

  /** On a sorted hand the detector fires exactly when the first four cards share a rank. */
  lemma FourOfAKindOnSorted(hand: seq<Card>)
    requires |hand| == 5 && SortedByValue(hand)
    ensures FourOfAKindValue(hand) ==
      if hand[0].value == hand[3].value then hand[0].value else NULL_VALUE
  {
    CountFive(hand, hand[0].value);
  }

  /** A four of a kind whose odd card is the lowest is missed. */
  lemma FourOfAKindMissesLowKicker(hand: seq<Card>)
    requires |hand| == 5 && SortedByValue(hand)
    requires hand[0].value < hand[1].value && hand[1].value == hand[4].value
    ensures Count(hand, hand[1].value) == 4
    ensures FourOfAKindValue(hand) == NULL_VALUE
  {
    CountFive(hand, hand[1].value);
    FourOfAKindOnSorted(hand);
  }

  // ---------------------------------------------------------------------
  // Full house

  /** The rank of the first card whose rank is not v, or NULL when there is none. */
  function FirstOther(h: seq<Card>, v: CardValue): (t: CardValue)
    ensures t != NULL_VALUE ==> t != v
    ensures NoNullValues(h) && t == NULL_VALUE ==> Count(h, v) == |h|
  {
    if h == [] then NULL_VALUE
    else
      var prev := FirstOther(h[..|h| - 1], v);
      if prev != NULL_VALUE then prev
      else if h[|h| - 1].value != v then h[|h| - 1].value
      else NULL_VALUE
  }

  lemma FirstOtherSnoc(s: seq<Card>, c: Card, v: CardValue)
    ensures FirstOther(s + [c], v) ==
      if FirstOther(s, v) != NULL_VALUE then FirstOther(s, v)
      else if c.value != v then c.value
      else NULL_VALUE
  {
    assert (s + [c])[..|s|] == s;
  }

  /** On five cards, the first rank other than v is found by looking at the positions in order. */
  lemma FirstOtherFive(h: seq<Card>, v: CardValue)
    requires |h| == 5 && NoNullValues(h)
    ensures FirstOther(h, v) ==
      if h[0].value != v then h[0].value
      else if h[1].value != v then h[1].value
      else if h[2].value != v then h[2].value
      else if h[3].value != v then h[3].value
      else if h[4].value != v then h[4].value
      else NULL_VALUE
  {
    assert h[..1] == [] + [h[0]];
    FirstOtherSnoc([], h[0], v);
    assert h[..2] == h[..1] + [h[1]];
    FirstOtherSnoc(h[..1], h[1], v);
    assert h[..3] == h[..2] + [h[2]];
    FirstOtherSnoc(h[..2], h[2], v);
    assert h[..4] == h[..3] + [h[3]];
    FirstOtherSnoc(h[..3], h[3], v);
    assert h == h[..4] + [h[4]];
    FirstOtherSnoc(h[..4], h[4], v);
  }

  /** When only the ranks v and w occur, the first rank other than v is w, if w occurs at all. */
  lemma {:induction false} FirstOtherOfTwoValues(h: seq<Card>, v: CardValue, w: CardValue)
    requires v != w && w != NULL_VALUE
    requires forall i :: 0 <= i < |h| ==> h[i].value == v || h[i].value == w
    ensures FirstOther(h, v) == if Count(h, w) > 0 then w else NULL_VALUE
    decreases |h|
  {
    if h != [] {
      var p := h[..|h| - 1];
      assert forall i :: 0 <= i < |p| ==> p[i] == h[i];
      FirstOtherOfTwoValues(p, v, w);
    }
  }

  /**
    What the full-house loop computes: with t1 the first card's rank and t2
    the first other rank, the rank that occurs three times when t1 and t2
    occur three and two times (in either order), else NULL.
  */
  function FullHouseValue(hand: seq<Card>): (three: CardValue)
    requires |hand| == 5
    ensures three != NULL_VALUE ==> Count(hand, three) == 3
  {
    var t1 := hand[0].value;
    var t2 := FirstOther(hand, t1);
    var c1 := Count(hand, t1);
    var c2 := if t2 == NULL_VALUE then 0 else Count(hand, t2);
    if c1 == 3 && c2 == 2 then t1
    else if c1 == 2 && c2 == 3 then t2
    else NULL_VALUE
  }

  method HasFullHouse(hand: seq<Card>) returns (three: CardValue)
    requires |hand| == 5 && NoNullValues(hand)
    ensures three == FullHouseValue(hand)
  {
    var c1 := 1;
    var c2 := 0;
    var t1 := hand[0].value;
    var t2 := NULL_VALUE;
    assert hand[..1] == [] + [hand[0]];
    CountSnoc([], hand[0], t1);
    FirstOtherSnoc([], hand[0], t1);
    for i := 1 to |hand|
      invariant c1 == Count(hand[..i], t1)
      invariant t2 == FirstOther(hand[..i], t1)
      invariant c2 == if t2 == NULL_VALUE then 0 else Count(hand[..i], t2)
    {
      assert hand[..i + 1] == hand[..i] + [hand[i]];
      FullHouseScanStep(hand[..i], hand[i], t1);
      if hand[i].value == t1 {
        c1 := c1 + 1;
      } else if hand[i].value == t2 {
        c2 := c2 + 1;
      } else if t2 == NULL_VALUE {
        t2 := hand[i].value;
        c2 := c2 + 1;
      }
    }
    assert hand[..|hand|] == hand;
    if c1 == 3 && c2 == 2 {
      three := t1;
    } else if c1 == 2 && c2 == 3 {
      three := t2;
    } else {
      three := NULL_VALUE;
    }
  }

  /** One card more for HasFullHouse's scan: how the two counts and the first other rank change. */
  lemma FullHouseScanStep(seen: seq<Card>, c: Card, t1: CardValue)
    requires NoNullValues(seen) && c.value != NULL_VALUE
    ensures Count(seen + [c], t1) == Count(seen, t1) + Matches(c, t1)
    ensures var t2 := FirstOther(seen, t1);
      FirstOther(seen + [c], t1) == (if t2 == NULL_VALUE && c.value != t1 then c.value else t2) &&
      (t2 != NULL_VALUE ==> Count(seen + [c], t2) == Count(seen, t2) + Matches(c, t2)) &&
      (t2 == NULL_VALUE && c.value != t1 ==> Count(seen + [c], c.value) == 1)
  {
    var t2 := FirstOther(seen, t1);
    CountSnoc(seen, c, t1);
    FirstOtherSnoc(seen, c, t1);
    if t2 != NULL_VALUE {
      CountSnoc(seen, c, t2);
    } else if c.value != t1 {
      CountSnoc(seen, c, c.value);
      CountTwoValues(seen, t1, c.value);
    }
  }

  /** The detector fires exactly when two distinct ranks occur three and two times, and reports the one that occurs three times. */
  lemma FullHouseMeaning(hand: seq<Card>)
    requires |hand| == 5 && NoNullValues(hand)
    ensures FullHouseValue(hand) != NULL_VALUE <==>
      exists a, b :: a != b && Count(hand, a) == 3 && Count(hand, b) == 2
    ensures FullHouseValue(hand) != NULL_VALUE ==> Count(hand, FullHouseValue(hand)) == 3
  {
    var t1 := hand[0].value;
    var t2 := FirstOther(hand, t1);
    if FullHouseValue(hand) != NULL_VALUE {
      if Count(hand, t1) == 3 {
        assert t1 != t2 && Count(hand, t1) == 3 && Count(hand, t2) == 2;
      } else {
        assert t2 != t1 && Count(hand, t2) == 3 && Count(hand, t1) == 2;
      }
    }
    if exists a, b :: a != b && Count(hand, a) == 3 && Count(hand, b) == 2 {
      var a, b :| a != b && Count(hand, a) == 3 && Count(hand, b) == 2;
      CountTwoValues(hand, a, b);
      var w := if t1 == a then b else a;
      CountFive(hand, w);
      FirstOtherOfTwoValues(hand, t1, w);
    }
  }

  /** On a sorted hand the detector fires exactly on the shapes XXXYY and XXYYY. */
  lemma FullHouseOnSorted(hand: seq<Card>)
    requires IsHand(hand)
    ensures FullHouseValue(hand) ==
      if hand[0].value == hand[2].value && hand[3].value == hand[4].value && hand[2].value != hand[3].value
      then hand[0].value
      else if hand[0].value == hand[1].value && hand[2].value == hand[4].value && hand[1].value != hand[2].value
      then hand[4].value
      else NULL_VALUE
  {
    FullHouseMeaning(hand);
    var r := FullHouseValue(hand);
    CountFive(hand, r);
    if hand[0].value == hand[2].value && hand[3].value == hand[4].value && hand[2].value != hand[3].value {
      CountFive(hand, hand[0].value);
      CountFive(hand, hand[3].value);
    } else if hand[0].value == hand[1].value && hand[2].value == hand[4].value && hand[1].value != hand[2].value {
      CountFive(hand, hand[0].value);
      CountFive(hand, hand[4].value);
    } else if r != NULL_VALUE {
      var a, b :| a != b && Count(hand, a) == 3 && Count(hand, b) == 2;
      CountFive(hand, a);
      CountFive(hand, b);
    }
  }

  // ---------------------------------------------------------------------
  // Flush

  function HasFlush(hand: seq<Card>): (flush: bool)
    requires |hand| == 5
    ensures flush <==> forall i, j :: 0 <= i < j < 5 ==> hand[i].suit == hand[j].suit
  {
    CheckForAllSameSuit(hand)
  }

  // ---------------------------------------------------------------------
  // Three of a kind

  /** The rank of the first three consecutive cards of one rank, if any. */
  function HasThreeOfAKind(hand: seq<Card>): (trip: Option<CardValue>)
    requires |hand| == 5
    ensures trip.Some? <==> exists k :: 0 <= k < 3 && hand[k].value == hand[k + 1].value == hand[k + 2].value
  {
    if hand[0].value == hand[1].value && hand[0].value == hand[2].value then Some(hand[0].value)
    else if hand[1].value == hand[2].value && hand[1].value == hand[3].value then Some(hand[1].value)
    else if hand[2].value == hand[3].value && hand[2].value == hand[4].value then Some(hand[2].value)
    else None
  }

  /** On a sorted hand the detector reports v exactly when v occurs at least three times. */
  lemma ThreeOfAKindMeaning(hand: seq<Card>, v: CardValue)
    requires |hand| == 5 && SortedByValue(hand)
    ensures HasThreeOfAKind(hand) == Some(v) <==> Count(hand, v) >= 3
  {
    CountFive(hand, v);
  }

  // ---------------------------------------------------------------------
  // Two pairs

  /** Cards k and k + 1 exist and have the same rank. */
  predicate PairAt(hand: seq<Card>, k: int) {
    0 <= k && k + 1 < |hand| && hand[k].value == hand[k + 1].value
  }

  /** No two adjacent cards before position k have the same rank. */
  predicate NoPairBefore(hand: seq<Card>, k: int) {
    forall m :: 0 <= m < k ==> !PairAt(hand, m)
  }

  /**
    The two pairs the scan finds, lower first: the scan takes the leftmost
    pair of adjacent equal ranks, skips both its cards, and takes the next.
  */
  function TwoPairValues(hand: seq<Card>): (r: Option<(CardValue, CardValue)>)
    requires |hand| == 5
    ensures r.Some? <==> exists j, k :: j + 2 <= k && PairAt(hand, j) && PairAt(hand, k)
    ensures forall j, k :: j + 2 <= k && PairAt(hand, j) && PairAt(hand, k) ==>
      r == Some((hand[j].value, hand[k].value))
  {
    if PairAt(hand, 0) && PairAt(hand, 2) then Some((hand[0].value, hand[2].value))
    else if PairAt(hand, 0) && PairAt(hand, 3) then Some((hand[0].value, hand[3].value))
    else if PairAt(hand, 1) && PairAt(hand, 3) then Some((hand[1].value, hand[3].value))
    else None
  }

  method HasTwoPairs(hand: seq<Card>) returns (found: bool, top1: CardValue, top2: CardValue)
    requires |hand| == 5 && NoNullValues(hand)
    ensures found <==> TwoPairValues(hand).Some?
    ensures found ==> (top1, top2) == TwoPairValues(hand).value
    ensures !found ==> top1 == NULL_VALUE && top2 == NULL_VALUE
  {
    var i := 0;
    var pair1, pair2 := NULL_VALUE, NULL_VALUE;
    ghost var j, k := 0, 0;
    while i < |hand|
      invariant 0 <= i <= |hand|
      invariant pair1 == NULL_VALUE ==>
        pair2 == NULL_VALUE && forall m :: 0 <= m < i && m < 4 ==> hand[m].value != hand[m + 1].value
      invariant pair1 != NULL_VALUE ==>
        0 <= j && j + 2 <= i && hand[j].value == hand[j + 1].value == pair1 &&
        forall m :: 0 <= m < j ==> hand[m].value != hand[m + 1].value
      invariant pair1 != NULL_VALUE && pair2 == NULL_VALUE ==>
        forall m :: j + 2 <= m < i && m < 4 ==> hand[m].value != hand[m + 1].value
      invariant pair2 != NULL_VALUE ==>
        pair1 != NULL_VALUE && j + 2 <= k && k + 2 <= i && hand[k].value == hand[k + 1].value == pair2
    {
      if i < |hand| - 1 && hand[i].value == hand[i + 1].value {
        if pair1 == NULL_VALUE {
          pair1 := hand[i].value;
          j := i;
        } else {
          pair2 := hand[i].value;
          k := i;
        }
        i := i + 2;
      } else {
        i := i + 1;
      }
    }
    if pair1 != NULL_VALUE && pair2 != NULL_VALUE {
      top1, top2 := pair1, pair2;
      found := true;
    } else {
      top1, top2 := NULL_VALUE, NULL_VALUE;
      found := false;
    }
  }

  // ---------------------------------------------------------------------
  // One pair

  /** The rank of the first pair of adjacent equal ranks, scanning from the lowest card, or NULL. */
  function OnePairValue(hand: seq<Card>): (pair: CardValue)
    requires |hand| == 5
    ensures NoPairBefore(hand, 4) ==> pair == NULL_VALUE
    ensures forall k :: PairAt(hand, k) && NoPairBefore(hand, k) ==> pair == hand[k].value
  {
    if PairAt(hand, 0) then hand[0].value
    else if PairAt(hand, 1) then hand[1].value
    else if PairAt(hand, 2) then hand[2].value
    else if PairAt(hand, 3) then hand[3].value
    else NULL_VALUE
  }

  method HasOnePair(hand: seq<Card>) returns (pair: CardValue)
    requires |hand| == 5
    ensures pair == OnePairValue(hand)
  {
    var i := 0;
    var pairTemp := NULL_VALUE;
    while i < |hand|
      invariant 0 <= i <= |hand|
      invariant pairTemp == NULL_VALUE
      invariant forall m :: 0 <= m < i && m < |hand| - 1 ==> hand[m].value != hand[m + 1].value
    {
      if i < |hand| - 1 && hand[i].value == hand[i + 1].value {
        pairTemp := hand[i].value;
        break;
      } else {
        i := i + 1;
      }
    }
    if pairTemp != NULL_VALUE {
      pair := pairTemp;
    } else {
      pair := NULL_VALUE;
    }
  }

  // ---------------------------------------------------------------------
  // What the cascade guarantees before the two-pair and one-pair tie-breaks

  /** Some card of the hand belongs to neither of the ranks a and b. */
  predicate HasKicker(hand: seq<Card>, a: CardValue, b: CardValue) {
    exists i :: 0 <= i < |hand| && hand[i].value != a && hand[i].value != b
  }

  /** The rank of the LAST card that belongs to neither a nor b. */
  function LastKicker(hand: seq<Card>, a: CardValue, b: CardValue): (k: CardValue)
    requires HasKicker(hand, a, b)
    ensures k != a && k != b
    ensures exists i :: 0 <= i < |hand| && hand[i].value == k
    decreases |hand|
  {
    var last := hand[|hand| - 1];
    if last.value != a && last.value != b then last.value
    else
      KickerSnoc(hand[..|hand| - 1], last, a, b);
      assert hand == hand[..|hand| - 1] + [last];
      LastKicker(hand[..|hand| - 1], a, b)
  }

  lemma KickerSnoc(s: seq<Card>, c: Card, a: CardValue, b: CardValue)
    ensures HasKicker(s + [c], a, b) <==> HasKicker(s, a, b) || (c.value != a && c.value != b)
  {
    var t := s + [c];
    if HasKicker(s, a, b) {
      var i :| 0 <= i < |s| && s[i].value != a && s[i].value != b;
      assert t[i] == s[i];
    }
    if HasKicker(t, a, b) && !(c.value != a && c.value != b) {
      var i :| 0 <= i < |t| && t[i].value != a && t[i].value != b;
      assert i < |s| && t[i] == s[i];
    }
    if c.value != a && c.value != b {
      assert t[|s|] == c;
    }
  }

  /** Every card after position i belongs to one of the ranks a and b. */
  predicate OnlyPairsAfter(hand: seq<Card>, i: int, a: CardValue, b: CardValue) {
    forall j :: 0 <= j < |hand| && i < j ==> hand[j].value == a || hand[j].value == b
  }

  /** The kicker is the rank of a card of the hand after which only cards of the two pairs follow. */
  lemma {:induction false} LastKickerIsLast(hand: seq<Card>, a: CardValue, b: CardValue)
    requires HasKicker(hand, a, b)
    ensures exists i :: 0 <= i < |hand| && hand[i].value == LastKicker(hand, a, b) && OnlyPairsAfter(hand, i, a, b)
    decreases |hand|
  {
    var n := |hand| - 1;
    var last := hand[n];
    if last.value != a && last.value != b {
      assert hand[n].value == LastKicker(hand, a, b) && OnlyPairsAfter(hand, n, a, b);
    } else {
      var p := hand[..n];
      assert hand == p + [last];
      LastKickerSnoc(p, last, a, b);
      LastKickerIsLast(p, a, b);
      var i :| 0 <= i < |p| && p[i].value == LastKicker(p, a, b) && OnlyPairsAfter(p, i, a, b);
      assert hand[i] == p[i];
      assert OnlyPairsAfter(hand, i, a, b) by {
        forall j | i < j < |hand|
          ensures hand[j].value == a || hand[j].value == b
        {
          if j < n {
            assert hand[j] == p[j];
          }
        }
      }
    }
  }

  lemma LastKickerSnoc(s: seq<Card>, c: Card, a: CardValue, b: CardValue)
    requires HasKicker(s + [c], a, b)
    ensures HasKicker(s, a, b) || (c.value != a && c.value != b)
    ensures LastKicker(s + [c], a, b) ==
      if c.value != a && c.value != b then c.value else LastKicker(s, a, b)
  {
    KickerSnoc(s, c, a, b);
    assert (s + [c])[..|s|] == s;
  }

  /** Two hands with the same ranks position by position have the same kicker. */
  lemma {:induction false} LastKickerSameValues(h: seq<Card>, g: seq<Card>, a: CardValue, b: CardValue)
    requires SameValues(h, g) && HasKicker(h, a, b)
    ensures HasKicker(g, a, b) && LastKicker(h, a, b) == LastKicker(g, a, b)
    decreases |h|
  {
    var i :| 0 <= i < |h| && h[i].value != a && h[i].value != b;
    assert g[i].value == h[i].value;
    var n := |h| - 1;
    if h[n].value == a || h[n].value == b {
      var ph, pg := h[..n], g[..n];
      assert h == ph + [h[n]] && g == pg + [g[n]];
      LastKickerSnoc(ph, h[n], a, b);
      LastKickerSnoc(pg, g[n], a, b);
      LastKickerSameValues(ph, pg, a, b);
    }
  }

  /**
    A hand that reaches the two-pair comparison (no four of a kind and no full
    house detected) always has a card outside its two pairs, so the kicker
    the tie-break looks for exists.
  */
  lemma TwoPairsHaveKicker(hand: seq<Card>)
    requires IsHand(hand)
    requires FourOfAKindValue(hand) == NULL_VALUE && FullHouseValue(hand) == NULL_VALUE
    requires TwoPairValues(hand).Some?
    ensures HasKicker(hand, TwoPairValues(hand).value.0, TwoPairValues(hand).value.1)
  {
    FourOfAKindOnSorted(hand);
    FullHouseOnSorted(hand);
    var lo, hi := TwoPairValues(hand).value.0, TwoPairValues(hand).value.1;
    if hand[0].value != lo && hand[0].value != hi {
    } else if hand[2].value != lo && hand[2].value != hi {
    } else {
      assert hand[4].value != lo && hand[4].value != hi;
    }
  }

  /**
    A hand that reaches the one-pair comparison (no three of a kind) holds
    its pair exactly twice, so three cards remain beside the pair.
  */
  lemma OnePairLeavesThreeCards(hand: seq<Card>)
    requires IsHand(hand)
    requires HasThreeOfAKind(hand) == None && OnePairValue(hand) != NULL_VALUE
    ensures Count(hand, OnePairValue(hand)) == 2
    ensures |Without(hand, OnePairValue(hand))| == 3
  {
    CountFive(hand, OnePairValue(hand));
  }
}
