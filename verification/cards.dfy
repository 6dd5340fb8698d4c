/**
  Cards of the Project Euler 54 poker judge: the rank and suit enumerations,
  the parsing of the two-character card tokens, the sorted five-card hand, and
  the counting and filtering helpers the detectors and tie-breaks are
  specified with.
*/
module Cards {

  /** The suit enumeration; `NullSuit` is what an unrecognised character maps to. */
  datatype CardSuit = NullSuit | Clubs | Diamonds | Hearts | Spades

  /**
    The rank enumeration, kept as its ordinals: NULL = 1, TWO = 2, ..., ACE = 14.
    Every comparison and the straight test work on these ordinals, so an Ace
    is always the highest rank.
  */
  type CardValue = v: int | 1 <= v <= 14 witness 1

  const NULL_VALUE: CardValue := 1
  const TWO: CardValue := 2
  const THREE: CardValue := 3
  const FOUR: CardValue := 4
  const FIVE: CardValue := 5
  const SIX: CardValue := 6
  const SEVEN: CardValue := 7
  const EIGHT: CardValue := 8
  const NINE: CardValue := 9
  const TEN: CardValue := 10
  const JACK: CardValue := 11
  const QUEEN: CardValue := 12
  const KING: CardValue := 13
  const ACE: CardValue := 14

  datatype Card = Card(suit: CardSuit, value: CardValue)

  /** The rank characters, in rank order: the character of rank v is at index v - TWO. */
  const VALUE_CHARS: string := "23456789TJQKA"

  /** The suit characters. */
  const SUIT_CHARS: string := "CDHS"

  /** The rank character of a real rank (the inverse of DetermineValue). */
  function ValueChar(v: CardValue): char
    requires v != NULL_VALUE
  {
    VALUE_CHARS[v - TWO]
  }

  /** The suit character of a real suit (the inverse of DetermineSuit). */
  function SuitChar(s: CardSuit): char
    requires s != NullSuit
  {
    match s
    case Clubs => 'C'
    case Diamonds => 'D'
    case Hearts => 'H'
    case Spades => 'S'
  }

  /** Maps a rank character to its rank; any other character gives NULL. */
  function DetermineValue(c: char): (v: CardValue)
    ensures v == NULL_VALUE <==> c !in VALUE_CHARS
    ensures v != NULL_VALUE ==> ValueChar(v) == c
  {
    match c
    case '2' => TWO
    case '3' => THREE
    case '4' => FOUR
    case '5' => FIVE
    case '6' => SIX
    case '7' => SEVEN
    case '8' => EIGHT
    case '9' => NINE
    case 'T' => TEN
    case 'J' => JACK
    case 'Q' => QUEEN
    case 'K' => KING
    case 'A' => ACE
    case _ => NULL_VALUE
  }

  /** Maps a suit character to its suit; any other character gives NullSuit. */
  function DetermineSuit(c: char): (s: CardSuit)
    ensures s == NullSuit <==> c !in SUIT_CHARS
    ensures s != NullSuit ==> SuitChar(s) == c
  {
    match c
    case 'C' => Clubs
    case 'D' => Diamonds
    case 'H' => Hearts
    case 'S' => Spades
    case _ => NullSuit
  }

  /** Every real rank is recovered from its character. */
  lemma ValueCharRoundTrip(v: CardValue)
    requires v != NULL_VALUE
    ensures DetermineValue(ValueChar(v)) == v
  {
    assert VALUE_CHARS == ['2', '3', '4', '5', '6', '7', '8', '9', 'T', 'J', 'Q', 'K', 'A'];
  }

  /** Every real suit is recovered from its character. */
  lemma SuitCharRoundTrip(s: CardSuit)
    requires s != NullSuit
    ensures DetermineSuit(SuitChar(s)) == s
  {
  }

  /** One card token: the rank character first, the suit character second. */
  function ParseCard(token: string): (c: Card)
    requires |token| >= 2
    ensures c.value != NULL_VALUE <==> token[0] in VALUE_CHARS
    ensures c.suit != NullSuit <==> token[1] in SUIT_CHARS
  {
    Card(DetermineSuit(token[1]), DetermineValue(token[0]))
  }

  /** A card written as its two characters parses back to itself. */
  lemma CardTextRoundTrip(c: Card)
    requires c.value != NULL_VALUE && c.suit != NullSuit
    ensures ParseCard([ValueChar(c.value), SuitChar(c.suit)]) == c
  {
    ValueCharRoundTrip(c.value);
    SuitCharRoundTrip(c.suit);
  }

  predicate WellFormedTokens(tokens: seq<string>) {
    forall i :: 0 <= i < |tokens| ==> |tokens[i]| >= 2
  }

  /** The cards of a sequence of tokens, in token order. */
  function ParseCards(tokens: seq<string>): (cards: seq<Card>)
    requires WellFormedTokens(tokens)
    ensures |cards| == |tokens|
    ensures forall i :: 0 <= i < |tokens| ==> cards[i] == ParseCard(tokens[i])
  {
    seq(|tokens|, i requires 0 <= i < |tokens| => ParseCard(tokens[i]))
  }

  // ---------------------------------------------------------------------
  // Hands

  predicate SortedByValue(h: seq<Card>) {
    forall i, j :: 0 <= i < j < |h| ==> h[i].value <= h[j].value
  }

  predicate NoNullValues(h: seq<Card>) {
    forall i :: 0 <= i < |h| ==> h[i].value != NULL_VALUE
  }

  /** A hand as every detector receives it: five cards, sorted ascending by rank, no NULL rank. */
  predicate IsHand(h: seq<Card>) {
    |h| == 5 && SortedByValue(h) && NoNullValues(h)
  }

  /** No card occurs twice (a deck has one card of each rank and suit). */
  predicate DistinctCards(h: seq<Card>) {
    forall i, j :: 0 <= i < j < |h| ==> h[i] != h[j]
  }

  /** The rank sequences of two hands agree position by position. */
  predicate SameValues(a: seq<Card>, b: seq<Card>) {
    |a| == |b| && forall i :: 0 <= i < |a| ==> a[i].value == b[i].value
  }

  // ---------------------------------------------------------------------
  // Sorting by rank (the List.Sort calls of the source)

  function InsertByValue(c: Card, s: seq<Card>): (r: seq<Card>)
    requires SortedByValue(s)
    ensures |r| == |s| + 1
    ensures SortedByValue(r)
    ensures multiset(r) == multiset(s) + multiset{c}
    ensures r[0] == c || (|s| > 0 && r[0] == s[0])
  {
    if s == [] || c.value <= s[0].value then
      ConsSorted(c, s);
      [c] + s
    else
      var rest := InsertByValue(c, s[1..]);
      InsertBehind(c, s, rest);
      [s[0]] + rest
  }

  /** The recursive case of InsertByValue: the first card stays in front of the insertion into the rest. */
  lemma InsertBehind(c: Card, s: seq<Card>, rest: seq<Card>)
    requires SortedByValue(s) && s != [] && c.value > s[0].value
    requires SortedByValue(rest) && multiset(rest) == multiset(s[1..]) + multiset{c}
    requires rest != [] && (rest[0] == c || (|s| > 1 && rest[0] == s[1]))
    ensures SortedByValue([s[0]] + rest)
    ensures multiset([s[0]] + rest) == multiset(s) + multiset{c}
  {
    ConsSorted(s[0], rest);
    assert s == [s[0]] + s[1..];
  }

  /** Putting a card no higher than the first in front keeps a sequence sorted. */
  lemma ConsSorted(c: Card, s: seq<Card>)
    requires SortedByValue(s)
    requires s != [] ==> c.value <= s[0].value
    ensures SortedByValue([c] + s)
  {
    forall i, j | 0 <= i < j < |[c] + s|
      ensures ([c] + s)[i].value <= ([c] + s)[j].value
    {
      if i > 0 {
        assert ([c] + s)[i] == s[i - 1];
      } else if j > 1 {
        assert s[0].value <= s[j - 1].value;
      }
    }
  }

  /** A rank-sorted permutation of the cards. */
  function SortByValue(s: seq<Card>): (r: seq<Card>)
    ensures |r| == |s|
    ensures SortedByValue(r)
    ensures multiset(r) == multiset(s)
  {
    if s == [] then []
    else
      assert s == [s[0]] + s[1..];
      InsertByValue(s[0], SortByValue(s[1..]))
  }

  /**
    Sorting a sequence that is already in rank order leaves its ranks where they
    are; which of several equal-rank cards comes first is not stated.
  */
  lemma {:induction false} SortSortedSameRanks(s: seq<Card>)
    requires SortedByValue(s)
    ensures SameValues(SortByValue(s), s)
  {
    if s != [] {
      var t := s[1..];
      assert SortedByValue(t);
      var r := SortByValue(t);
      assert SortByValue(s) == InsertByValue(s[0], r);
      SortSortedSameRanks(t);
      InsertSameValues(s[0], r, s[0], t);
      InsertFirstInFront(s);
    }
  }

  /** The first card of a rank-sorted sequence goes back in front of the rest. */
  lemma InsertFirstInFront(s: seq<Card>)
    requires s != [] && SortedByValue(s)
    ensures SortedByValue(s[1..]) && InsertByValue(s[0], s[1..]) == s
  {
    var t := s[1..];
    assert t == [] || s[0].value <= t[0].value;
    assert [s[0]] + t == s;
  }

  // ---------------------------------------------------------------------
  // Counting and filtering by rank, defined from the last card backwards so
  // that a loop over a growing prefix unfolds them one card at a time.

  function Matches(c: Card, v: CardValue): nat {
    if c.value == v then 1 else 0
  }

  /** The number of cards of rank v. */
  function Count(h: seq<Card>, v: CardValue): (n: nat)
    ensures n <= |h|
  {
    if h == [] then 0 else Count(h[..|h| - 1], v) + Matches(h[|h| - 1], v)
  }

  lemma CountSnoc(s: seq<Card>, c: Card, v: CardValue)
    ensures Count(s + [c], v) == Count(s, v) + Matches(c, v)
  {
    assert (s + [c])[..|s|] == s;
  }

  /** On five cards, the count is the sum over the five positions. */
  lemma CountFive(h: seq<Card>, v: CardValue)
    requires |h| == 5
    ensures Count(h, v) == Matches(h[0], v) + Matches(h[1], v) + Matches(h[2], v)
                           + Matches(h[3], v) + Matches(h[4], v)
  {
    assert h[..1] == [] + [h[0]];
    CountSnoc([], h[0], v);
    assert h[..2] == h[..1] + [h[1]];
    CountSnoc(h[..1], h[1], v);
    assert h[..3] == h[..2] + [h[2]];
    CountSnoc(h[..2], h[2], v);
    assert h[..4] == h[..3] + [h[3]];
    CountSnoc(h[..3], h[3], v);
    assert h == h[..4] + [h[4]];
    CountSnoc(h[..4], h[4], v);
  }

  /** Counting over a prefix misses at most the cards after it. */
  lemma {:induction false} CountPrefix(h: seq<Card>, k: nat, v: CardValue)
    requires k <= |h|
    ensures Count(h[..k], v) <= Count(h, v) <= Count(h[..k], v) + (|h| - k)
    decreases |h|
  {
    if k < |h| {
      var p := h[..|h| - 1];
      assert p[..k] == h[..k];
      CountPrefix(p, k, v);
    } else {
      assert h[..k] == h;
    }
  }

  /** Two distinct ranks share the cards: together they count at most all of them, and all of them only when no other rank occurs. */
  lemma {:induction false} CountTwoValues(h: seq<Card>, a: CardValue, b: CardValue)
    requires a != b
    ensures Count(h, a) + Count(h, b) <= |h|
    ensures Count(h, a) + Count(h, b) == |h| ==> forall i :: 0 <= i < |h| ==> h[i].value == a || h[i].value == b
    decreases |h|
  {
    if h != [] {
      var p := h[..|h| - 1];
      CountTwoValues(p, a, b);
      if Count(h, a) + Count(h, b) == |h| {
        forall i | 0 <= i < |h| ensures h[i].value == a || h[i].value == b {
          if i < |h| - 1 {
            assert h[i] == p[i];
          }
        }
      }
    }
  }

  /** The cards of h whose rank is not v, in their order. */
  function Without(h: seq<Card>, v: CardValue): (r: seq<Card>)
    ensures |r| == |h| - Count(h, v)
    ensures forall i :: 0 <= i < |r| ==> r[i].value != v
  {
    if h == [] then []
    else Without(h[..|h| - 1], v) + Kept(h[|h| - 1], v)
  }

  /** The part of one card the filter keeps: the card itself unless its rank is v. */
  function Kept(c: Card, v: CardValue): seq<Card> {
    if c.value != v then [c] else []
  }

  lemma WithoutSnoc(s: seq<Card>, c: Card, v: CardValue)
    ensures Without(s + [c], v) == Without(s, v) + Kept(c, v)
  {
    assert (s + [c])[..|s|] == s;
  }

  /** The filter keeps exactly the cards of h whose rank is not v, each no more often than h holds it. */
  lemma {:induction false} WithoutMembers(h: seq<Card>, v: CardValue)
    ensures forall c :: c in Without(h, v) <==> c in h && c.value != v
    ensures multiset(Without(h, v)) <= multiset(h)
  {
    if h != [] {
      WithoutMembers(h[..|h| - 1], v);
      assert h == h[..|h| - 1] + [h[|h| - 1]];
    }
  }

  /** Filtering out a rank the cards do not hold changes nothing. */
  lemma {:induction false} WithoutAbsent(s: seq<Card>, v: CardValue)
    requires forall i :: 0 <= i < |s| ==> s[i].value != v
    ensures Without(s, v) == s
  {
    if s != [] {
      WithoutAbsent(s[..|s| - 1], v);
    }
  }

  /** Filtering two hands with the same ranks position by position leaves the same ranks. */
  lemma {:induction false} WithoutSameValues(a: seq<Card>, b: seq<Card>, v: CardValue)
    requires SameValues(a, b)
    ensures SameValues(Without(a, v), Without(b, v))
    decreases |a|
  {
    if a != [] {
      var pa, pb := a[..|a| - 1], b[..|b| - 1];
      WithoutSameValues(pa, pb, v);
      var ka, kb := Kept(a[|a| - 1], v), Kept(b[|b| - 1], v);
      assert SameValues(ka, kb);
      SameValuesAppend(Without(pa, v), Without(pb, v), ka, kb);
    }
  }

  /** Concatenations of sequences with the same ranks have the same ranks. */
  lemma SameValuesAppend(x: seq<Card>, y: seq<Card>, x2: seq<Card>, y2: seq<Card>)
    requires SameValues(x, y) && SameValues(x2, y2)
    ensures SameValues(x + x2, y + y2)
  {
    forall i | 0 <= i < |x + x2|
      ensures (x + x2)[i].value == (y + y2)[i].value
    {
      if i >= |x| {
        assert (x + x2)[i] == x2[i - |x|] && (y + y2)[i] == y2[i - |x|];
      }
    }
  }

  lemma {:induction false} InsertSameValues(c: Card, s: seq<Card>, d: Card, t: seq<Card>)
    requires SortedByValue(s) && SortedByValue(t)
    requires c.value == d.value && SameValues(s, t)
    ensures SameValues(InsertByValue(c, s), InsertByValue(d, t))
    decreases |s|
  {
    if s == [] || c.value <= s[0].value {
      SameValuesAppend([c], [d], s, t);
    } else {
      InsertSameValues(c, s[1..], d, t[1..]);
      SameValuesAppend([s[0]], [t[0]], InsertByValue(c, s[1..]), InsertByValue(d, t[1..]));
    }
  }

  /** Sorting by rank places the ranks alike in two sequences with the same ranks. */
  lemma {:induction false} SortSameValues(s: seq<Card>, t: seq<Card>)
    requires SameValues(s, t)
    ensures SameValues(SortByValue(s), SortByValue(t))
    decreases |s|
  {
    if s != [] {
      SortSameValues(s[1..], t[1..]);
      InsertSameValues(s[0], SortByValue(s[1..]), t[0], SortByValue(t[1..]));
    }
  }

  /** Rearranging cards neither adds nor removes a NULL rank. */
  lemma NoNullValuesPermutation(a: seq<Card>, b: seq<Card>)
    requires multiset(a) == multiset(b)
    ensures NoNullValues(a) <==> NoNullValues(b)
  {
    forall i | 0 <= i < |a| ensures a[i] in b {
      assert a[i] in multiset(a);
    }
    forall i | 0 <= i < |b| ensures b[i] in a {
      assert b[i] in multiset(b);
    }
  }
}
