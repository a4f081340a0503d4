/** Cards and hand arithmetic of the Blackjack table (Blackjack/script.js, "Deck" and "Hand math"). */
module Cards {

  datatype Suit = Spades | Hearts | Diamonds | Clubs

  datatype Rank = Ace | Two | Three | Four | Five | Six | Seven | Eight | Nine | Ten | Jack | Queen | King

  datatype Card = Card(suit: Suit, value: Rank)

  /** A hand busts above this total; a natural is a two-card hand worth exactly this. */
  const BUST_LIMIT := 21

  /** The number printed on a pip card (what `parseInt` reads from '2' .. '10'). */
  function PipValue(r: Rank): nat
    requires r != Ace && r != Jack && r != Queen && r != King
  {
    match r
    case Two => 2
    case Three => 3
    case Four => 4
    case Five => 5
    case Six => 6
    case Seven => 7
    case Eight => 8
    case Nine => 9
    case Ten => 10
  }

  predicate IsFace(r: Rank) {
    r == Jack || r == Queen || r == King
  }

  /** A card worth ten: the 10 and the three face cards. */
  predicate IsTenCard(r: Rank) {
    r == Ten || IsFace(r)
  }

  /** Points of a card with an ace counted as 1. */
  function HardPoints(r: Rank): nat {
    if r == Ace then 1 else if IsFace(r) then 10 else PipValue(r)
  }

  /** The hard total: every ace counted as 1. */
  function HardTotal(cards: seq<Card>): nat {
    if cards == [] then 0 else HardTotal(cards[..|cards| - 1]) + HardPoints(cards[|cards| - 1].value)
  }

  function AceCount(cards: seq<Card>): nat {
    if cards == [] then 0
    else AceCount(cards[..|cards| - 1]) + (if cards[|cards| - 1].value == Ace then 1 else 0)
  }

  /** The total of the hand when exactly `k` of its aces are counted as 11. */
  function TotalWithSoftAces(cards: seq<Card>, k: nat): int {
    HardTotal(cards) + 10 * k
  }

  /** How many aces `HandValue` counts as 11: as many as fit under 21, none once the hard total busts. */
  function SoftAces(cards: seq<Card>): nat {
    var hard := HardTotal(cards);
    var room := (BUST_LIMIT - hard) / 10;
    if hard > BUST_LIMIT then 0 else if AceCount(cards) <= room then AceCount(cards) else room
  }

  /**
   * The value of a hand: as many aces as possible count 11 without passing 21,
   * the others count 1. This closed form is the specification of `HandVal`.
   */
  function HandValue(cards: seq<Card>): (v: int)
    ensures HardTotal(cards) <= v <= HardTotal(cards) + 10 * AceCount(cards)
    ensures (v - HardTotal(cards)) % 10 == 0
    ensures v > BUST_LIMIT ==> v == HardTotal(cards)
  {
    HardTotal(cards) + 10 * SoftAces(cards)
  }

  /**
   * The rules of the game, stated without the closed form: the value is one of
   * the totals the aces allow, it is the largest of them that does not bust, and
   * if it busts then every other choice busts at least as badly.
   */
  lemma HandValueIsBestTotal(cards: seq<Card>)
    ensures exists k :: 0 <= k <= AceCount(cards) && HandValue(cards) == TotalWithSoftAces(cards, k)
    ensures forall k :: 0 <= k <= AceCount(cards) && TotalWithSoftAces(cards, k) <= BUST_LIMIT ==>
              TotalWithSoftAces(cards, k) <= HandValue(cards)
    ensures HandValue(cards) > BUST_LIMIT ==>
              forall k :: 0 <= k <= AceCount(cards) ==> HandValue(cards) <= TotalWithSoftAces(cards, k)
  {
    assert HandValue(cards) == TotalWithSoftAces(cards, SoftAces(cards));
  }

  /** Any total satisfying the rules of `HandValueIsBestTotal` is the hand's value: the rules determine it. */
  lemma HandValueUnique(cards: seq<Card>, k: nat)
    requires k <= AceCount(cards)
    requires forall j :: 0 <= j <= AceCount(cards) && TotalWithSoftAces(cards, j) <= BUST_LIMIT ==>
               TotalWithSoftAces(cards, j) <= TotalWithSoftAces(cards, k)
    requires TotalWithSoftAces(cards, k) > BUST_LIMIT ==> k == 0
    ensures TotalWithSoftAces(cards, k) == HandValue(cards)
  {
    HandValueIsBestTotal(cards);
    var v := HandValue(cards);
    var j :| 0 <= j <= AceCount(cards) && v == TotalWithSoftAces(cards, j);
    if TotalWithSoftAces(cards, k) > BUST_LIMIT {
      assert TotalWithSoftAces(cards, 0) > BUST_LIMIT;
      assert v <= TotalWithSoftAces(cards, 0);
    } else {
      assert v <= BUST_LIMIT;
      assert TotalWithSoftAces(cards, j) <= TotalWithSoftAces(cards, k);
    }
  }

  /**
   * `handVal`: a first loop sums the cards with every ace as 11 and counts the
   * aces, a second loop demotes one ace at a time from 11 to 1 while the total
   * exceeds 21.
   */
  method HandVal(cards: seq<Card>) returns (total: int)
    ensures total == HandValue(cards)
  {
    total := 0;
    var aces := 0;
    for i := 0 to |cards|
      invariant total == HardTotal(cards[..i]) + 10 * AceCount(cards[..i])
      invariant aces == AceCount(cards[..i])
    {
      var c := cards[i];
      assert cards[..i + 1][..i] == cards[..i];
      if c.value == Ace {
        total := total + 11;
        aces := aces + 1;
      } else if IsFace(c.value) {
        total := total + 10;
      } else {
        total := total + PipValue(c.value);
      }
    }
    assert cards[..|cards|] == cards;
    ghost var hard := HardTotal(cards);
    ghost var all := aces;
    while total > BUST_LIMIT && aces > 0
      invariant 0 <= aces <= all
      invariant total == hard + 10 * aces
      invariant aces < all ==> hard + 10 * (aces + 1) > BUST_LIMIT
    {
      total := total - 10;
      aces := aces - 1;
    }
    HandValueUnique(cards, aces);
  }

  /** `isBJ`: a natural is a two-card hand worth 21. */
  predicate IsBlackjack(cards: seq<Card>) {
    |cards| == 2 && HandValue(cards) == BUST_LIMIT
  }

  /** A natural is exactly an ace together with a ten-valued card, in either order. */
  lemma NaturalIsAceAndTen(cards: seq<Card>)
    ensures IsBlackjack(cards) <==>
              |cards| == 2 &&
              ((cards[0].value == Ace && IsTenCard(cards[1].value)) ||
               (IsTenCard(cards[0].value) && cards[1].value == Ace))
  {
    if |cards| == 2 {
      assert cards[..1][..0] == [];
      assert cards[..1] == [cards[0]];
      assert HardTotal(cards[..1]) == HardPoints(cards[0].value);
      assert AceCount(cards[..1]) == if cards[0].value == Ace then 1 else 0;
      assert HardTotal(cards) == HardPoints(cards[0].value) + HardPoints(cards[1].value);
      assert AceCount(cards) == (if cards[0].value == Ace then 1 else 0) + (if cards[1].value == Ace then 1 else 0);
    }
  }
}
