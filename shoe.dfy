/** The six-deck shoe of the Blackjack table: `buildShoe` (Blackjack/script.js). */
module Shoe {
  import opened Cards
  import opened Random

  /** The suit and value orders of `buildShoe`'s two nested loops. */
  const Suits: seq<Suit> := [Spades, Hearts, Diamonds, Clubs]
  const Ranks: seq<Rank> := [Ace, Two, Three, Four, Five, Six, Seven, Eight, Nine, Ten, Jack, Queen, King]

  const DECK_SIZE := 52
  const DECKS := 6
  const SHOE_SIZE := 312

  /** The draws of one Fisher–Yates pass over a full shoe, in the order the loop makes them. */
  predicate ShuffleDrawsOk(rs: seq<real>) {
    |rs| == SHOE_SIZE - 1 && forall k :: 0 <= k < |rs| ==> Unit(rs[k])
  }

  /** One deck in the order the nested loops push it: suits outer, values inner. */
  function Deck(): (d: seq<Card>)
    ensures |d| == DECK_SIZE
  {
    seq(DECK_SIZE, i requires 0 <= i < DECK_SIZE => Card(Suits[i / 13], Ranks[i % 13]))
  }

  /** `s` concatenated `n` times, as `shoe = shoe.concat(deck)` builds it. */
  function Repeat(s: seq<Card>, n: nat): (r: seq<Card>)
  {
    if n == 0 then [] else Repeat(s, n - 1) + s
  }

  /** The shoe before shuffling. */
  function FreshShoe(): seq<Card> {
    Repeat(Deck(), DECKS)
  }

  function SuitIndex(s: Suit): (i: nat)
    ensures i < |Suits| && Suits[i] == s
  {
    match s
    case Spades => 0
    case Hearts => 1
    case Diamonds => 2
    case Clubs => 3
  }

  function RankIndex(r: Rank): (i: nat)
    ensures i < |Ranks| && Ranks[i] == r
  {
    match r
    case Ace => 0
    case Two => 1
    case Three => 2
    case Four => 3
    case Five => 4
    case Six => 5
    case Seven => 6
    case Eight => 7
    case Nine => 8
    case Ten => 9
    case Jack => 10
    case Queen => 11
    case King => 12
  }

  lemma DeckPosition(c: Card)
    ensures 13 * SuitIndex(c.suit) + RankIndex(c.value) < DECK_SIZE
    ensures Deck()[13 * SuitIndex(c.suit) + RankIndex(c.value)] == c
  {
    var i := 13 * SuitIndex(c.suit) + RankIndex(c.value);
    assert i / 13 == SuitIndex(c.suit) && i % 13 == RankIndex(c.value);
  }

  /** The nested loops of `buildShoe` push suit index si with value index vi at position 13 * si + vi. */
  lemma DeckAt(si: nat, vi: nat)
    requires si < |Suits| && vi < |Ranks|
    ensures 13 * si + vi < DECK_SIZE
    ensures Deck()[..13 * si + vi + 1] == Deck()[..13 * si + vi] + [Card(Suits[si], Ranks[vi])]
  {
    var k := 13 * si + vi;
    assert k / 13 == si && k % 13 == vi;
    assert Deck()[..k + 1] == Deck()[..k] + [Deck()[k]];
  }

  predicate Distinct(s: seq<Card>) {
    forall i, j :: 0 <= i < j < |s| ==> s[i] != s[j]
  }

  lemma DeckDistinct()
    ensures Distinct(Deck())
  {
    forall i, j | 0 <= i < j < DECK_SIZE ensures Deck()[i] != Deck()[j] {
      assert Suits[i / 13] == Suits[j / 13] ==> i / 13 == j / 13;
      assert Ranks[i % 13] == Ranks[j % 13] ==> i % 13 == j % 13;
    }
  }

  lemma {:induction false} DistinctCount(s: seq<Card>, c: Card)
    requires Distinct(s)
    ensures multiset(s)[c] == if c in s then 1 else 0
  {
    if s != [] {
      assert s == [s[0]] + s[1..];
      assert multiset(s) == multiset{s[0]} + multiset(s[1..]);
      DistinctCount(s[1..], c);
      if c == s[0] {
        assert c !in s[1..];
      }
    }
  }

  lemma {:induction false} RepeatLength(s: seq<Card>, n: nat)
    ensures |Repeat(s, n)| == n * |s|
  {
    if n > 0 {
      RepeatLength(s, n - 1);
      assert n * |s| == (n - 1) * |s| + |s|;
    }
  }

  lemma {:induction false} RepeatCount(s: seq<Card>, n: nat, c: Card)
    requires multiset(s)[c] == 1
    ensures multiset(Repeat(s, n))[c] == n
  {
    if n > 0 {
      RepeatCount(s, n - 1, c);
      assert multiset(Repeat(s, n)) == multiset(Repeat(s, n - 1)) + multiset(s);
    }
  }

  /** The unshuffled shoe holds 312 cards, each of the 52 suit/value pairs six times. */
  lemma FreshShoeComposition()
    ensures |FreshShoe()| == SHOE_SIZE
    ensures forall c: Card :: multiset(FreshShoe())[c] == DECKS
  {
    DeckDistinct();
    forall c: Card ensures multiset(FreshShoe())[c] == DECKS {
      DeckPosition(c);
      DistinctCount(Deck(), c);
      RepeatCount(Deck(), DECKS, c);
    }
    RepeatLength(Deck(), DECKS);
  }

  /** A shoe of six full decks: 312 cards, each suit/value pair exactly six times. */
  ghost predicate SixDecks(s: seq<Card>) {
    |s| == SHOE_SIZE && forall c: Card :: multiset(s)[c] == DECKS
  }

  /** Any rearrangement of the fresh shoe has the same composition. */
  lemma ShuffledComposition(s: seq<Card>)
    requires multiset(s) == multiset(FreshShoe())
    ensures SixDecks(s)
  {
    FreshShoeComposition();
    assert |s| == |multiset(s)| == |multiset(FreshShoe())| == |FreshShoe()|;
  }

  /** Exchanging two positions keeps the cards of a sequence. */
  lemma SwapKeepsCards(s: seq<Card>, i: nat, j: nat)
    requires i < |s| && j < |s|
    ensures multiset(s[i := s[j]][j := s[i]]) == multiset(s)
  {
  }

  /** floor(r * n) for a Math.random() value r is an index below n. */
  lemma ScaledFloorInRange(r: real, n: nat)
    requires Unit(r) && n > 0
    ensures 0 <= (r * n as real).Floor < n
  {
    assert r * n as real < n as real;
  }

  /**
   * The Fisher–Yates pass of `buildShoe`: for i from the last index down to 1,
   * swap position i with j = floor(random * (i + 1)), a position at or below i.
   */
  method Shuffle(a: array<Card>, rs: seq<real>)
    requires a.Length == SHOE_SIZE && ShuffleDrawsOk(rs)
    modifies a
    ensures multiset(a[..]) == old(multiset(a[..]))
  {
    var i := a.Length - 1;
    while i > 0
      invariant 0 <= i < a.Length
      invariant multiset(a[..]) == old(multiset(a[..]))
    {
      ScaledFloorInRange(rs[a.Length - 1 - i], i + 1);
      var j := (rs[a.Length - 1 - i] * (i + 1) as real).Floor;
      ghost var before := a[..];
      a[i], a[j] := a[j], a[i];
      assert a[..] == before[i := before[j]][j := before[i]];
      SwapKeepsCards(before, i, j);
      i := i - 1;
    }
  }

  /** The nested suit/value loops of `buildShoe`, which push one deck in order. */
  method OneDeck() returns (deck: seq<Card>)
    ensures deck == Deck()
  {
    deck := [];
    for si := 0 to |Suits|
      invariant deck == Deck()[..13 * si]
    {
      for vi := 0 to |Ranks|
        invariant deck == Deck()[..13 * si + vi]
      {
        DeckAt(si, vi);
        deck := deck + [Card(Suits[si], Ranks[vi])];
      }
    }
  }

  /** `buildShoe`: six decks pushed in order, concatenated, then shuffled in place. */
  method BuildShoe(rs: seq<real>) returns (shoe: seq<Card>)
    requires ShuffleDrawsOk(rs)
    ensures multiset(shoe) == multiset(FreshShoe())
    ensures SixDecks(shoe)
  {
    var deck := OneDeck();
    var s: seq<Card> := [];
    for i := 0 to DECKS
      invariant s == Repeat(deck, i)
    {
      s := s + deck;
    }
    RepeatLength(deck, DECKS);
    var a := new Card[|s|](k requires 0 <= k < |s| => s[k]);
    assert a[..] == s;
    Shuffle(a, rs);
    shoe := a[..];
    ShuffledComposition(shoe);
  }
}
