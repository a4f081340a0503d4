/**
 * The Blackjack table (Blackjack/script.js): the game object `g`, its betting
 * state machine, the deal, the dealer's play and the settlement of a hand.
 */
module Table {
  import opened Cards
  import opened Shoe

  datatype Phase = Betting | Playing | Result

  /** The classification of a finished hand; `Natural` is the player's unmatched blackjack. */
  datatype Outcome = Push | Natural | Win | Loss

  /** A settled hand, as the ghost ledger of the table records it. */
  datatype Settlement = Settlement(outcome: Outcome, bet: int)

  /** The win/loss/push record and the net change of the balance. */
  datatype Record = Record(wins: int, losses: int, pushes: int, net: int)

  const START_BALANCE := 1000
  const MIN_BET := 10
  /** `draw` rebuilds the shoe once this many cards have been dealt from it. */
  const RESHUFFLE_AT := 234
  /** The dealer draws while the dealer's hand is worth less than this. */
  const DEALER_STANDS := 17

  /** The outcome `if`-chain of `resolveHand`. */
  function Settle(player: seq<Card>, dealer: seq<Card>): Outcome {
    var pv := HandValue(player);
    var dv := HandValue(dealer);
    var pBJ := IsBlackjack(player);
    var dBJ := IsBlackjack(dealer);
    if pBJ && dBJ then Push
    else if pBJ then Natural
    else if pv > BUST_LIMIT then Loss
    else if dv > BUST_LIMIT then Win
    else if pv > dv then Win
    else if pv < dv then Loss
    else Push
  }

  /** Each outcome described by the hands alone, in both directions. */
  lemma SettleRules(player: seq<Card>, dealer: seq<Card>)
    ensures Settle(player, dealer) == Natural <==> IsBlackjack(player) && !IsBlackjack(dealer)
    ensures Settle(player, dealer) == Loss <==>
              !IsBlackjack(player) &&
              (HandValue(player) > BUST_LIMIT || (HandValue(dealer) <= BUST_LIMIT && HandValue(player) < HandValue(dealer)))
    ensures Settle(player, dealer) == Win <==>
              !IsBlackjack(player) && HandValue(player) <= BUST_LIMIT &&
              (HandValue(dealer) > BUST_LIMIT || HandValue(player) > HandValue(dealer))
    ensures Settle(player, dealer) == Push <==>
              (IsBlackjack(player) && IsBlackjack(dealer)) ||
              (!IsBlackjack(player) && HandValue(player) <= BUST_LIMIT && HandValue(player) == HandValue(dealer))
  {
  }

  /** A busted player loses, even when the dealer busts too. */
  lemma PlayerBustLoses(player: seq<Card>, dealer: seq<Card>)
    requires HandValue(player) > BUST_LIMIT
    ensures Settle(player, dealer) == Loss
  {
  }

  /**
   * The dealer's natural gets no special treatment: against a player's
   * three-card 21 it is a push, not a dealer win.
   */
  lemma DealerNaturalTiesThreeCardTwentyOne()
    ensures Settle([Card(Spades, Seven), Card(Hearts, Seven), Card(Clubs, Seven)],
                   [Card(Diamonds, Ace), Card(Spades, King)]) == Push
  {
    var player := [Card(Spades, Seven), Card(Hearts, Seven), Card(Clubs, Seven)];
    var dealer := [Card(Diamonds, Ace), Card(Spades, King)];
    assert player[..2] == [Card(Spades, Seven), Card(Hearts, Seven)];
    assert player[..2][..1] == [Card(Spades, Seven)];
    assert [Card(Spades, Seven)][..0] == [];
    assert HardTotal(player[..2][..1]) == 7 && AceCount(player[..2][..1]) == 0;
    assert HardTotal(player[..2]) == 14 && AceCount(player[..2]) == 0;
    assert HardTotal(player) == 21 && AceCount(player) == 0;
    assert dealer[..1] == [Card(Diamonds, Ace)];
    assert dealer[..1][..0] == [];
    assert HardTotal(dealer[..1]) == 1 && AceCount(dealer[..1]) == 1;
    assert HardTotal(dealer) == 11 && AceCount(dealer) == 1;
  }

  /** More generally, a dealer natural only ties any player total of 21 that is not itself a natural. */
  lemma DealerNaturalTiesTwentyOne(player: seq<Card>, dealer: seq<Card>)
    requires IsBlackjack(dealer) && !IsBlackjack(player) && HandValue(player) == BUST_LIMIT
    ensures Settle(player, dealer) == Push
  {
  }

  /** How the balance moves for an outcome: a natural pays floor(1.5 * bet). */
  function Gain(o: Outcome, bet: int): int {
    match o
    case Natural => (bet as real * 1.5).Floor
    case Win => bet
    case Push => 0
    case Loss => -bet
  }

  /** A natural pays three to two, rounded down: the bet plus half of it. */
  lemma NaturalPaysThreeToTwo(bet: int)
    ensures Gain(Natural, bet) == bet + bet / 2
  {
    var q, r := bet / 2, bet % 2;
    assert bet == 2 * q + r;
    assert bet as real * 1.5 == (3 * q + r) as real + 0.5 * r as real;
  }

  /** With a bet the balance covers, no outcome drives the balance below zero. */
  lemma SettlementKeepsBalance(o: Outcome, balance: int, bet: int)
    requires 0 <= bet <= balance
    ensures balance + Gain(o, bet) >= 0
    ensures Gain(o, bet) < 0 ==> o == Loss
    ensures o == Loss ==> Gain(o, bet) == -bet
  {
    if o == Natural {
      NaturalPaysThreeToTwo(bet);
    }
  }

  /** The counter a settled hand bumps (exactly one) and its effect on the net. */
  function Bump(r: Record, s: Settlement): Record {
    match s.outcome
    case Natural => r.(wins := r.wins + 1, net := r.net + Gain(Natural, s.bet))
    case Win => r.(wins := r.wins + 1, net := r.net + Gain(Win, s.bet))
    case Push => r.(pushes := r.pushes + 1)
    case Loss => r.(losses := r.losses + 1, net := r.net + Gain(Loss, s.bet))
  }

  /** The record of a sequence of settled hands. */
  function Tally(hands: seq<Settlement>): Record {
    if hands == [] then Record(0, 0, 0, 0) else Bump(Tally(hands[..|hands| - 1]), hands[|hands| - 1])
  }

  /** Every settled hand is counted exactly once among wins, losses and pushes. */
  lemma {:induction false} TallyCountsEveryHand(hands: seq<Settlement>)
    ensures Tally(hands).wins + Tally(hands).losses + Tally(hands).pushes == |hands|
    ensures Tally(hands).wins >= 0 && Tally(hands).losses >= 0 && Tally(hands).pushes >= 0
  {
    if hands != [] {
      TallyCountsEveryHand(hands[..|hands| - 1]);
    }
  }

  lemma TallyAppend(hands: seq<Settlement>, s: Settlement)
    ensures Tally(hands + [s]) == Bump(Tally(hands), s)
  {
    assert (hands + [s])[..|hands|] == hands;
  }

  /**
   * The k-th card dealt by consecutive `draw`s starting at count `start`:
   * from the old shoe while it lasts, then from the rebuilt shoe, whose
   * dealing restarts at position 0.
   */
  function DealtCard(before: seq<Card>, after: seq<Card>, start: nat, k: nat): Card
    requires |before| == SHOE_SIZE && |after| == SHOE_SIZE && start <= RESHUFFLE_AT
    requires k < SHOE_SIZE - RESHUFFLE_AT
  {
    if start + k < RESHUFFLE_AT then before[start + k] else after[start + k - RESHUFFLE_AT]
  }

  /** Every card contributes at least one point to the hard total. */
  lemma {:induction false} HardTotalAtLeastLength(cards: seq<Card>)
    ensures HardTotal(cards) >= |cards|
  {
    if cards != [] {
      HardTotalAtLeastLength(cards[..|cards| - 1]);
    }
  }

  /** Appending to a list keeps its prefixes and extends its suffixes. */
  lemma AppendKeepsPrefixes<T>(s: seq<T>, x: T, n: nat)
    requires n <= |s|
    ensures forall k :: 0 <= k <= |s| ==> (s + [x])[..k] == s[..k]
    ensures (s + [x])[n..] == s[n..] + [x]
  {
    forall k | 0 <= k <= |s|
      ensures (s + [x])[..k] == s[..k]
    {
      assert forall i :: 0 <= i < k ==> (s + [x])[i] == s[i];
    }
  }

  /** The count after m more `draw`s from count c0: at 234 the shoe is rebuilt and counting restarts at 0. */
  function CountAfter(c0: nat, m: nat): nat {
    if c0 + m <= RESHUFFLE_AT then c0 + m else c0 + m - RESHUFFLE_AT
  }

  /**
   * The dealer's loop has drawn so far: from hand `cards0`, shoe `s0` and
   * count `c0`, after `skip` earlier draws of the same call, the hand is
   * `cards` and the shoe and count are `s` and `c`.
   */
  predicate DealerDrew(cards0: seq<Card>, cards: seq<Card>, s0: seq<Card>, s: seq<Card>, c0: nat, skip: nat, c: nat) {
    DealerHandGrew(cards0, cards) && DealtFrom(cards0, cards, s0, s, c0, skip, c)
  }

  /** The old hand is kept, every hand before a draw was worth less than 17, and at most 17 cards were drawn. */
  predicate DealerHandGrew(cards0: seq<Card>, cards: seq<Card>) {
    && |cards| >= |cards0| && cards[..|cards0|] == cards0
    && (forall k :: |cards0| <= k < |cards| ==> HandValue(cards[..k]) < DEALER_STANDS)
    && |cards| - |cards0| <= DEALER_STANDS
  }

  /**
   * The cards after `cards0` are the next ones `draw` deals after `skip`
   * draws from (s0, c0), and the count moved by as many draws (the shoe is
   * untouched unless the count reached 234).
   */
  predicate DealtFrom(cards0: seq<Card>, cards: seq<Card>, s0: seq<Card>, s: seq<Card>, c0: nat, skip: nat, c: nat) {
    var n := |cards| - |cards0|;
    && |cards| >= |cards0|
    && |s0| == SHOE_SIZE && |s| == SHOE_SIZE && c0 <= RESHUFFLE_AT && skip + n <= SHOE_SIZE - RESHUFFLE_AT
    && c == CountAfter(c0, skip + n)
    && (c0 + skip + n <= RESHUFFLE_AT ==> s == s0)
    && (forall k :: |cards0| <= k < |cards| ==> cards[k] == DealtCard(s0, s, c0, skip + k - |cards0|))
  }

  /** The dealer's loop has ended: it has drawn as above and the hand is worth 17 or more. */
  predicate DealerPlayed(cards0: seq<Card>, cards: seq<Card>, s0: seq<Card>, s: seq<Card>, c0: nat, skip: nat, c: nat) {
    DealerDrew(cards0, cards, s0, s, c0, skip, c) && HandValue(cards) >= DEALER_STANDS
  }

  /**
   * One `draw` after n earlier ones from (s0, c0), taken at (s1, c1) and
   * leaving (s2, c2): it deals the n-th card from c0, the count is the count
   * after n + 1 draws, and the earlier cards read the same from s2.
   */
  lemma DrawAfter(s0: seq<Card>, s1: seq<Card>, s2: seq<Card>, c0: nat, n: nat, c1: nat, c2: nat)
    requires |s0| == SHOE_SIZE && |s1| == SHOE_SIZE && |s2| == SHOE_SIZE && c0 <= RESHUFFLE_AT
    requires n < SHOE_SIZE - RESHUFFLE_AT && c1 <= RESHUFFLE_AT
    requires c1 == CountAfter(c0, n) && (c0 + n <= RESHUFFLE_AT ==> s1 == s0)
    requires c1 < RESHUFFLE_AT ==> s2 == s1 && c2 == c1 + 1
    requires c1 >= RESHUFFLE_AT ==> c2 == 1
    ensures DealtCard(s1, s2, c1, 0) == DealtCard(s0, s2, c0, n)
    ensures c2 == CountAfter(c0, n + 1) && (c0 + n + 1 <= RESHUFFLE_AT ==> s2 == s0)
    ensures forall j :: 0 <= j < n ==> DealtCard(s0, s1, c0, j) == DealtCard(s0, s2, c0, j)
  {
    if c0 + n > RESHUFFLE_AT {
      assert c1 < RESHUFFLE_AT && s2 == s1;
    }
  }

  /** One more hit of the dealer's loop, from a hand worth less than 17, keeps `DealerDrew`. */
  lemma DealerDrewStep(cards0: seq<Card>, prev: seq<Card>, s0: seq<Card>, s1: seq<Card>, s2: seq<Card>,
                       c0: nat, c1: nat, c2: nat, card: Card)
    requires DealerDrew(cards0, prev, s0, s1, c0, 0, c1)
    requires HandValue(prev) < DEALER_STANDS
    requires |s2| == SHOE_SIZE && c1 <= RESHUFFLE_AT && card == DealtCard(s1, s2, c1, 0)
    requires c1 < RESHUFFLE_AT ==> s2 == s1 && c2 == c1 + 1
    requires c1 >= RESHUFFLE_AT ==> c2 == 1
    ensures DealerDrew(cards0, prev + [card], s0, s2, c0, 0, c2)
  {
    DealerHandStep(cards0, prev, card);
    DealtFromStep(cards0, prev, s0, s1, s2, c0, c1, c2, card);
  }

  /** A hit from a hand worth less than 17 keeps `DealerHandGrew`. */
  lemma DealerHandStep(cards0: seq<Card>, prev: seq<Card>, card: Card)
    requires DealerHandGrew(cards0, prev) && HandValue(prev) < DEALER_STANDS
    ensures DealerHandGrew(cards0, prev + [card])
  {
    var cards := prev + [card];
    HardTotalAtLeastLength(prev);
    AppendKeepsPrefixes(prev, card, |cards0|);
    assert cards[..|prev|] == prev;
    forall k | |cards0| <= k < |cards|
      ensures HandValue(cards[..k]) < DEALER_STANDS
    {
      if k < |prev| {
        assert cards[..k] == prev[..k];
      }
    }
  }

  /** The next `draw` extends `DealtFrom` by its card. */
  lemma DealtFromStep(cards0: seq<Card>, prev: seq<Card>, s0: seq<Card>, s1: seq<Card>, s2: seq<Card>,
                      c0: nat, c1: nat, c2: nat, card: Card)
    requires DealtFrom(cards0, prev, s0, s1, c0, 0, c1) && |prev| - |cards0| < DEALER_STANDS
    requires |s2| == SHOE_SIZE && c1 <= RESHUFFLE_AT && card == DealtCard(s1, s2, c1, 0)
    requires c1 < RESHUFFLE_AT ==> s2 == s1 && c2 == c1 + 1
    requires c1 >= RESHUFFLE_AT ==> c2 == 1
    ensures DealtFrom(cards0, prev + [card], s0, s2, c0, 0, c2)
  {
    var cards := prev + [card];
    var n := |prev| - |cards0|;
    DrawAfter(s0, s1, s2, c0, n, c1, c2);
    forall k | |cards0| <= k < |cards|
      ensures cards[k] == DealtCard(s0, s2, c0, k - |cards0|)
    {
      if k < |prev| {
        assert cards[k] == prev[k] == DealtCard(s0, s1, c0, k - |cards0|);
      }
    }
  }

  /**
   * The dealer's play after `skip` earlier draws of the same call, stated from
   * the shoe and count before those draws; the earlier draws' cards read the
   * same from the final shoe.
   */
  lemma DealerPlayedAfter(cards0: seq<Card>, cards: seq<Card>, s0: seq<Card>, s1: seq<Card>, s2: seq<Card>,
                          c0: nat, skip: nat, c1: nat, c2: nat)
    requires |s0| == SHOE_SIZE && |s1| == SHOE_SIZE && c0 <= RESHUFFLE_AT
    requires skip + DEALER_STANDS <= SHOE_SIZE - RESHUFFLE_AT
    requires c1 == CountAfter(c0, skip) && (c0 + skip <= RESHUFFLE_AT ==> s1 == s0)
    requires DealerPlayed(cards0, cards, s1, s2, c1, 0, c2)
    ensures DealerPlayed(cards0, cards, s0, s2, c0, skip, c2)
    ensures forall k :: 0 <= k < skip ==> DealtCard(s0, s1, c0, k) == DealtCard(s0, s2, c0, k)
  {
    var n := |cards| - |cards0|;
    if c0 + skip > RESHUFFLE_AT {
      assert c1 + n <= RESHUFFLE_AT && s2 == s1;
    }
    forall k | |cards0| <= k < |cards|
      ensures cards[k] == DealtCard(s0, s2, c0, skip + k - |cards0|)
    {
      assert cards[k] == DealtCard(s1, s2, c1, k - |cards0|);
    }
  }

  /**
   * When the dealer's play cannot reach the rebuild, the dealer's new cards are
   * exactly the shoe's next positions and the shoe is unchanged.
   */
  lemma DealerPlayedWithoutReshuffle(cards0: seq<Card>, cards: seq<Card>, s0: seq<Card>, s: seq<Card>, c0: nat, c: nat)
    requires DealerPlayed(cards0, cards, s0, s, c0, 0, c) && c0 + DEALER_STANDS <= RESHUFFLE_AT
    ensures s == s0 && c == c0 + (|cards| - |cards0|)
    ensures cards[|cards0|..] == s0[c0..c]
  {
    assert forall i :: 0 <= i < |cards| - |cards0| ==> cards[|cards0|..][i] == cards[|cards0| + i];
  }

  /** The game object `g`. */
  class Table {
    var phase: Phase
    var busy: bool
    var balance: int
    var bet: int
    var wins: nat
    var losses: nat
    var pushes: nat
    var shoe: seq<Card>
    var dealtCount: nat
    var playerCards: seq<Card>
    var dealerCards: seq<Card>
    /** The hands settled since the last new game, oldest first. */
    ghost var settled: seq<Settlement>

    /** The shoe is a shuffled six-deck shoe with a reshuffle still ahead. */
    ghost predicate ShoeOk()
      reads this
    {
      SixDecks(shoe) && dealtCount <= RESHUFFLE_AT
    }

    ghost predicate Valid()
      reads this
    {
      && ShoeOk()
      && balance >= 0
      && (phase == Betting ==> bet <= balance)
      && (phase == Playing ==> MIN_BET <= bet <= balance)
      && Tally(settled) == Record(wins, losses, pushes, balance - START_BALANCE)
    }

    /** Initial state of `g` and the first `buildShoe`. */
    constructor (rs: seq<real>)
      requires ShuffleDrawsOk(rs)
      ensures Valid()
      ensures phase == Betting && !busy && balance == START_BALANCE && bet == 0
      ensures wins == 0 && losses == 0 && pushes == 0 && dealtCount == 0
      ensures playerCards == [] && dealerCards == [] && settled == []
    {
      phase := Betting;
      busy := false;
      balance := START_BALANCE;
      bet := 0;
      wins, losses, pushes := 0, 0, 0;
      var s := BuildShoe(rs);
      shoe := s;
      dealtCount := 0;
      playerCards, dealerCards := [], [];
      settled := [];
    }

    /** `draw`: deal the next card, rebuilding the shoe first once 234 cards are out. */
    method Draw(rs: seq<real>) returns (c: Card)
      requires ShoeOk() && ShuffleDrawsOk(rs)
      modifies this`shoe, this`dealtCount
      ensures ShoeOk()
      ensures 1 <= dealtCount && c == shoe[dealtCount - 1]
      ensures c == DealtCard(old(shoe), shoe, old(dealtCount), 0)
      ensures old(dealtCount) < RESHUFFLE_AT ==> shoe == old(shoe) && dealtCount == old(dealtCount) + 1
      ensures old(dealtCount) >= RESHUFFLE_AT ==> dealtCount == 1
    {
      if dealtCount >= RESHUFFLE_AT {
        shoe := BuildShoe(rs);
        dealtCount := 0;
      }
      c := shoe[dealtCount];
      dealtCount := dealtCount + 1;
    }

    /** The condition under which the deal button is disabled (`updateDealBtn`). */
    predicate DealDisabled()
      reads this
    {
      bet < MIN_BET || bet > balance
    }

    /** `addChip`: raise the bet by a chip while betting, never beyond the balance. */
    method AddChip(amt: int)
      requires Valid()
      modifies this`bet
      ensures Valid()
      ensures if old(phase) == Betting && !busy && old(bet) + amt <= balance
              then bet == old(bet) + amt
              else bet == old(bet)
      ensures phase == Betting ==> bet <= balance
    {
      if phase != Betting || busy {
        return;
      }
      if bet + amt > balance {
        return;
      }
      bet := bet + amt;
    }

    /** `clearBet`: take the bet back while betting. */
    method ClearBet()
      requires Valid()
      modifies this`bet
      ensures Valid()
      ensures if old(phase) == Betting && !busy then bet == 0 else bet == old(bet)
    {
      if phase != Betting || busy {
        return;
      }
      bet := 0;
    }

    /** The dealer's draw loop of `resolveHand`: hit while the dealer's hand is worth less than 17. */
    method DealerPlay(rs: seq<real>)
      requires ShoeOk() && ShuffleDrawsOk(rs)
      modifies this`shoe, this`dealtCount, this`dealerCards
      ensures ShoeOk()
      ensures DealerPlayed(old(dealerCards), dealerCards, old(shoe), shoe, old(dealtCount), 0, dealtCount)
    {
      var dv := HandVal(dealerCards);
      while dv < DEALER_STANDS
        invariant ShoeOk()
        invariant dv == HandValue(dealerCards)
        invariant DealerDrew(old(dealerCards), dealerCards, old(shoe), shoe, old(dealtCount), 0, dealtCount)
        decreases DEALER_STANDS - HardTotal(dealerCards)
      {
        ghost var prev, s1, c1 := dealerCards, shoe, dealtCount;
        DealerHit(rs);
        DealerDrewStep(old(dealerCards), prev, old(shoe), s1, shoe, old(dealtCount), c1, dealtCount, dealerCards[|prev|]);
        dv := HandVal(dealerCards);
      }
    }

    /** One hit of the dealer's loop: draw a card onto the dealer's hand. */
    method DealerHit(rs: seq<real>)
      requires ShoeOk() && ShuffleDrawsOk(rs)
      modifies this`shoe, this`dealtCount, this`dealerCards
      ensures ShoeOk()
      ensures dealerCards == old(dealerCards) + [DealtCard(old(shoe), shoe, old(dealtCount), 0)]
      ensures old(dealtCount) < RESHUFFLE_AT ==>
                && shoe == old(shoe) && dealtCount == old(dealtCount) + 1
                && dealerCards[|old(dealerCards)|] == old(shoe)[old(dealtCount)]
      ensures old(dealtCount) >= RESHUFFLE_AT ==> dealtCount == 1
    {
      var c := Draw(rs);
      dealerCards := dealerCards + [c];
    }

    /** The settlement of `resolveHand`: pay out the classified hand and count it. */
    method Payout(outcome: Outcome)
      requires Valid() && phase == Playing
      modifies this`balance, this`wins, this`losses, this`pushes, this`phase, this`busy, this`settled
      ensures Valid() && phase == Result && !busy
      ensures settled == old(settled) + [Settlement(outcome, bet)]
      ensures balance == old(balance) + Gain(outcome, bet)
      ensures wins == old(wins) + (if outcome in {Natural, Win} then 1 else 0)
      ensures losses == old(losses) + (if outcome == Loss then 1 else 0)
      ensures pushes == old(pushes) + (if outcome == Push then 1 else 0)
    {
      SettlementKeepsBalance(outcome, balance, bet);
      TallyAppend(settled, Settlement(outcome, bet));
      if outcome == Natural {
        var gain := (bet as real * 1.5).Floor;
        balance := balance + gain;
        wins := wins + 1;
      } else if outcome == Win {
        balance := balance + bet;
        wins := wins + 1;
      } else if outcome == Push {
        pushes := pushes + 1;
      } else {
        balance := balance - bet;
        losses := losses + 1;
      }
      assert Record(wins, losses, pushes, balance - START_BALANCE) == Bump(Tally(settled), Settlement(outcome, bet));
      settled := settled + [Settlement(outcome, bet)];
      phase := Result;
      busy := false;
    }

    /**
     * `resolveHand`: the dealer draws until reaching 17 or more, then the hand
     * is classified and the balance and the record are updated.
     */
    method ResolveHand(rs: seq<real>)
      requires Valid() && phase == Playing && ShuffleDrawsOk(rs)
      modifies this`shoe, this`dealtCount, this`dealerCards, this`balance, this`wins, this`losses,
               this`pushes, this`phase, this`busy, this`settled
      ensures Valid() && phase == Result && !busy
      ensures DealerPlayed(old(dealerCards), dealerCards, old(shoe), shoe, old(dealtCount), 0, dealtCount)
      ensures playerCards == old(playerCards) && bet == old(bet)
      ensures settled == old(settled) + [Settlement(Settle(playerCards, dealerCards), bet)]
      ensures balance == old(balance) + Gain(Settle(playerCards, dealerCards), bet)
      ensures wins == old(wins) + (if Settle(playerCards, dealerCards) in {Natural, Win} then 1 else 0)
      ensures losses == old(losses) + (if Settle(playerCards, dealerCards) == Loss then 1 else 0)
      ensures pushes == old(pushes) + (if Settle(playerCards, dealerCards) == Push then 1 else 0)
    {
      DealerPlay(rs);
      Payout(Settle(playerCards, dealerCards));
    }

    /**
     * `resolveHand` called from a handler that has already drawn `skip` cards
     * from shoe `s0` at count `c0`: the dealer's play stated from there, and
     * the earlier cards read the same from the final shoe.
     */
    method ResolveAfter(rs: seq<real>, ghost s0: seq<Card>, ghost c0: nat, ghost skip: nat)
      requires Valid() && phase == Playing && ShuffleDrawsOk(rs)
      requires |s0| == SHOE_SIZE && c0 <= RESHUFFLE_AT && skip + DEALER_STANDS <= SHOE_SIZE - RESHUFFLE_AT
      requires dealtCount == CountAfter(c0, skip) && (c0 + skip <= RESHUFFLE_AT ==> shoe == s0)
      modifies this`shoe, this`dealtCount, this`dealerCards, this`balance, this`wins, this`losses,
               this`pushes, this`phase, this`busy, this`settled
      ensures Valid() && phase == Result && !busy
      ensures DealerPlayed(old(dealerCards), dealerCards, s0, shoe, c0, skip, dealtCount)
      ensures forall k :: 0 <= k < skip ==> DealtCard(s0, old(shoe), c0, k) == DealtCard(s0, shoe, c0, k)
      ensures playerCards == old(playerCards) && bet == old(bet)
      ensures settled == old(settled) + [Settlement(Settle(playerCards, dealerCards), bet)]
    {
      ResolveHand(rs);
      DealerPlayedAfter(old(dealerCards), dealerCards, s0, old(shoe), shoe, c0, skip, old(dealtCount), dealtCount);
    }

    /** The four draws of `startHand`: player, dealer, player, dealer. */
    method DealInitial(rs: seq<real>)
      requires ShoeOk() && ShuffleDrawsOk(rs)
      modifies this`shoe, this`dealtCount, this`playerCards, this`dealerCards
      ensures ShoeOk()
      ensures playerCards == [DealtCard(old(shoe), shoe, old(dealtCount), 0), DealtCard(old(shoe), shoe, old(dealtCount), 2)]
      ensures dealerCards == [DealtCard(old(shoe), shoe, old(dealtCount), 1), DealtCard(old(shoe), shoe, old(dealtCount), 3)]
      ensures old(dealtCount) + 4 <= RESHUFFLE_AT ==> shoe == old(shoe) && dealtCount == old(dealtCount) + 4
      ensures old(dealtCount) + 4 > RESHUFFLE_AT ==> dealtCount == old(dealtCount) + 4 - RESHUFFLE_AT
    {
      playerCards := [];
      dealerCards := [];
      var c1 := Draw(rs);
      playerCards := playerCards + [c1];
      var c2 := Draw(rs);
      dealerCards := dealerCards + [c2];
      var c3 := Draw(rs);
      playerCards := playerCards + [c3];
      var hole := Draw(rs);
      dealerCards := dealerCards + [hole];
    }

    /**
     * `startHand`: with a bet of at least 10 that the balance covers and no
     * hand in progress, deal player, dealer, player, dealer (the hole card);
     * a player natural is resolved at once.
     */
    method StartHand(rs: seq<real>)
      requires Valid() && ShuffleDrawsOk(rs)
      modifies this
      ensures Valid()
      ensures old(DealDisabled() || busy) ==> unchanged(this)
      ensures !old(DealDisabled() || busy) ==>
                && !busy && bet == old(bet)
                && |playerCards| == 2 && |dealerCards| >= 2
                && (IsBlackjack(playerCards) ==>
                      && phase == Result && settled == old(settled) + [Settlement(Settle(playerCards, dealerCards), bet)]
                      && DealerPlayed(dealerCards[..2], dealerCards, old(shoe), shoe, old(dealtCount), 4, dealtCount))
                && (!IsBlackjack(playerCards) ==>
                      && phase == Playing && |dealerCards| == 2 && balance == old(balance) && settled == old(settled)
                      && (old(dealtCount) + 4 <= RESHUFFLE_AT ==> shoe == old(shoe) && dealtCount == old(dealtCount) + 4)
                      && (old(dealtCount) + 4 > RESHUFFLE_AT ==> dealtCount == old(dealtCount) + 4 - RESHUFFLE_AT))
      ensures !old(DealDisabled() || busy) ==>
                && playerCards == [DealtCard(old(shoe), shoe, old(dealtCount), 0), DealtCard(old(shoe), shoe, old(dealtCount), 2)]
                && dealerCards[..2] == [DealtCard(old(shoe), shoe, old(dealtCount), 1), DealtCard(old(shoe), shoe, old(dealtCount), 3)]
    {
      if bet < MIN_BET || bet > balance || busy {
        return;
      }
      busy := true;
      phase := Playing;
      DealInitial(rs);
      if IsBlackjack(playerCards) {
        ResolveAfter(rs, old(shoe), old(dealtCount), 4);
        return;
      }
      busy := false;
    }

    /** `playerHit`: while the hand is in play, deal the player a card; a bust ends the hand. */
    method PlayerHit(rs: seq<real>)
      requires Valid() && ShuffleDrawsOk(rs)
      modifies this
      ensures Valid()
      ensures !(old(phase) == Playing && !old(busy)) ==> unchanged(this)
      ensures old(phase) == Playing && !old(busy) ==>
                && !busy && bet == old(bet)
                && |playerCards| == |old(playerCards)| + 1 && playerCards[..|old(playerCards)|] == old(playerCards)
                && playerCards[|old(playerCards)|] == DealtCard(old(shoe), shoe, old(dealtCount), 0)
                && (HandValue(playerCards) > BUST_LIMIT ==>
                      && phase == Result && settled == old(settled) + [Settlement(Loss, bet)]
                      && DealerPlayed(old(dealerCards), dealerCards, old(shoe), shoe, old(dealtCount), 1, dealtCount))
                && (HandValue(playerCards) <= BUST_LIMIT ==>
                      && phase == Playing && dealerCards == old(dealerCards) && settled == old(settled)
                      && (old(dealtCount) < RESHUFFLE_AT ==> shoe == old(shoe) && dealtCount == old(dealtCount) + 1)
                      && (old(dealtCount) >= RESHUFFLE_AT ==> dealtCount == 1))
    {
      if phase != Playing || busy {
        return;
      }
      busy := true;
      var c := Draw(rs);
      playerCards := playerCards + [c];
      var pv := HandVal(playerCards);
      if pv > BUST_LIMIT {
        PlayerBustLoses(playerCards, dealerCards);
        ResolveAfter(rs, old(shoe), old(dealtCount), 1);
        return;
      }
      busy := false;
    }

    /** `playerStand`: while the hand is in play, hand over to the dealer and settle. */
    method PlayerStand(rs: seq<real>)
      requires Valid() && ShuffleDrawsOk(rs)
      modifies this
      ensures Valid()
      ensures !(old(phase) == Playing && !old(busy)) ==> unchanged(this)
      ensures old(phase) == Playing && !old(busy) ==>
                && phase == Result && !busy && playerCards == old(playerCards) && bet == old(bet)
                && DealerPlayed(old(dealerCards), dealerCards, old(shoe), shoe, old(dealtCount), 0, dealtCount)
                && settled == old(settled) + [Settlement(Settle(playerCards, dealerCards), bet)]
    {
      if phase != Playing || busy {
        return;
      }
      busy := true;
      ResolveHand(rs);
    }

    /** `nextHand`: back to betting with no bet on the table. */
    method NextHand()
      requires Valid()
      modifies this`phase, this`bet
      ensures Valid() && phase == Betting && bet == 0
    {
      phase := Betting;
      bet := 0;
    }

    /** `newGame`: reset the balance, the record and the hands; the shoe is kept as it is. */
    method NewGame()
      requires Valid()
      modifies this
      ensures Valid()
      ensures phase == Betting && !busy && balance == START_BALANCE && bet == 0
      ensures wins == 0 && losses == 0 && pushes == 0 && settled == []
      ensures playerCards == [] && dealerCards == []
      ensures shoe == old(shoe) && dealtCount == old(dealtCount)
    {
      phase := Betting;
      busy := false;
      balance := START_BALANCE;
      wins, losses, pushes := 0, 0, 0;
      bet := 0;
      playerCards := [];
      dealerCards := [];
      settled := [];
    }
  }
}
