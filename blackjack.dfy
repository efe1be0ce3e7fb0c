/**
 * The blackjack round of the week-10 page: scoring a hand under the soft-ace
 * rule, and the deal, hit, stand and end-of-game transitions over the page's
 * single game state. The remote shuffled deck is modelled by the sequence of
 * cards it still holds, dealt from the front.
 */
module Blackjack {
  import opened Options

  /** The `value` field of a card sent by the deck service; `Pip(n)` is a numbered card. */
  datatype Rank = Ace | King | Queen | Jack | Pip(n: int)
  datatype Suit = Spades | Hearts | Diamonds | Clubs
  datatype Card = Card(value: Rank, suit: Suit)

  /** A card the deck service can deal: numbered cards run from 2 to 10. */
  predicate ValidCard(c: Card) {
    c.value.Pip? ==> 2 <= c.value.n <= 10
  }

  predicate AllValid(cards: seq<Card>) {
    forall i :: 0 <= i < |cards| ==> ValidCard(cards[i])
  }

  /** Points of one card with an ace counted as 11. */
  function HighValue(c: Card): int {
    match c.value
    case Ace => 11
    case King | Queen | Jack => 10
    case Pip(n) => n
  }

  /** Points of one card with an ace counted as 1. */
  function LowValue(c: Card): int {
    if c.value.Ace? then 1 else HighValue(c)
  }

  /** The hand's total with every ace counted as 11. */
  function HighSum(hand: seq<Card>): int {
    if hand == [] then 0 else HighSum(hand[..|hand| - 1]) + HighValue(hand[|hand| - 1])
  }

  /** The hand's total with every ace counted as 1: the least total the hand can have. */
  function LowSum(hand: seq<Card>): int {
    if hand == [] then 0 else LowSum(hand[..|hand| - 1]) + LowValue(hand[|hand| - 1])
  }

  function AceCount(hand: seq<Card>): nat {
    if hand == [] then 0 else AceCount(hand[..|hand| - 1]) + (if hand[|hand| - 1].value.Ace? then 1 else 0)
  }

  function Min(a: int, b: int): int {
    if a <= b then a else b
  }

  /**
   * The value of a hand: its aces-as-1 total plus 10 for each ace kept at 11,
   * keeping as many aces at 11 as the total allows without passing 21. Every
   * total the hand can take is LowSum + 10 * k for some k up to the number of
   * aces; the score is one of them, and it passes 21 only when every ace
   * already counts 1.
   */
  function Score(hand: seq<Card>): (r: int)
    ensures LowSum(hand) <= r <= LowSum(hand) + 10 * AceCount(hand)
    ensures (r - LowSum(hand)) % 10 == 0
    ensures r > 21 ==> r == LowSum(hand)
  {
    var low := LowSum(hand);
    var soft := if low > 21 then 0 else Min(AceCount(hand), (21 - low) / 10);
    low + 10 * soft
  }

  /** Counting an ace as 11 instead of 1 adds 10 per ace. */
  lemma {:induction false} HighIsLowPlusAces(hand: seq<Card>)
    ensures HighSum(hand) == LowSum(hand) + 10 * AceCount(hand)
  {
    if hand != [] {
      HighIsLowPlusAces(hand[..|hand| - 1]);
    }
  }

  /** A hand without aces scores the plain sum of its cards, face cards 10 each. */
  lemma {:induction false} ScoreWithoutAces(hand: seq<Card>)
    requires forall i :: 0 <= i < |hand| ==> !hand[i].value.Ace?
    ensures AceCount(hand) == 0
    ensures Score(hand) == HighSum(hand)
  {
    if hand != [] {
      ScoreWithoutAces(hand[..|hand| - 1]);
    }
    HighIsLowPlusAces(hand);
  }

  /**
   * The score is the best total: no total the hand can reach without passing
   * 21 is higher, and if the hand can stay at or below 21 at all, it does.
   */
  lemma ScoreIsBest(hand: seq<Card>, k: int)
    requires 0 <= k <= AceCount(hand)
    requires LowSum(hand) + 10 * k <= 21
    ensures LowSum(hand) + 10 * k <= Score(hand) <= 21
  {
  }

  /** The examples the scoring rule is known by: A+A is 12, A+9 is 20, A+A+9 is 21. */
  lemma ScoreExamples()
    ensures Score([Card(Ace, Spades), Card(Ace, Hearts)]) == 12
    ensures Score([Card(Ace, Spades), Card(Pip(9), Clubs)]) == 20
    ensures Score([Card(Ace, Spades), Card(Ace, Hearts), Card(Pip(9), Clubs)]) == 21
  {
    var a, b, c := Card(Ace, Spades), Card(Ace, Hearts), Card(Pip(9), Clubs);
    PairSums(a, b);
    PairSums(a, c);
    assert [a, b, c] == [a, b] + [c];
    LowSumAppend([a, b], c);
  }

  /** Adding one card adds its aces-as-1 points to the least total. */
  lemma LowSumAppend(hand: seq<Card>, c: Card)
    ensures LowSum(hand + [c]) == LowSum(hand) + LowValue(c)
    ensures AceCount(hand + [c]) == AceCount(hand) + (if c.value.Ace? then 1 else 0)
  {
  }

  /** The totals of a two-card hand. */
  lemma PairSums(a: Card, b: Card)
    ensures LowSum([a, b]) == LowValue(a) + LowValue(b)
    ensures AceCount([a, b]) == (if a.value.Ace? then 1 else 0) + (if b.value.Ace? then 1 else 0)
  {
    assert [a] == [] + [a];
    LowSumAppend([], a);
    assert [a, b] == [a] + [b];
    LowSumAppend([a], b);
  }

  lemma {:induction false} LowSumConcat(hand: seq<Card>, more: seq<Card>)
    ensures LowSum(hand + more) == LowSum(hand) + LowSum(more)
  {
    if more != [] {
      var init, last := more[..|more| - 1], more[|more| - 1];
      assert hand + more == (hand + init) + [last];
      assert more == init + [last];
      LowSumConcat(hand, init);
      LowSumAppend(hand + init, last);
      LowSumAppend(init, last);
    } else {
      assert hand + more == hand;
    }
  }

  /** Every dealt card is worth at least 1, so k dealt cards are worth at least k. */
  lemma {:induction false} LowSumAtLeastLength(cards: seq<Card>)
    requires AllValid(cards)
    ensures LowSum(cards) >= |cards|
  {
    if cards != [] {
      LowSumAtLeastLength(cards[..|cards| - 1]);
    }
  }

  /**
   * Scoring as the page computes it: first every ace counts 11, then aces are
   * demoted to 1, one at a time, while the total is over 21.
   */
  method CalculateHand(hand: seq<Card>) returns (total: int)
    ensures total == Score(hand)
  {
    total := 0;
    var aces := 0;
    for i := 0 to |hand|
      invariant total == HighSum(hand[..i])
      invariant aces == AceCount(hand[..i])
    {
      assert hand[..i + 1][..i] == hand[..i];
      match hand[i].value
      case Ace =>
        aces := aces + 1;
        total := total + 11;
      case King | Queen | Jack =>
        total := total + 10;
      case Pip(n) =>
        total := total + n;
    }
    assert hand[..|hand|] == hand;
    HighIsLowPlusAces(hand);
    ghost var low, allAces := LowSum(hand), aces;
    while total > 21 && aces > 0
      invariant 0 <= aces <= allAces
      invariant total == low + 10 * aces
      invariant aces < allAces ==> low + 10 * aces > 11
    {
      total := total - 10;
      aces := aces - 1;
    }
  }

  /** Two dealt cards never score over 21: at worst they are two aces, scored 12. */
  lemma TwoCardScore(a: Card, b: Card)
    requires ValidCard(a) && ValidCard(b)
    ensures Score([a, b]) <= 21
  {
    PairSums(a, b);
  }

  /**
   * A two-card hand scores 21 exactly when its cards add up to 21 with the
   * ace at 11, that is, when it is an ace and a ten-point card.
   */
  lemma NaturalTwentyOne(a: Card, b: Card)
    requires ValidCard(a) && ValidCard(b)
    ensures Score([a, b]) == 21 <==> HighValue(a) + HighValue(b) == 21
    ensures Score([a, b]) == 21 <==>
      (a.value.Ace? && HighValue(b) == 10) || (HighValue(a) == 10 && b.value.Ace?)
  {
    PairSums(a, b);
  }

  /** The messages the page shows when a round ends. */
  datatype Message =
    | Natural     // "Blackjack! You win!"
    | PlayerBust  // "Bust! You lose."
    | DealerBust  // "Dealer busts! You win!"
    | DealerWins  // "Dealer wins!"
    | PlayerWins  // "You win!"
    | Push        // "Push! It's a tie."

  /**
   * How a stand ends, given the dealer's and the player's final totals: each
   * pair of totals gets exactly one of the four outcomes.
   */
  function StandOutcome(dealer: int, player: int): (m: Message)
    ensures m == DealerBust <==> dealer > 21
    ensures m == DealerWins <==> dealer <= 21 && dealer > player
    ensures m == PlayerWins <==> dealer <= 21 && player > dealer
    ensures m == Push <==> dealer <= 21 && dealer == player
  {
    if dealer > 21 then DealerBust
    else if dealer > player then DealerWins
    else if player > dealer then PlayerWins
    else Push
  }

  /**
   * The dealer's draws: starting from `before` and taking cards from the front
   * of `supply`, the dealer ends with `after`, leaving `rest`, having drawn
   * while the score was under 17 and stopped as soon as it was not.
   */
  predicate DealerDrew(before: seq<Card>, supply: seq<Card>, after: seq<Card>, rest: seq<Card>) {
    DealerDrawing(before, supply, after, rest) && Score(after) >= 17
  }

  /** Part way through the dealer's draws: every card so far was drawn on a score under 17. */
  predicate DealerDrawing(before: seq<Card>, supply: seq<Card>, hand: seq<Card>, rest: seq<Card>) {
    && |before| <= |hand| <= |before| + |supply|
    && hand == before + supply[..|hand| - |before|]
    && rest == supply[|hand| - |before|..]
    && forall m :: |before| <= m < |hand| ==> Score(hand[..m]) < 17
  }

  /** One more draw on a score under 17 keeps to the dealer's rule. */
  lemma DealerDrawStep(before: seq<Card>, supply: seq<Card>, hand: seq<Card>, rest: seq<Card>)
    requires DealerDrawing(before, supply, hand, rest)
    requires Score(hand) < 17 && rest != []
    ensures DealerDrawing(before, supply, hand + [rest[0]], rest[1..])
  {
    var next := hand + [rest[0]];
    var n := |hand| - |before|;
    assert supply[..n + 1] == supply[..n] + [rest[0]];
    assert next[..|hand|] == hand;
    forall m | |before| <= m < |next|
      ensures Score(next[..m]) < 17
    {
      if m < |hand| {
        assert next[..m] == hand[..m];
      }
    }
  }

  /** Every prefix of the dealer's hand that extends the start is the start plus the first cards drawn. */
  lemma DrawnPrefix(before: seq<Card>, supply: seq<Card>, hand: seq<Card>, rest: seq<Card>, n: int)
    requires DealerDrawing(before, supply, hand, rest)
    requires |before| <= n <= |hand|
    ensures hand[..n] == before + supply[..n - |before|]
  {
  }

  /** The dealer's rule leaves no choice: the same start and supply give the same hand. */
  lemma DealerDrewIsDeterministic(before: seq<Card>, supply: seq<Card>,
                                  after1: seq<Card>, rest1: seq<Card>,
                                  after2: seq<Card>, rest2: seq<Card>)
    requires DealerDrew(before, supply, after1, rest1)
    requires DealerDrew(before, supply, after2, rest2)
    ensures after1 == after2 && rest1 == rest2
  {
    if |after1| < |after2| {
      DrawnPrefix(before, supply, after2, rest2, |after1|);
      assert false;
    } else if |after2| < |after1| {
      DrawnPrefix(before, supply, after1, rest1, |after2|);
      assert false;
    }
  }

  /**
   * The dealer takes at most 17 - LowSum(before) cards, because every card adds
   * at least 1 to the aces-as-1 total; so a supply of that many cards suffices.
   */
  lemma DealerDrawLimit(before: seq<Card>, supply: seq<Card>, after: seq<Card>, rest: seq<Card>)
    requires AllValid(supply)
    requires DealerDrew(before, supply, after, rest)
    ensures |after| - |before| <= if LowSum(before) >= 17 then 0 else 17 - LowSum(before)
  {
    var n := |after| - |before|;
    if n > 0 {
      var drawn := supply[..n - 1];
      assert after[..|after| - 1] == before + drawn;
      assert AllValid(drawn);
      LowSumConcat(before, drawn);
      LowSumAtLeastLength(drawn);
    }
  }

  /**
   * A stand on 17 against a dealer showing 6 and a queen: the dealer draws a 4,
   * stops at 20 without touching the next card, and wins.
   */
  lemma StandOnSeventeen()
    ensures
      var six, queen, four, five := Card(Pip(6), Hearts), Card(Queen, Spades), Card(Pip(4), Clubs), Card(Pip(5), Clubs);
      && DealerDrew([six, queen], [four, five], [six, queen, four], [five])
      && Score([six, queen, four]) == 20
      && StandOutcome(20, Score([Card(Pip(10), Hearts), Card(Pip(7), Spades)])) == DealerWins
  {
    var six, queen, four, five := Card(Pip(6), Hearts), Card(Queen, Spades), Card(Pip(4), Clubs), Card(Pip(5), Clubs);
    PairSums(six, queen);
    PairSums(Card(Pip(10), Hearts), Card(Pip(7), Spades));
    assert [six, queen, four] == [six, queen] + [four];
    LowSumAppend([six, queen], four);
    assert [six, queen, four][..2] == [six, queen];
    assert [six, queen] + [four, five][..1] == [six, queen, four];
  }

  /** The response to a request for a new shuffled deck: its id and its cards in dealing order. */
  datatype NewDeck = NewDeck(id: string, cards: seq<Card>)

  /** The page's game state, with the remote deck it draws from. */
  class Round {
    var deckId: string
    var playerHand: seq<Card>
    var dealerHand: seq<Card>
    var gameOver: bool
    /** The cards still in the remote deck named by deckId. */
    var shoe: seq<Card>
    /** The page's result line; None while it is blank. */
    var result: Option<Message>

    ghost predicate CardsValid()
      reads this
    {
      AllValid(playerHand) && AllValid(dealerHand) && AllValid(shoe)
    }

    /** The shown result agrees with the hands it was decided on. */
    ghost predicate ResultAgrees()
      reads this
    {
      match result
      case None => true
      case Some(Natural) => |playerHand| == 2 && Score(playerHand) == 21
      case Some(PlayerBust) => Score(playerHand) > 21
      case Some(m) =>
        Score(dealerHand) >= 17 && m == StandOutcome(Score(dealerHand), Score(playerHand))
    }

    /**
     * A round is over exactly when a result is shown, and a player still
     * playing is under 21.
     */
    ghost predicate Valid()
      reads this
    {
      && CardsValid()
      && (gameOver <==> result.Some?)
      && (!gameOver ==> Score(playerHand) < 21)
      && ResultAgrees()
    }

    constructor ()
      ensures Valid()
      ensures deckId == "" && playerHand == [] && dealerHand == [] && !gameOver
      ensures shoe == [] && result == None
    {
      deckId := "";
      playerHand := [];
      dealerHand := [];
      gameOver := false;
      shoe := [];
      result := None;
    }

    /**
     * Draws `count` cards from the front of the deck. A draw of four replaces
     * the dealer's hand with the four cards and returns nothing; any other
     * draw returns its first card. An internal step of deal, hit and stand:
     * it does not keep the round invariant by itself.
     */
    method DrawCards(count: nat) returns (card: Option<Card>)
      requires 1 <= count <= |shoe|
      modifies this
      ensures shoe == old(shoe)[count..]
      ensures count == 4 ==> card == None && dealerHand == old(shoe)[..4]
      ensures count != 4 ==> card == Some(old(shoe)[0]) && dealerHand == old(dealerHand)
      ensures deckId == old(deckId) && playerHand == old(playerHand)
      ensures gameOver == old(gameOver) && result == old(result)
    {
      var cards := shoe[..count];
      shoe := shoe[count..];
      if count == 4 {
        dealerHand := cards;
        card := None;
      } else {
        card := Some(cards[0]);
      }
    }

    /**
     * Ends the round with `message`; the hands stay as they are. An internal
     * step of deal, hit and stand, which choose a message that fits the hands:
     * it does not keep the round invariant by itself.
     */
    method EndGame(message: Message)
      modifies this
      ensures gameOver && result == Some(message)
      ensures deckId == old(deckId) && playerHand == old(playerHand)
      ensures dealerHand == old(dealerHand) && shoe == old(shoe)
    {
      gameOver := true;
      result := Some(message);
    }

    /**
     * Starts a new round on a freshly shuffled deck: of the first four cards
     * the player gets the first and third, the dealer the second and fourth,
     * and a player holding 21 wins at once. A failed shuffle request changes
     * nothing.
     */
    method DealGame(response: Option<NewDeck>)
      requires Valid()
      requires response.Some? ==> |response.value.cards| >= 4 && AllValid(response.value.cards)
      modifies this
      ensures Valid()
      ensures response.None? ==> unchanged(this)
      ensures response.Some? ==>
        var cards := response.value.cards;
        && deckId == response.value.id
        && playerHand == [cards[0], cards[2]]
        && dealerHand == [cards[1], cards[3]]
        && shoe == cards[4..]
        && gameOver == (Score(playerHand) == 21)
        && result == (if gameOver then Some(Natural) else None)
    {
      if response.None? {
        return;
      }
      var deck := response.value;
      deckId := deck.id;
      shoe := deck.cards;
      playerHand := [];
      dealerHand := [];
      gameOver := false;

      var none := DrawCards(4);

      playerHand := [dealerHand[0], dealerHand[2]];
      dealerHand := [dealerHand[1], dealerHand[3]];
      result := None;
      TwoCardScore(playerHand[0], playerHand[1]);

      var total := CalculateHand(playerHand);
      if total == 21 {
        EndGame(Natural);
      }
    }

    /**
     * The player takes one card. Over 21 ends the round as a bust; exactly 21
     * makes the player stand; otherwise play goes on. The dealer's hand only
     * changes through that stand.
     */
    method Hit()
      requires Valid() && !gameOver
      requires |shoe| >= 1 && LowSum(dealerHand) + |shoe| > 17
      modifies this
      ensures Valid()
      ensures deckId == old(deckId)
      ensures playerHand == old(playerHand) + [old(shoe)[0]]
      ensures Score(playerHand) > 21 ==>
        gameOver && result == Some(PlayerBust) && dealerHand == old(dealerHand) && shoe == old(shoe)[1..]
      ensures Score(playerHand) < 21 ==>
        !gameOver && result == old(result) && dealerHand == old(dealerHand) && shoe == old(shoe)[1..]
      ensures Score(playerHand) == 21 ==>
        gameOver && DealerDrew(old(dealerHand), old(shoe)[1..], dealerHand, shoe)
        && result == Some(StandOutcome(Score(dealerHand), 21))
    {
      var card := DrawCards(1);
      playerHand := playerHand + [card.value];

      var total := CalculateHand(playerHand);
      if total > 21 {
        EndGame(PlayerBust);
      } else if total == 21 {
        Stand();
      }
    }

    /**
     * The player stands: the dealer draws while under 17, then the totals are
     * compared. Only the dealer's hand grows.
     */
    method Stand()
      requires CardsValid() && !gameOver
      requires LowSum(dealerHand) + |shoe| >= 17
      modifies this
      ensures Valid()
      ensures deckId == old(deckId) && playerHand == old(playerHand)
      ensures gameOver && DealerDrew(old(dealerHand), old(shoe), dealerHand, shoe)
      ensures result == Some(StandOutcome(Score(dealerHand), Score(playerHand)))
    {
      var dealerTotal := CalculateHand(dealerHand);

      while dealerTotal < 17
        invariant CardsValid() && !gameOver
        invariant deckId == old(deckId) && playerHand == old(playerHand)
        invariant dealerTotal == Score(dealerHand)
        invariant DealerDrawing(old(dealerHand), old(shoe), dealerHand, shoe)
        invariant LowSum(dealerHand) + |shoe| >= 17
        decreases 17 - LowSum(dealerHand)
      {
        DealerDrawStep(old(dealerHand), old(shoe), dealerHand, shoe);
        var card := DrawCards(1);
        LowSumAppend(dealerHand, card.value);
        dealerHand := dealerHand + [card.value];
        dealerTotal := CalculateHand(dealerHand);
      }

      var playerTotal := CalculateHand(playerHand);
      var message;
      if dealerTotal > 21 {
        message := DealerBust;
      } else if dealerTotal > playerTotal {
        message := DealerWins;
      } else if playerTotal > dealerTotal {
        message := PlayerWins;
      } else {
        message := Push;
      }
      EndGame(message);
    }
  }
}
