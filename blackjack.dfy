/**
 * The blackjack table of sabacc.js: the 52-card deck, drawing from its end,
 * card values, the hand score with its ace softening, the player's bust
 * check, the dealer's rule of hitting below 17 and the outcome decision.
 * The shuffle is random, so the deck a method works on is whatever
 * sequence the table holds.
 */
module Blackjack {
  import opened Options

  datatype Suit = Hearts | Diamonds | Clubs | Spades

  /** The number cards' values, '2' to '10'. */
  type PipValue = n: int | 2 <= n <= 10 witness 2

  datatype Rank = Pip(n: PipValue) | Jack | Queen | King | Ace

  datatype Card = Card(suit: Suit, rank: Rank)

  /** `suits`, in order. */
  const Suits: seq<Suit> := [Hearts, Diamonds, Clubs, Spades]

  /** `values`, in order. */
  const Ranks: seq<Rank> := [Pip(2), Pip(3), Pip(4), Pip(5), Pip(6), Pip(7), Pip(8), Pip(9), Pip(10),
                             Jack, Queen, King, Ace]

  // ------------------------------------------------------------------ deck

  function SuitIndex(s: Suit): (i: int)
    ensures 0 <= i < |Suits| && Suits[i] == s
  {
    match s
    case Hearts => 0
    case Diamonds => 1
    case Clubs => 2
    case Spades => 3
  }

  function RankIndex(r: Rank): (i: int)
    ensures 0 <= i < |Ranks| && Ranks[i] == r
  {
    match r
    case Pip(n) => n - 2
    case Jack => 9
    case Queen => 10
    case King => 11
    case Ace => 12
  }

  /** The thirteen cards the inner loop of `createDeck` pushes for one suit. */
  function SuitRow(s: Suit): seq<Card>
  {
    seq(|Ranks|, v requires 0 <= v < |Ranks| => Card(s, Ranks[v]))
  }

  /** The deck once the outer loop of `createDeck` has done `k` suits. */
  function DeckUpTo(k: int): seq<Card>
    requires 0 <= k <= |Suits|
  {
    if k == 0 then [] else DeckUpTo(k - 1) + SuitRow(Suits[k - 1])
  }

  /** The deck `createDeck` builds. */
  function FullDeck(): seq<Card>
  {
    DeckUpTo(|Suits|)
  }

  /** Suit-major order: card `13 * s + v` is value `v` of suit `s`. */
  lemma {:induction false} DeckUpToOrder(k: int)
    requires 0 <= k <= |Suits|
    ensures |DeckUpTo(k)| == 13 * k
    ensures forall s, v :: 0 <= s < k && 0 <= v < 13 ==> DeckUpTo(k)[13 * s + v] == Card(Suits[s], Ranks[v])
  {
    if k > 0 {
      DeckUpToOrder(k - 1);
      var prev := DeckUpTo(k - 1);
      assert DeckUpTo(k) == prev + SuitRow(Suits[k - 1]);
      forall s, v | 0 <= s < k && 0 <= v < 13
        ensures DeckUpTo(k)[13 * s + v] == Card(Suits[s], Ranks[v])
      {
        if s < k - 1 {
          assert 13 * s + v < 13 * (k - 1);
          assert DeckUpTo(k)[13 * s + v] == prev[13 * s + v];
        } else {
          assert DeckUpTo(k)[13 * s + v] == SuitRow(Suits[k - 1])[v];
        }
      }
    }
  }

  /** `createDeck` yields 52 cards, card `13 * s + v` being value `v` of
      suit `s`. */
  lemma FullDeckOrder()
    ensures |FullDeck()| == 52
    ensures forall s, v :: 0 <= s < 4 && 0 <= v < 13 ==> FullDeck()[13 * s + v] == Card(Suits[s], Ranks[v])
  {
    DeckUpToOrder(|Suits|);
  }

  /** Every card is in the deck. */
  lemma FullDeckComplete(c: Card)
    ensures c in FullDeck()
  {
    FullDeckOrder();
    assert FullDeck()[13 * SuitIndex(c.suit) + RankIndex(c.rank)] == c;
  }

  /** No card is in the deck twice. */
  lemma FullDeckDistinct(i: int, j: int)
    requires 0 <= i < j < |FullDeck()|
    ensures FullDeck()[i] != FullDeck()[j]
  {
    FullDeckOrder();
    var d := FullDeck();
    assert d[13 * (i / 13) + i % 13] == Card(Suits[i / 13], Ranks[i % 13]);
    assert d[13 * (j / 13) + j % 13] == Card(Suits[j / 13], Ranks[j % 13]);
    if i / 13 == j / 13 {
      RanksDistinct(i % 13, j % 13);
    } else {
      SuitsDistinct(i / 13, j / 13);
    }
  }

  lemma SuitsDistinct(a: int, b: int)
    requires 0 <= a < |Suits| && 0 <= b < |Suits| && a != b
    ensures Suits[a] != Suits[b]
  {
    assert SuitIndex(Suits[a]) == a && SuitIndex(Suits[b]) == b;
  }

  lemma RanksDistinct(a: int, b: int)
    requires 0 <= a < |Ranks| && 0 <= b < |Ranks| && a != b
    ensures Ranks[a] != Ranks[b]
  {
    assert RankIndex(Ranks[a]) == a && RankIndex(Ranks[b]) == b;
  }

  // ----------------------------------------------------------------- score

  /** `getCardValue`: ten for a face card, eleven for an ace, the number
      otherwise. */
  function CardValue(c: Card): (v: int)
    ensures 2 <= v <= 11
    ensures v == 11 <==> c.rank == Ace
    ensures v == 10 <==> c.rank in {Pip(10), Jack, Queen, King}
    ensures c.rank.Pip? ==> v == c.rank.n
  {
    match c.rank
    case Pip(n) => n
    case Ace => 11
    case _ => 10
  }

  /** The first loop of `calculateScore`: every card at its value, aces at 11. */
  function RawSum(hand: seq<Card>): int
  {
    if hand == [] then 0 else RawSum(hand[..|hand| - 1]) + CardValue(hand[|hand| - 1])
  }

  function AceCount(hand: seq<Card>): nat
  {
    if hand == [] then 0 else AceCount(hand[..|hand| - 1]) + (if hand[|hand| - 1].rank == Ace then 1 else 0)
  }

  /** The second loop of `calculateScore`: while over 21, count one more
      ace as 1 instead of 11. */
  function Softened(score: int, aces: nat): int
    decreases aces
  {
    if score > 21 && aces > 0 then Softened(score - 10, aces - 1) else score
  }

  /** `calculateScore(hand)`. */
  function Score(hand: seq<Card>): int
  {
    Softened(RawSum(hand), AceCount(hand))
  }

  /** The score with every ace counted as 1. */
  function HardScore(hand: seq<Card>): int
  {
    RawSum(hand) - 10 * AceCount(hand)
  }

  /** `calculateScore(hand)`, with its two loops. */
  method CalculateScore(hand: seq<Card>) returns (score: int)
    ensures score == Score(hand)
  {
    score := 0;
    var aceCount := 0;
    for i := 0 to |hand|
      invariant score == RawSum(hand[..i]) && aceCount == AceCount(hand[..i])
    {
      assert hand[..i + 1][..i] == hand[..i];
      score := score + CardValue(hand[i]);
      if hand[i].rank == Ace {
        aceCount := aceCount + 1;
      }
    }
    assert hand[..|hand|] == hand;
    while score > 21 && aceCount > 0
      invariant 0 <= aceCount
      invariant Softened(score, aceCount) == Score(hand)
      decreases aceCount
    {
      score := score - 10;
      aceCount := aceCount - 1;
    }
  }

  /** The softening counts the fewest aces as 1 that bring the score to 21
      or below, or all of them when even that is not enough. */
  lemma {:induction false} SoftenedCounts(score: int, aces: nat)
    ensures exists k ::
      && 0 <= k <= aces && Softened(score, aces) == score - 10 * k
      && (Softened(score, aces) <= 21 || k == aces)
      && forall j :: 0 <= j < k ==> score - 10 * j > 21
    decreases aces
  {
    if score > 21 && aces > 0 {
      SoftenedCounts(score - 10, aces - 1);
      var k :| 0 <= k <= aces - 1 && Softened(score - 10, aces - 1) == score - 10 - 10 * k
        && (Softened(score - 10, aces - 1) <= 21 || k == aces - 1)
        && forall j :: 0 <= j < k ==> score - 10 - 10 * j > 21;
      forall j | 0 <= j < k + 1
        ensures score - 10 * j > 21
      {
        if j > 0 {
          assert score - 10 - 10 * (j - 1) > 21;
        }
      }
      assert Softened(score, aces) == score - 10 * (k + 1);
    } else {
      assert Softened(score, aces) == score - 10 * 0;
    }
  }

  /** `calculateScore` is the raw sum less 10 for each of the fewest aces
      that bring it to 21 or below (all aces when none suffice): 0 for an
      empty hand and the raw sum when there is no ace. */
  lemma ScoreSoftening(hand: seq<Card>)
    ensures exists k ::
      && 0 <= k <= AceCount(hand) && Score(hand) == RawSum(hand) - 10 * k
      && (Score(hand) <= 21 || k == AceCount(hand))
      && forall j :: 0 <= j < k ==> RawSum(hand) - 10 * j > 21
    ensures hand == [] ==> Score(hand) == 0
    ensures AceCount(hand) == 0 ==> Score(hand) == RawSum(hand)
  {
    SoftenedCounts(RawSum(hand), AceCount(hand));
  }

  /** An independent closed form: over 21, the raw sum less ten times the
      smaller of the ace count and the number of tens it takes to reach 21. */
  function ClosedScore(raw: int, aces: nat): int
  {
    if raw <= 21 then raw
    else
      var needed := (raw - 21 + 9) / 10;
      raw - 10 * (if aces < needed then aces else needed)
  }

  lemma {:induction false} SoftenedClosed(score: int, aces: nat)
    ensures Softened(score, aces) == ClosedScore(score, aces)
    decreases aces
  {
    if score > 21 && aces > 0 {
      SoftenedClosed(score - 10, aces - 1);
      var needed := (score - 21 + 9) / 10;
      assert needed >= 1;
      if score - 10 > 21 {
        assert (score - 10 - 21 + 9) / 10 == needed - 1;
      } else {
        assert needed == 1;
      }
    }
  }

  /** `calculateScore` agrees with the closed form. */
  lemma ScoreClosedForm(hand: seq<Card>)
    ensures Score(hand) == ClosedScore(RawSum(hand), AceCount(hand))
  {
    SoftenedClosed(RawSum(hand), AceCount(hand));
  }

  /** Every card adds at least one point with aces counted as 1, and the
      score never falls below that count. */
  lemma {:induction false} HardScoreBounds(hand: seq<Card>)
    ensures HardScore(hand) >= |hand|
    ensures Score(hand) >= HardScore(hand)
  {
    if hand != [] {
      HardScoreBounds(hand[..|hand| - 1]);
    }
    SoftenedAtLeast(RawSum(hand), AceCount(hand));
  }

  lemma {:induction false} SoftenedAtLeast(score: int, aces: nat)
    ensures Softened(score, aces) >= score - 10 * aces
    decreases aces
  {
    if score > 21 && aces > 0 {
      SoftenedAtLeast(score - 10, aces - 1);
    }
  }

  // --------------------------------------------------------------- outcome

  /** How a round ends: `checkForBust`'s message or one of the four of
      `determineWinner`. */
  datatype Outcome = PlayerBusted | DealerBusted | PlayerWins | DealerWins | Push

  /** The decision of `determineWinner`: a dealer over 21 loses whatever
      the player holds; otherwise the higher score wins and equal scores
      push. */
  function Decide(pScore: int, dScore: int): (o: Outcome)
    ensures o != PlayerBusted
    ensures o == DealerBusted <==> dScore > 21
    ensures o == PlayerWins <==> dScore <= 21 && pScore > dScore
    ensures o == DealerWins <==> dScore <= 21 && pScore < dScore
    ensures o == Push <==> dScore <= 21 && pScore == dScore
  {
    if dScore > 21 then DealerBusted
    else if pScore > dScore then PlayerWins
    else if pScore < dScore then DealerWins
    else Push
  }

  /** With neither side over 21 the rule is symmetric: swapping the hands
      swaps the winner and keeps a push. */
  lemma DecideSwap(pScore: int, dScore: int)
    requires pScore <= 21 && dScore <= 21
    ensures Decide(pScore, dScore) == PlayerWins <==> Decide(dScore, pScore) == DealerWins
    ensures Decide(pScore, dScore) == Push <==> Decide(dScore, pScore) == Push
  {
  }

  function Reversed<T>(s: seq<T>): (r: seq<T>)
    ensures |r| == |s| && forall i :: 0 <= i < |s| ==> r[i] == s[|s| - 1 - i]
  {
    if s == [] then [] else [s[|s| - 1]] + Reversed(s[..|s| - 1])
  }

  // ----------------------------------------------------------------- table

  /** The globals of sabacc.js: the deck, the two hands and whether the
      round is over, with the message `endGame` shows as `outcome`. */
  class Table {
    var deck: seq<Card>
    var playerHand: seq<Card>
    var dealerHand: seq<Card>
    var gameOver: bool
    var outcome: Option<Outcome>

    /** The globals before the first `startGame`. */
    constructor ()
      ensures deck == [] && playerHand == [] && dealerHand == [] && !gameOver && outcome.None?
    {
      deck := [];
      playerHand := [];
      dealerHand := [];
      gameOver := false;
      outcome := None;
    }

    /** `createDeck()`. */
    method CreateDeck()
      modifies this`deck
      ensures deck == FullDeck()
    {
      deck := [];
      for s := 0 to |Suits|
        invariant deck == DeckUpTo(s)
      {
        for v := 0 to |Ranks|
          invariant deck == DeckUpTo(s) + SuitRow(Suits[s])[..v]
        {
          assert SuitRow(Suits[s])[..v + 1] == SuitRow(Suits[s])[..v] + [Card(Suits[s], Ranks[v])];
          deck := deck + [Card(Suits[s], Ranks[v])];
        }
        assert SuitRow(Suits[s])[..|Ranks|] == SuitRow(Suits[s]);
      }
    }

    /** `drawCard()`: pops the last card; on an empty deck there is none. */
    method DrawCard() returns (card: Option<Card>)
      modifies this`deck
      ensures old(deck) == [] ==> card.None? && deck == []
      ensures old(deck) != [] ==> card == Some(old(deck)[|old(deck)| - 1]) && deck == old(deck)[..|old(deck)| - 1]
    {
      if deck == [] {
        return None;
      }
      card := Some(deck[|deck| - 1]);
      deck := deck[..|deck| - 1];
    }

    /** `endGame(message)`, without the buttons and the rendering. */
    method EndGame(o: Outcome)
      modifies this`gameOver, this`outcome
      ensures gameOver && outcome == Some(o)
    {
      gameOver := true;
      outcome := Some(o);
    }

    /** `checkForBust()`: the round ends exactly when the player's score
        is over 21. */
    method CheckForBust()
      modifies this`gameOver, this`outcome
      ensures Score(playerHand) > 21 ==> gameOver && outcome == Some(PlayerBusted)
      ensures Score(playerHand) <= 21 ==> gameOver == old(gameOver) && outcome == old(outcome)
    {
      var pScore := CalculateScore(playerHand);
      if pScore > 21 {
        EndGame(PlayerBusted);
      }
    }

    /** `determineWinner()`. */
    method DetermineWinner()
      modifies this`gameOver, this`outcome
      ensures gameOver && outcome == Some(Decide(Score(playerHand), Score(dealerHand)))
    {
      var pScore := CalculateScore(playerHand);
      var dScore := CalculateScore(dealerHand);
      EndGame(Decide(pScore, dScore));
    }

    /** `dealerTurn()`: the dealer takes cards from the end of the deck
        while the score is below 17, then the winner is decided. When the
        deck runs out first, `ok` is false and nothing is decided. */
    method DealerTurn() returns (ok: bool)
      modifies this`deck, this`dealerHand, this`gameOver, this`outcome
      ensures |deck| <= |old(deck)| && deck == old(deck)[..|deck|]
      ensures dealerHand == old(dealerHand) + Reversed(old(deck)[|deck|..])
      ensures forall k :: |old(dealerHand)| <= k < |dealerHand| ==> Score(dealerHand[..k]) < 17
      ensures ok ==> Score(dealerHand) >= 17
      ensures ok ==> gameOver && outcome == Some(Decide(Score(playerHand), Score(dealerHand)))
      ensures !ok ==> deck == [] && Score(dealerHand) < 17 && gameOver == old(gameOver) && outcome == old(outcome)
      ensures |old(deck)| >= 17 ==> ok
    {
      ghost var deck0 := deck;
      ghost var hand0 := dealerHand;
      HardScoreBounds(dealerHand);
      var score := CalculateScore(dealerHand);
      while score < 17
        invariant |deck| <= |deck0| && deck == deck0[..|deck|]
        invariant dealerHand == hand0 + Reversed(deck0[|deck|..])
        invariant score == Score(dealerHand)
        invariant forall k :: |hand0| <= k < |dealerHand| ==> Score(dealerHand[..k]) < 17
        invariant HardScore(dealerHand) >= |deck0| - |deck|
        invariant gameOver == old(gameOver) && outcome == old(outcome)
        decreases |deck|
      {
        HardScoreBounds(dealerHand);
        var card := DrawCard();
        if card.None? {
          return false;
        }
        DrawnFromEnd(deck0, |deck| + 1, hand0, dealerHand);
        ghost var before := dealerHand;
        dealerHand := dealerHand + [card.value];
        forall k | |hand0| <= k < |dealerHand|
          ensures Score(dealerHand[..k]) < 17
        {
          if k < |before| {
            assert dealerHand[..k] == before[..k];
          } else {
            assert dealerHand[..k] == before;
          }
        }
        HardScoreBounds(dealerHand);
        score := CalculateScore(dealerHand);
      }
      DetermineWinner();
      ok := true;
    }
  }

  /** One more card drawn from the end. */
  lemma DrawnFromEnd(deck0: seq<Card>, n: int, hand0: seq<Card>, hand: seq<Card>)
    requires 0 < n <= |deck0| && hand == hand0 + Reversed(deck0[n..])
    ensures hand + [deck0[..n][n - 1]] == hand0 + Reversed(deck0[n - 1..])
  {
    assert deck0[n - 1..] == [deck0[n - 1]] + deck0[n..];
    assert Reversed(deck0[n - 1..]) == Reversed(deck0[n..]) + [deck0[n - 1]];
  }
}
