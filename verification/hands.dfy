/** A hand: an ordered, append-only list of cards, and its score.
    Every Ace counts 1 in the base sum; one +10 "soft Ace" bonus is added
    when the base sum is at most 11 and the hand holds an Ace. */
module Hands {
  import opened Cards

  /** Base sum: every card at its point value, every Ace as 1. */
  function Sum(cards: seq<Card>): (s: nat)
    ensures |cards| <= s <= 10 * |cards|
  {
    if cards == [] then 0 else Value(cards[0]) + Sum(cards[1..])
  }

  /** Number of Aces in the hand. */
  function AceCount(cards: seq<Card>): (n: nat)
    ensures n <= |cards|
    ensures n > 0 <==> Ace in cards
  {
    if cards == [] then 0 else (if cards[0] == Ace then 1 else 0) + AceCount(cards[1..])
  }

  predicate ContainsAce(cards: seq<Card>) {
    Ace in cards
  }

  /** The soft-Ace bonus may be used when the base sum leaves room for it. */
  predicate CanUseAceExtendedValue(cards: seq<Card>) {
    Sum(cards) <= 11 && ContainsAce(cards)
  }

  /** The hand's score. The bonus never pushes a hand over 21: a score above 21
      is always the plain base sum. */
  function HandValue(cards: seq<Card>): (v: nat)
    ensures Sum(cards) <= v
    ensures v > 21 ==> v == Sum(cards)
    ensures v != Sum(cards) ==> ContainsAce(cards) && v <= 21
  {
    if CanUseAceExtendedValue(cards) then Sum(cards) + 10 else Sum(cards)
  }

  /** Blackjack: a score of 21 made with exactly two cards. */
  predicate IsBlackJack(cards: seq<Card>) {
    HandValue(cards) == 21 && |cards| == 2
  }

  /** Bust: a score above 21. */
  predicate IsBust(cards: seq<Card>) {
    HandValue(cards) > 21
  }

  /** Appending a card adds its point value to the base sum. */
  lemma {:induction false} SumAppend(cards: seq<Card>, c: Card)
    ensures Sum(cards + [c]) == Sum(cards) + Value(c)
  {
    if cards != [] {
      assert (cards + [c])[1..] == cards[1..] + [c];
      SumAppend(cards[1..], c);
    }
  }

  /** The base sum of two runs of cards is the sum of their base sums. */
  lemma {:induction false} SumConcat(cards: seq<Card>, more: seq<Card>)
    ensures Sum(cards + more) == Sum(cards) + Sum(more)
  {
    if cards != [] {
      assert (cards + more)[1..] == cards[1..] + more;
      SumConcat(cards[1..], more);
    } else {
      assert cards + more == more;
    }
  }

  /** The total obtained by promoting k of the Aces from 1 to 11. */
  function SoftTotal(cards: seq<Card>, k: nat): (t: nat) {
    Sum(cards) + 10 * k
  }

  /** k Aces can be promoted without going over 21. */
  predicate Admissible(cards: seq<Card>, k: nat) {
    k <= AceCount(cards) && SoftTotal(cards, k) <= 21
  }

  /** Reference definition of a Blackjack score: the largest total reachable by
      counting each Ace as 1 or 11 that does not exceed 21, or the all-ones sum when
      every choice busts. The single-bonus rule of HandValue computes exactly that:
      at most one Ace is ever promoted, and it is promoted whenever that fits. */
  lemma ValueIsBestSoftTotal(cards: seq<Card>)
    ensures Sum(cards) <= 21 ==>
      exists k: nat :: Admissible(cards, k) && HandValue(cards) == SoftTotal(cards, k)
    ensures forall k: nat :: Admissible(cards, k) ==> SoftTotal(cards, k) <= HandValue(cards)
    ensures Sum(cards) > 21 ==> HandValue(cards) == Sum(cards)
  {
    forall k: nat | Admissible(cards, k)
      ensures SoftTotal(cards, k) <= HandValue(cards)
    {
      // Two promoted Aces would need a base sum of at most 1, but two Aces alone sum to 2.
      assert k <= 1;
    }
    if Sum(cards) <= 21 {
      if CanUseAceExtendedValue(cards) {
        assert Admissible(cards, 1) && HandValue(cards) == SoftTotal(cards, 1);
      } else {
        assert Admissible(cards, 0) && HandValue(cards) == SoftTotal(cards, 0);
      }
    }
  }

  /** Blackjack is exactly an Ace together with a ten-valued card, in either order. */
  lemma BlackJackIsAceAndTen(cards: seq<Card>)
    ensures IsBlackJack(cards) <==>
      |cards| == 2 &&
      ((cards[0] == Ace && Value(cards[1]) == 10) || (Value(cards[0]) == 10 && cards[1] == Ace))
  {
    if |cards| == 2 {
      assert cards[1..][1..] == [];
      assert Sum(cards) == Value(cards[0]) + Value(cards[1]);
    }
  }

  /** A hand is bust exactly when its base sum is over 21. */
  lemma BustIffSumOver21(cards: seq<Card>)
    ensures IsBust(cards) <==> Sum(cards) > 21
  {
  }

  /** Two cards can never bust: at most 20 points, or 21 with the Ace bonus. */
  lemma TwoCardsNeverBust(cards: seq<Card>)
    requires |cards| <= 2
    ensures !IsBust(cards)
  {
  }

  /** A hand whose fields are updated in place; it only ever grows at the end. */
  class Hand {
    var cards: seq<Card>

    /** Copies the starting cards, one at a time, in order. */
    constructor (initial: seq<Card>)
      ensures cards == initial
    {
      var list: seq<Card> := [];
      for i := 0 to |initial|
        invariant list == initial[..i]
      {
        list := list + [initial[i]];
      }
      assert initial[..|initial|] == initial;
      cards := list;
    }

    /** Appends one card at the end; nothing else changes. */
    method Add(c: Card)
      modifies this
      ensures cards == old(cards) + [c]
      ensures Sum(cards) == old(Sum(cards)) + Value(c)
    {
      SumAppend(cards, c);
      cards := cards + [c];
    }
  }
}
