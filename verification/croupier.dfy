/** The dealer ("croupier"): owns exactly one hand and receives cards into it.
    The draw policy is not here; it belongs to the round (module Games). */
module Croupiers {
  import opened Cards
  import opened Hands

  class Croupier {
    /** The dealer's hand; the reference never changes, its cards do. */
    const hand: Hand

    constructor (initial: seq<Card>)
      ensures fresh(hand)
      ensures hand.cards == initial
    {
      hand := new Hand(initial);
    }

    /** Forwards the card to the hand, which appends it at the end. */
    method AddCard(c: Card)
      modifies hand
      ensures hand.cards == old(hand.cards) + [c]
      ensures Sum(hand.cards) == old(Sum(hand.cards)) + Value(c)
    {
      hand.Add(c);
    }
  }
}
