/** The thirteen card ranks and their fixed point values. */
module Cards {

  /** The ranks, in the enumeration's declaration order (Ace first, King last). */
  datatype Card = Ace | Two | Three | Four | Five | Six | Seven | Eight | Nine | Ten | Jack | Queen | King

  /** Position of the rank in the declaration order, as the enumeration's ordinal. */
  function Ordinal(c: Card): (n: nat)
    ensures n < 13
    ensures c == Ace <==> n == 0
  {
    match c
    case Ace => 0
    case Two => 1
    case Three => 2
    case Four => 3
    case Five => 4
    case Six => 5
    case Seven => 6
    case Eight => 7
    case Nine => 8
    case Ten => 9
    case Jack => 10
    case Queen => 11
    case King => 12
  }

  /** Jack, Queen and King are the face cards. */
  predicate IsFace(c: Card) {
    c == King || c == Queen || c == Jack
  }

  /** The point value of a card: 10 for a face card, otherwise ordinal + 1,
      so the Ace is worth 1 here (its 11 is a bonus added by the hand). */
  function Value(c: Card): (v: nat)
    ensures 1 <= v <= 10
    ensures v == 1 <==> c == Ace
    ensures v == 10 <==> IsFace(c) || c == Ten
  {
    if IsFace(c) then 10 else Ordinal(c) + 1
  }

  /** The number cards are worth their number: Two is 2, ..., Ten is 10. */
  lemma NumberCardValues()
    ensures Value(Two) == 2 && Value(Three) == 3 && Value(Four) == 4
    ensures Value(Five) == 5 && Value(Six) == 6 && Value(Seven) == 7
    ensures Value(Eight) == 8 && Value(Nine) == 9 && Value(Ten) == 10
  {
  }

  /** Ordinal order and value order agree: a higher rank is never worth less. */
  lemma ValueMonotone(c: Card, d: Card)
    requires Ordinal(c) <= Ordinal(d)
    ensures Value(c) <= Value(d)
  {
  }
}
