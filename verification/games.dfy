/** One round: the dealer draws up to the threshold when the round is created,
    then the round answers who beat the dealer. */
module Games {
  import opened Cards
  import opened Hands
  import opened Names
  import opened Croupiers

  datatype Option<+T> = None | Some(value: T)

  /** The dealer keeps drawing while the hand is worth less than this. */
  const DealerThreshold: nat := 17

  /** The dealer's final hand after drawing the deck's cards in order until the
      score reaches the threshold; None when the deck runs out first (the round
      cannot then be created). */
  function DealerDraw(cards: seq<Card>, deck: seq<Card>): (r: Option<seq<Card>>)
    decreases |deck|
  {
    if HandValue(cards) >= DealerThreshold then Some(cards)
    else if deck == [] then None
    else DealerDraw(cards + [deck[0]], deck[1..])
  }

  /** After drawing the first n cards the dealer stands, and not one draw earlier. */
  predicate StopsAt(cards: seq<Card>, deck: seq<Card>, n: nat) {
    && n <= |deck|
    && HandValue(cards + deck[..n]) >= DealerThreshold
    && forall j :: 0 <= j < n ==> HandValue(cards + deck[..j]) < DealerThreshold
  }

  /** Drawing j cards is drawing the first one and then j - 1 from the rest. */
  lemma PrefixAfterFirstDraw(cards: seq<Card>, deck: seq<Card>, j: nat)
    requires 0 < j <= |deck|
    ensures cards + deck[..j] == (cards + [deck[0]]) + deck[1..][..j - 1]
  {
    assert deck[..j] == [deck[0]] + deck[1..][..j - 1];
  }

  /** The dealer's final hand is the starting hand plus a prefix of the deck, it is
      worth at least 17, and every shorter prefix left it under 17. */
  lemma {:induction false} DealerDrawStops(cards: seq<Card>, deck: seq<Card>) returns (n: nat)
    requires DealerDraw(cards, deck).Some?
    ensures StopsAt(cards, deck, n)
    ensures DealerDraw(cards, deck).value == cards + deck[..n]
    decreases |deck|
  {
    if HandValue(cards) >= DealerThreshold {
      n := 0;
      assert cards + deck[..0] == cards;
    } else {
      var m := DealerDrawStops(cards + [deck[0]], deck[1..]);
      n := m + 1;
      PrefixAfterFirstDraw(cards, deck, n);
      forall j | 0 <= j < n
        ensures HandValue(cards + deck[..j]) < DealerThreshold
      {
        if j == 0 {
          assert cards + deck[..j] == cards;
        } else {
          PrefixAfterFirstDraw(cards, deck, j);
        }
      }
    }
  }

  /** The deck runs out exactly when no prefix of it brings the dealer to 17. */
  lemma {:induction false} DealerDrawFails(cards: seq<Card>, deck: seq<Card>)
    ensures DealerDraw(cards, deck).None? <==>
      forall j :: 0 <= j <= |deck| ==> HandValue(cards + deck[..j]) < DealerThreshold
    decreases |deck|
  {
    if DealerDraw(cards, deck).Some? {
      var n := DealerDrawStops(cards, deck);
    } else {
      assert HandValue(cards) < DealerThreshold;
      if deck == [] {
        assert cards + deck[..0] == cards;
      } else {
        DealerDrawFails(cards + [deck[0]], deck[1..]);
        forall j | 0 <= j <= |deck|
          ensures HandValue(cards + deck[..j]) < DealerThreshold
        {
          if j == 0 {
            assert cards + deck[..j] == cards;
          } else {
            PrefixAfterFirstDraw(cards, deck, j);
          }
        }
      }
    }
  }

  /** A simple sufficient condition for creating a round: the starting hand and the
      whole deck together have a base sum of at least 17. */
  lemma SumReachingThresholdSuffices(cards: seq<Card>, deck: seq<Card>)
    requires Sum(cards + deck) >= DealerThreshold
    ensures DealerDraw(cards, deck).Some?
  {
    DealerDrawFails(cards, deck);
    assert deck[..|deck|] == deck;
  }

  /** A dealer who already stands draws nothing more, whatever the deck: creating a
      second round on the same dealer leaves the hand as it is. */
  lemma {:induction false} DealerDrawIdempotent(cards: seq<Card>, deck: seq<Card>, other: seq<Card>)
    requires DealerDraw(cards, deck).Some?
    ensures DealerDraw(DealerDraw(cards, deck).value, other) == DealerDraw(cards, deck)
  {
    var n := DealerDrawStops(cards, deck);
  }

  /** Who wins against the dealer, as the round decides it: nobody against a dealer
      blackjack; against a bust dealer every player who is not bust; otherwise a
      player with blackjack, or one who beats the dealer's score without busting. */
  predicate PlayerWins(dealer: seq<Card>, player: seq<Card>) {
    && !IsBlackJack(dealer)
    && if IsBust(dealer) then !IsBust(player)
       else IsBlackJack(player) || (HandValue(player) > HandValue(dealer) && !IsBust(player))
  }

  /** The usual statement of the rule: a player who is not bust wins unless the dealer
      has blackjack, by blackjack, by a bust dealer, or by a higher score. The source's
      `blackjack || (higher && !bust)` agrees with it because a blackjack is never bust. */
  lemma PlayerWinsRule(dealer: seq<Card>, player: seq<Card>)
    ensures PlayerWins(dealer, player) <==>
      && !IsBlackJack(dealer)
      && !IsBust(player)
      && (IsBust(dealer) || IsBlackJack(player) || HandValue(player) > HandValue(dealer))
  {
  }

  /** A winner never scores below a dealer who is not bust, and a tie wins only as a
      player blackjack against a dealer's 21 made with three or more cards. */
  lemma WinnerScore(dealer: seq<Card>, player: seq<Card>)
    requires PlayerWins(dealer, player) && !IsBust(dealer)
    ensures HandValue(player) >= HandValue(dealer)
    ensures HandValue(player) == HandValue(dealer) ==>
      IsBlackJack(player) && HandValue(dealer) == 21 && |dealer| != 2
  {
  }

  /** The keySet loop: visits every player once, in no particular order, and keeps
      those who win. It is only reached when the dealer does not have blackjack. */
  method CollectWinners(dealer: Hand, players: map<string, Hand>) returns (winners: seq<string>)
    requires !IsBlackJack(dealer.cards)
    ensures Distinct(winners)
    ensures forall p :: p in winners <==> p in players && PlayerWins(dealer.cards, players[p].cards)
  {
    winners := [];
    var remaining := players.Keys;
    while remaining != {}
      invariant remaining <= players.Keys
      invariant Distinct(winners)
      invariant forall p :: p in winners <==>
        p in players && p !in remaining && PlayerWins(dealer.cards, players[p].cards)
      decreases remaining
    {
      var player :| player in remaining;
      var hand := players[player];
      if IsBust(dealer.cards) {
        if !IsBust(hand.cards) {
          winners := winners + [player];
        }
      } else {
        if IsBlackJack(hand.cards) || (HandValue(hand.cards) > HandValue(dealer.cards) && !IsBust(hand.cards)) {
          winners := winners + [player];
        }
      }
      remaining := remaining - {player};
    }
  }

  /** One step of the draw: a dealer under 17 whose deck suffices draws its first
      card and ends where the whole draw would have ended. */
  lemma DrawStep(cards: seq<Card>, rest: seq<Card>)
    requires HandValue(cards) < DealerThreshold && DealerDraw(cards, rest).Some?
    ensures rest != [] && DealerDraw(cards + [rest[0]], rest[1..]) == DealerDraw(cards, rest)
  {
  }

  /** The draw loop run when a round is created: the dealer takes deck[0], deck[1], ...
      while the hand is worth less than 17. */
  method DrawToThreshold(croupier: Croupier, deck: seq<Card>)
    requires DealerDraw(croupier.hand.cards, deck).Some?
    modifies croupier.hand
    ensures croupier.hand.cards == DealerDraw(old(croupier.hand.cards), deck).value
    ensures HandValue(croupier.hand.cards) >= DealerThreshold
  {
    ghost var start := croupier.hand.cards;
    var i := 0;
    while HandValue(croupier.hand.cards) < DealerThreshold
      invariant i <= |deck|
      invariant DealerDraw(croupier.hand.cards, deck[i..]) == DealerDraw(start, deck)
      decreases |deck| - i
    {
      DrawStep(croupier.hand.cards, deck[i..]);
      assert deck[i..][1..] == deck[i + 1..];
      croupier.AddCard(deck[i]);
      i := i + 1;
    }
  }

  class Game {
    const croupier: Croupier
    const players: map<string, Hand>

    /** Creates the round and makes the dealer draw from the deck, in order, until
        the dealer's hand is worth at least 17. The caller's dealer is changed. */
    constructor (croupier: Croupier, players: map<string, Hand>, deck: seq<Card>)
      requires DealerDraw(croupier.hand.cards, deck).Some?
      modifies croupier.hand
      ensures this.croupier == croupier && this.players == players
      ensures croupier.hand.cards == DealerDraw(old(croupier.hand.cards), deck).value
      ensures HandValue(croupier.hand.cards) >= DealerThreshold
      ensures forall p :: p in players && players[p] != croupier.hand ==>
        players[p].cards == old(players[p].cards)
    {
      this.croupier := croupier;
      this.players := players;
      new;
      DrawToThreshold(croupier, deck);
    }

    /** The names of the players who win, sorted ascending, each once. */
    method GetWinner() returns (arrayWinners: array<string>)
      ensures fresh(arrayWinners)
      ensures StrictlyAscending(arrayWinners[..])
      ensures forall p :: p in arrayWinners[..] <==>
        p in players && PlayerWins(croupier.hand.cards, players[p].cards)
      ensures IsBlackJack(croupier.hand.cards) ==> arrayWinners.Length == 0
    {
      if IsBlackJack(croupier.hand.cards) {
        arrayWinners := new string[0];
        return;
      }
      var winners := CollectWinners(croupier.hand, players);
      arrayWinners := new string[|winners|];
      var sorted := Sort(winners);
      SortKeepsNames(winners);
      for i := 0 to |sorted|
        invariant forall k :: 0 <= k < i ==> arrayWinners[k] == sorted[k]
      {
        arrayWinners[i] := sorted[i];
      }
      assert arrayWinners[..] == sorted;
    }
  }
}
