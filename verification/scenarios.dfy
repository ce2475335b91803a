/** The concrete hands, dealers and rounds the repository checks, stated against the model. */
module Scenarios {
  import opened Cards
  import opened Hands
  import opened Names
  import opened Croupiers
  import opened Games

  /** Scores of one- and two-card hands; a lone Ace is worth 11. */
  lemma HandValueExamples()
    ensures HandValue([Three]) == 3 && HandValue([Ten]) == 10
    ensures HandValue([Jack]) == 10 && HandValue([Queen]) == 10 && HandValue([King]) == 10
    ensures HandValue([Ace]) == 11
    ensures HandValue([Three, Five]) == 8
  {
    SingleCardValues();
    ThreeFiveIsEight();
  }

  // The helpers below restate the facts above in small groups, each proved on its
  // own: one proof that evaluates many literal hands together costs far more.
  lemma SingleCardValues()
    ensures HandValue([Three]) == 3 && HandValue([Ten]) == 10
    ensures HandValue([Jack]) == 10 && HandValue([Queen]) == 10 && HandValue([King]) == 10
    ensures HandValue([Ace]) == 11
  {
  }

  lemma ThreeFiveIsEight()
    ensures HandValue([Three, Five]) == 8
  {
  }

  /** Blackjack needs exactly two cards: an Ace with a ten-valued card. */
  lemma BlackJackExamples()
    ensures !IsBlackJack([Three, Five])
    ensures IsBlackJack([Ace, Jack]) && IsBlackJack([Ace, King]) && IsBlackJack([Ace, Queen])
    ensures IsBlackJack([Ten, Ace])
    ensures !IsBlackJack([Five, Six, Queen])
  {
    BlackJackIsAceAndTen([Three, Five]);
    BlackJackIsAceAndTen([Ace, Jack]);
    BlackJackIsAceAndTen([Ace, King]);
    BlackJackIsAceAndTen([Ace, Queen]);
    BlackJackIsAceAndTen([Ten, Ace]);
  }

  lemma BustExamples()
    ensures !IsBust([Four, Three]) && !IsBust([Eight, Ten])
    ensures IsBust([Four, Jack, King])
    ensures !IsBust([Four, Two, Three])
    ensures !IsBust([Ten, Ace, Ten]) && HandValue([Ten, Ace, Ten]) == 21
    ensures !IsBust([Ace, King])
  {
    TwoCardsNeverBust([Four, Three]);
    TwoCardsNeverBust([Eight, Ten]);
    TwoCardsNeverBust([Ace, King]);
    FourJackKingIsBust();
    FourTwoThreeIsNotBust();
    TenAceTenIsTwentyOne();
  }

  // The helpers below restate the facts above in small groups, each proved on its
  // own: one proof that evaluates many literal hands together costs far more.
  lemma FourJackKingIsBust()
    ensures IsBust([Four, Jack, King])
  {
  }

  lemma FourTwoThreeIsNotBust()
    ensures !IsBust([Four, Two, Three])
  {
  }

  /** The Ace between two Tens counts 1. */
  lemma TenAceTenIsTwentyOne()
    ensures HandValue([Ten, Ace, Ten]) == 21
  {
  }

  /** The dealer's hands after each card of the repository's croupier check. */
  lemma CroupierHands()
    ensures HandValue([Two, Three, Ace]) == 16
    ensures HandValue([Two, Three, Ace, Ten]) == 16
    ensures HandValue([Two, Three, Ace, Ten, Four]) == 20
  {
    SoftSixteen();
    HardSixteen();
    HardTwenty();
  }

  // The helpers below restate the facts above in small groups, each proved on its
  // own: one proof that evaluates many literal hands together costs far more.
  lemma SoftSixteen()
    ensures HandValue([Two, Three, Ace]) == 16
  {
  }

  lemma HardSixteen()
    ensures HandValue([Two, Three, Ace, Ten]) == 16
  {
  }

  lemma HardTwenty()
    ensures HandValue([Two, Three, Ace, Ten, Four]) == 20
  {
  }

  /** A dealer starting with 2 and 3: an Ace brings the hand to 16 (soft), a Ten leaves
      it at 16 (the Ace now counts 1), and a Four brings it to 20. */
  method CroupierValueAfterAdding() returns (values: seq<nat>)
    ensures values == [16, 16, 20]
  {
    var croupier := new Croupier([Two, Three]);
    croupier.AddCard(Ace);
    assert croupier.hand.cards == [Two, Three, Ace];
    CroupierHands();
    var first := HandValue(croupier.hand.cards);
    croupier.AddCard(Ten);
    assert croupier.hand.cards == [Two, Three, Ace, Ten];
    var second := HandValue(croupier.hand.cards);
    croupier.AddCard(Four);
    assert croupier.hand.cards == [Two, Three, Ace, Ten, Four];
    var third := HandValue(croupier.hand.cards);
    values := [first, second, third];
  }

  /** The first dealer: (9, 7) is 16, and with the 5 it is a three-card 21. */
  lemma FirstDealerHands()
    ensures HandValue([Nine, Seven]) == 16
    ensures HandValue([Nine, Seven, Five]) == 21
    ensures !IsBlackJack([Nine, Seven, Five]) && !IsBust([Nine, Seven, Five])
  {
  }

  /** First fixture round: the dealer on 16 draws the 5 and stands on 21. */
  lemma FirstRoundDealer()
    ensures DealerDraw([Nine, Seven], [Five, Four, King, Two]) == Some([Nine, Seven, Five])
  {
    FirstDealerHands();
    assert [Nine, Seven] + [Five] == [Nine, Seven, Five];
  }

  /** The first round's players: a blackjack, a three-card 21 and a bust six-card hand (24). */
  lemma FirstPlayerHands()
    ensures IsBlackJack([Ace, Jack])
    ensures HandValue([Ten, Five, Six]) == 21 && !IsBlackJack([Ten, Five, Six])
    ensures IsBust([Three, Six, Ace, Three, Ace, King])
  {
    BlackJackIsAceAndTen([Ace, Jack]);
    TenFiveSixIsTwentyOne();
    SixCardsBust();
  }

  // The helpers below restate the facts above in small groups, each proved on its
  // own: one proof that evaluates many literal hands together costs far more.
  lemma TenFiveSixIsTwentyOne()
    ensures HandValue([Ten, Five, Six]) == 21
  {
  }

  lemma SixCardsBust()
    ensures IsBust([Three, Six, Ace, Three, Ace, King])
  {
  }

  /** Against the dealer's 21 only the blackjack wins: the three-card 21 only ties. */
  lemma FirstRoundPlayers()
    ensures PlayerWins([Nine, Seven, Five], [Ace, Jack])
    ensures !PlayerWins([Nine, Seven, Five], [Ten, Five, Six])
    ensures !PlayerWins([Nine, Seven, Five], [Three, Six, Ace, Three, Ace, King])
  {
    FirstDealerHands();
    FirstPlayerHands();
  }

  /** The second dealer: (5, 10) is 15; with an Ace it is 16 (the base sum 16 is over 11,
      so the Ace counts 1); with the 3 it is 19. */
  lemma SecondDealerHands()
    ensures HandValue([Five, Ten]) == 15
    ensures HandValue([Five, Ten, Ace]) == 16
    ensures HandValue([Five, Ten, Ace, Three]) == 19
    ensures !IsBlackJack([Five, Ten, Ace, Three]) && !IsBust([Five, Ten, Ace, Three])
  {
  }

  /** Second fixture round: the dealer draws the Ace and the 3 and stands on 19. */
  lemma SecondRoundDealer()
    ensures DealerDraw([Five, Ten], [Ace, Three, King, Two]) == Some([Five, Ten, Ace, Three])
  {
    SecondDealerHands();
    assert [Five, Ten] + [Ace] == [Five, Ten, Ace];
    assert [Five, Ten, Ace] + [Three] == [Five, Ten, Ace, Three];
    assert [Ace, Three, King, Two][1..] == [Three, King, Two];
    assert DealerDraw([Five, Ten, Ace], [Three, King, Two]) == Some([Five, Ten, Ace, Three]);
  }

  /** The second round's players: 20, 18, and 21 with three cards; none is blackjack or bust. */
  lemma SecondPlayerHands()
    ensures HandValue([Ten, King]) == 20 && !IsBlackJack([Ten, King])
    ensures HandValue([Ten, Two, Six]) == 18 && !IsBlackJack([Ten, Two, Six])
    ensures HandValue([Eight, Eight, Five]) == 21 && !IsBlackJack([Eight, Eight, Five])
  {
    TenKingIsTwenty();
    TenTwoSixIsEighteen();
    EightEightFiveIsTwentyOne();
  }

  // The helpers below restate the facts above in small groups, each proved on its
  // own: one proof that evaluates many literal hands together costs far more.
  lemma TenKingIsTwenty()
    ensures HandValue([Ten, King]) == 20
  {
  }

  lemma TenTwoSixIsEighteen()
    ensures HandValue([Ten, Two, Six]) == 18
  {
  }

  lemma EightEightFiveIsTwentyOne()
    ensures HandValue([Eight, Eight, Five]) == 21
  {
  }

  /** Against 19: 20 wins, 18 loses, and the three-card 21 wins on score. */
  lemma SecondRoundPlayers()
    ensures PlayerWins([Five, Ten, Ace, Three], [Ten, King])
    ensures !PlayerWins([Five, Ten, Ace, Three], [Ten, Two, Six])
    ensures PlayerWins([Five, Ten, Ace, Three], [Eight, Eight, Five])
  {
    SecondDealerHands();
    SecondPlayerHands();
  }

  /** Asks a round in the state of the first fixture round for its winners. */
  method FirstRoundWinners(game: Game) returns (winners: seq<string>)
    requires game.players.Keys == {"Player 1", "Player 2", "Player 3"}
    requires PlayerWins(game.croupier.hand.cards, game.players["Player 1"].cards)
    requires !PlayerWins(game.croupier.hand.cards, game.players["Player 2"].cards)
    requires !PlayerWins(game.croupier.hand.cards, game.players["Player 3"].cards)
    ensures winners == ["Player 1"]
  {
    PlayerNamesDistinct();
    var result := game.GetWinner();
    forall x ensures x in result[..] <==> x in ["Player 1"] {
    }
    StrictlyAscendingUnique(result[..], ["Player 1"]);
    winners := result[..];
  }

  /** The first fixture round as the repository sets it up: three players, and a
      dealer who ends with 9, 7 and 5. */
  method FirstRoundSetup() returns (game: Game)
    ensures game.croupier.hand.cards == [Nine, Seven, Five]
    ensures game.players.Keys == {"Player 1", "Player 2", "Player 3"}
    ensures game.players["Player 1"].cards == [Ace, Jack]
    ensures game.players["Player 2"].cards == [Ten, Five, Six]
    ensures game.players["Player 3"].cards == [Three, Six, Ace, Three, Ace, King]
  {
    PlayerNamesDistinct();
    var p1 := new Hand([Ace, Jack]);
    var p2 := new Hand([Ten, Five, Six]);
    var p3 := new Hand([Three, Six, Ace, Three, Ace, King]);
    var players := map["Player 1" := p1, "Player 2" := p2, "Player 3" := p3];
    game := FirstRoundGame(players);
  }

  /** Creates the first round twice on one fresh dealer holding 9 and 7, with the
      deck 5, 4, K, 2: the first creation draws the 5, the second draws nothing. */
  method FirstRoundGame(players: map<string, Hand>) returns (game: Game)
    ensures game.players == players
    ensures fresh(game.croupier.hand)
    ensures game.croupier.hand.cards == [Nine, Seven, Five]
  {
    var deck := [Five, Four, King, Two];
    var croupier := new Croupier([Nine, Seven]);
    FirstRoundDealer();
    var fixture := new Game(croupier, players, deck);
    DealerDrawIdempotent([Nine, Seven], deck, deck);
    game := new Game(croupier, players, deck);
  }

  /** The first round: the dealer has a three-card 21 and only "Player 1" wins. */
  method FirstRound() returns (winners: seq<string>, dealer: nat)
    ensures dealer == 21
    ensures winners == ["Player 1"]
  {
    PlayerNamesDistinct();
    var game := FirstRoundSetup();
    dealer := HandValue(game.croupier.hand.cards);
    assert dealer == 21 by { FirstDealerHands(); }
    assert PlayerWins(game.croupier.hand.cards, game.players["Player 1"].cards) by { FirstRoundPlayers(); }
    assert !PlayerWins(game.croupier.hand.cards, game.players["Player 2"].cards) by { FirstRoundPlayers(); }
    assert !PlayerWins(game.croupier.hand.cards, game.players["Player 3"].cards) by { FirstRoundPlayers(); }
    winners := FirstRoundWinners(game);
  }

  /** The three player names differ (in their last character). */
  lemma PlayerNamesDistinct()
    ensures "Player 1" != "Player 2" && "Player 1" != "Player 3" && "Player 2" != "Player 3"
  {
    assert "Player 1"[7] == '1' && "Player 2"[7] == '2' && "Player 3"[7] == '3';
  }

  /** "Player 1" comes before "Player 3". */
  lemma PlayerNamesOrdered()
    ensures Less("Player 1", "Player 3")
  {
    assert Less("1", "3");
    LessAfterCommonPrefix("Player ", "1", "3");
    assert "Player " + "1" == "Player 1" && "Player " + "3" == "Player 3";
  }

  /** The only strictly ascending list of "Player 1" and "Player 3". */
  lemma SecondWinnersInOrder(r: seq<string>)
    requires StrictlyAscending(r)
    requires forall x :: x in r <==> x == "Player 1" || x == "Player 3"
    ensures r == ["Player 1", "Player 3"]
  {
    PlayerNamesOrdered();
    var expected := ["Player 1", "Player 3"];
    assert StrictlyAscending(expected);
    StrictlyAscendingUnique(r, expected);
  }

  /** Asks a round in the state of the second fixture round for its winners. */
  method SecondRoundWinners(game: Game) returns (winners: seq<string>)
    requires game.players.Keys == {"Player 1", "Player 2", "Player 3"}
    requires PlayerWins(game.croupier.hand.cards, game.players["Player 1"].cards)
    requires !PlayerWins(game.croupier.hand.cards, game.players["Player 2"].cards)
    requires PlayerWins(game.croupier.hand.cards, game.players["Player 3"].cards)
    ensures winners == ["Player 1", "Player 3"]
  {
    PlayerNamesDistinct();
    var result := game.GetWinner();
    forall x ensures x in result[..] <==> x == "Player 1" || x == "Player 3" {
    }
    SecondWinnersInOrder(result[..]);
    winners := result[..];
  }

  /** The second fixture round as the repository sets it up: the dealer starts
      with 5 and 10 and draws from the deck A, 3, K, 2. */
  method SecondRoundSetup() returns (game: Game)
    ensures game.croupier.hand.cards == [Five, Ten, Ace, Three]
    ensures game.players.Keys == {"Player 1", "Player 2", "Player 3"}
    ensures game.players["Player 1"].cards == [Ten, King]
    ensures game.players["Player 2"].cards == [Ten, Two, Six]
    ensures game.players["Player 3"].cards == [Eight, Eight, Five]
  {
    PlayerNamesDistinct();
    var p1 := new Hand([Ten, King]);
    var p2 := new Hand([Ten, Two, Six]);
    var p3 := new Hand([Eight, Eight, Five]);
    var players := map["Player 1" := p1, "Player 2" := p2, "Player 3" := p3];
    game := SecondRoundGame(players);
  }

  /** Creates the second round on a fresh dealer holding 5 and 10, with the deck
      A, 3, K, 2: the dealer draws the Ace and the 3. */
  method SecondRoundGame(players: map<string, Hand>) returns (game: Game)
    ensures game.players == players
    ensures fresh(game.croupier.hand)
    ensures game.croupier.hand.cards == [Five, Ten, Ace, Three]
  {
    var croupier := new Croupier([Five, Ten]);
    SecondRoundDealer();
    game := new Game(croupier, players, [Ace, Three, King, Two]);
  }

  /** The second round: the dealer ends on 19 and "Player 1" and "Player 3" win, in
      that order. */
  method SecondRound() returns (winners: seq<string>, dealer: nat)
    ensures dealer == 19
    ensures winners == ["Player 1", "Player 3"]
  {
    PlayerNamesDistinct();
    var game := SecondRoundSetup();
    dealer := HandValue(game.croupier.hand.cards);
    assert dealer == 19 by { SecondDealerHands(); }
    assert PlayerWins(game.croupier.hand.cards, game.players["Player 1"].cards) by { SecondRoundPlayers(); }
    assert !PlayerWins(game.croupier.hand.cards, game.players["Player 2"].cards) by { SecondRoundPlayers(); }
    assert PlayerWins(game.croupier.hand.cards, game.players["Player 3"].cards) by { SecondRoundPlayers(); }
    winners := SecondRoundWinners(game);
  }
}
