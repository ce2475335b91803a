# Blackjack round, modelled in Dafny

This project models a single round of Blackjack as `test/test/BlackJackTest.java`
implements it. It covers:

- card values;
- a hand's score, with the single "soft Ace" bonus;
- blackjack and bust detection;
- the dealer ("croupier") who receives cards;
- a round (`Game`): creating it makes the dealer draw from a fixed deck until the
  dealer's hand is worth at least 17, and `getWinner` returns the sorted names of
  the players who beat the dealer.

Modules:

- `Cards` (`cards.dfy`) has the thirteen ranks and their values. The Ace is worth 1
  (its ordinal plus one). Every Ace counts 1 in the base sum, and the hand adds a
  single +10 bonus when the base sum is at most 11 and an Ace is present. So the
  six-card hand 3, 6, A, 3, A, K scores 24 and is bust.
- `Hands` (`hands.dfy`) has the scoring functions over `seq<Card>`. It also has class
  `Hand`, whose card list is copied in on creation and only grows at the end.
- `Croupiers` (`croupier.dfy`) has class `Croupier`, which owns one `Hand` and forwards
  `AddCard` to it. `hand()` and `getCroupier()` are accessors and are modelled as
  constant fields.
- `Names` (`names.dfy`) has the lexicographic order on player names and a sort on
  lists of names, used in place of `Collections.sort`.
- `Games` (`games.dfy`) has the dealer's draw rule (`DealerDraw`), the winning rule
  (`PlayerWins`), the `keySet` loop (`CollectWinners`), the draw loop
  (`DrawToThreshold`) and class `Game`.
- `Scenarios` (`scenarios.dfy`) holds the repository's concrete hands, dealers and
  rounds, stated as lemmas and methods over the model.

## Model

| member | source | states |
|---|---|---|
| Cards.Ordinal | test/test/BlackJackTest.java:237-238 | the ordinal is below 13, and it is 0 exactly for the Ace |
| Cards.Value | test/test/BlackJackTest.java:244-246 | a card is worth 1..10; exactly the Ace is worth 1; exactly Ten, Jack, Queen and King are worth 10 |
| Cards.NumberCardValues | test/test/BlackJackTest.java:240-246 | Two..Ten are worth their number |
| Cards.ValueMonotone | test/test/BlackJackTest.java:244-246 | a later rank is never worth less than an earlier one |
| Hands.Sum | test/test/BlackJackTest.java:130-132 | the base sum of n cards lies between n and 10n |
| Hands.AceCount | test/test/BlackJackTest.java:138-140 | the number of Aces is at most the hand size, and positive exactly when the hand contains an Ace |
| Hands.HandValue | test/test/BlackJackTest.java:126-128 | the score is at least the base sum; a score above 21 is the plain base sum; a score that differs from the base sum comes from an Ace and is at most 21 |
| Hands.ValueIsBestSoftTotal | test/test/BlackJackTest.java:126-136 | the score equals the reference definition: the best total over all ways of counting Aces as 1 or 11 that stays within 21, or the all-ones sum when none does; so the bonus is applied at most once |
| Hands.SumAppend | test/test/BlackJackTest.java:130-132 | appending a card adds its value to the base sum |
| Hands.SumConcat | test/test/BlackJackTest.java:130-132 | the base sum of two runs of cards is the sum of their base sums |
| Hands.BlackJackIsAceAndTen | test/test/BlackJackTest.java:143-145 | blackjack holds exactly for two cards: an Ace and a ten-valued card, in either order |
| Hands.BustIffSumOver21 | test/test/BlackJackTest.java:148-150 | a hand is bust exactly when its base sum exceeds 21 |
| Hands.TwoCardsNeverBust | test/test/BlackJackTest.java:148-150 | a hand of at most two cards is never bust |
| Hands.Hand.constructor | test/test/BlackJackTest.java:118-122 | the copy loop yields exactly the given cards, in order |
| Hands.Hand.Add | test/test/BlackJackTest.java:153-155 | the card is appended at the end, nothing else changes, and the base sum grows by the card's value |
| Croupiers.Croupier.constructor | test/test/BlackJackTest.java:166-172 | the dealer gets a new hand holding exactly the given cards |
| Croupiers.Croupier.AddCard | test/test/BlackJackTest.java:175-177 | the card is appended to the dealer's hand and only that hand changes |
| Names.LessIrreflexive | test/test/BlackJackTest.java:216 | no name sorts before itself |
| Names.LessAsymmetric | test/test/BlackJackTest.java:216 | two names never each sort before the other |
| Names.LessTotal | test/test/BlackJackTest.java:216 | any two different names are ordered one way or the other |
| Names.LessTransitive | test/test/BlackJackTest.java:216 | the name order is transitive |
| Names.LessAfterCommonPrefix | test/test/BlackJackTest.java:216 | a common prefix does not change how two names compare |
| Names.Insert | test/test/BlackJackTest.java:216 | inserting into a sorted list keeps it sorted and adds exactly that one name |
| Names.Sort | test/test/BlackJackTest.java:216 | the result is sorted ascending and is a permutation of the input |
| Names.SortedDistinctIsStrict | test/test/BlackJackTest.java:216 | a sorted permutation of a list without repeats is strictly ascending |
| Names.SortKeepsNames | test/test/BlackJackTest.java:215-216 | sorting keeps the length and exactly the same names, and makes a list without repeats strictly ascending |
| Names.StrictlyAscendingUnique | test/test/BlackJackTest.java:216 | two strictly ascending lists with the same names are equal, so the result does not depend on map iteration order |
| Games.DealerDrawStops | test/test/BlackJackTest.java:188-192 | the dealer's final hand is the start plus the first n deck cards, is worth at least 17, and every shorter prefix left it below 17 |
| Games.DealerDrawFails | test/test/BlackJackTest.java:188-192 | the deck runs out exactly when no prefix of it brings the dealer to 17 |
| Games.SumReachingThresholdSuffices | test/test/BlackJackTest.java:188-192 | a starting hand and deck whose base sum totals at least 17 always let the round be created |
| Games.DealerDrawIdempotent | test/test/BlackJackTest.java:188-192 | a dealer who already stands draws nothing more, whatever the deck |
| Games.PlayerWinsRule | test/test/BlackJackTest.java:202-213 | a player wins exactly when the dealer has no blackjack, the player is not bust, and the dealer is bust, or the player has blackjack, or the player scores higher |
| Games.WinnerScore | test/test/BlackJackTest.java:210-212 | against a dealer who is not bust, a winner never scores lower; a tie wins only as a player blackjack against a dealer's 21 made with three or more cards |
| Games.CollectWinners | test/test/BlackJackTest.java:205-214 | the list holds each winning player exactly once and nobody else |
| Games.DrawToThreshold | test/test/BlackJackTest.java:188-192 | the loop leaves the dealer with exactly the hand the draw rule gives, worth at least 17 |
| Games.Game.constructor | test/test/BlackJackTest.java:186-198 | the round keeps the given dealer and players; the dealer's hand becomes the drawn hand, worth at least 17; no other player's hand changes |
| Games.Game.GetWinner | test/test/BlackJackTest.java:200-223 | the result is a new array, strictly ascending, holding exactly the players who win; it is empty when the dealer has blackjack; player hands are only read |
| Scenarios.HandValueExamples | test/test/BlackJackTest.java:44-57 | one-card scores (a lone Ace is 11) and 3 + 5 = 8 |
| Scenarios.BlackJackExamples | test/test/BlackJackTest.java:59-71 | Ace with J, K, Q or with 10 (in either order) is blackjack; 3, 5 and 5, 6, Q are not |
| Scenarios.BustExamples | test/test/BlackJackTest.java:73-85 | 4, J, K is bust; 4, 3 and 8, 10 and 4, 2, 3 and A, K are not; 10, A, 10 is 21 and not bust |
| Scenarios.CroupierHands | test/test/BlackJackTest.java:87-96 | the scores of the dealer hands 2, 3, A and 2, 3, A, 10 and 2, 3, A, 10, 4 are 16, 16 and 20 |
| Scenarios.CroupierValueAfterAdding | test/test/BlackJackTest.java:88-96 | a dealer starting with 2, 3 scores 16, 16 and 20 after receiving A, 10 and 4 |
| Scenarios.FirstDealerHands | test/test/BlackJackTest.java:37-39 | the first dealer's 9, 7 is 16, and 9, 7, 5 is a three-card 21 |
| Scenarios.FirstRoundDealer | test/test/BlackJackTest.java:98-101 | with the deck 5, 4, K, 2 the first dealer draws only the 5 |
| Scenarios.FirstPlayerHands | test/test/BlackJackTest.java:23-25 | A, J is blackjack; 10, 5, 6 is a 21 that is not blackjack; 3, 6, A, 3, A, K is bust |
| Scenarios.FirstRoundPlayers | test/test/BlackJackTest.java:106-111 | against the dealer's 21 only the blackjack wins |
| Scenarios.FirstRoundGame | test/test/BlackJackTest.java:98-101 | creating the round twice on the same dealer leaves it with 9, 7, 5 |
| Scenarios.FirstRoundSetup | test/test/BlackJackTest.java:22-39 | the first fixture: three named players with their hands and a dealer holding 9, 7, 5 |
| Scenarios.FirstRoundWinners | test/test/BlackJackTest.java:106-111 | in that state the winners are exactly ["Player 1"] |
| Scenarios.FirstRound | test/test/BlackJackTest.java:106-111 | the first round ends with the dealer on 21 and the winners ["Player 1"] |
| Scenarios.SecondDealerHands | test/test/BlackJackTest.java:38 | the second dealer's 5, 10 is 15; with an Ace it is 16, since the Ace counts 1; with the 3 it is 19 |
| Scenarios.SecondRoundDealer | test/test/BlackJackTest.java:102-103 | with the deck A, 3, K, 2 the second dealer draws the Ace and the 3 |
| Scenarios.SecondPlayerHands | test/test/BlackJackTest.java:26-28 | 10, K is 20, 10, 2, 6 is 18, 8, 8, 5 is 21; none is blackjack |
| Scenarios.SecondRoundPlayers | test/test/BlackJackTest.java:112-115 | against 19: 20 wins, 18 loses, and the three-card 21 wins on score |
| Scenarios.SecondRoundGame | test/test/BlackJackTest.java:102-103 | the second round leaves its dealer with 5, 10, A, 3 |
| Scenarios.SecondRoundSetup | test/test/BlackJackTest.java:26-38 | the second fixture: three named players with their hands and a dealer holding 5, 10, A, 3 |
| Scenarios.PlayerNamesOrdered | test/test/BlackJackTest.java:114 | "Player 1" sorts before "Player 3" |
| Scenarios.SecondWinnersInOrder | test/test/BlackJackTest.java:114 | the only strictly ascending list of "Player 1" and "Player 3" is that one |
| Scenarios.SecondRoundWinners | test/test/BlackJackTest.java:112-115 | in that state the winners are exactly ["Player 1", "Player 3"] |
| Scenarios.SecondRound | test/test/BlackJackTest.java:112-115 | the second round ends with the dealer on 19 and the winners ["Player 1", "Player 3"] |

## Left out

- Games.DrawToThreshold and Games.Game.constructor: an exhausted deck (`deck1.get(i)` out of bounds, which throws in the code) is a precondition. It requires `DealerDraw(cards, deck).Some?`, which is exactly the condition under which the Java loop finishes. No error value is modelled.
- Games.Game.constructor: the round keeps the caller's `HashMap` by reference, and `getWinner` reads it again on every call, so a later `put` or `remove` on that map changes the winners. The model keeps `players` as a value (`const players: map<string, Hand>`) copied at construction. Only the `Hand` objects stay shared, so this aliasing of the map itself is not captured.
- Games.CollectWinners: `HashMap` key order is not modelled. The loop picks any name not yet visited. The sorted result does not depend on that order (`Names.StrictlyAscendingUnique`).
- Names.Less: Java's `String.compareTo` compares UTF-16 code units. The model compares Dafny characters in the same lexicographic way, with a proper prefix first. Code points outside the Basic Multilingual Plane are not modelled as surrogate pairs.
- Hands.Sum: Java's 32-bit `int` is not modelled; scores are unbounded naturals. `mapToInt(...).sum()` wraps around once a hand's base sum passes 2,147,483,647, which needs more than 214,748,364 cards (all worth 10). The model does not capture that wrap-around.
- The stream API (`mapToInt`, `sum`, `anyMatch`) is modelled as recursive functions (`Sum`) and sequence membership (`ContainsAce`).
- Java interfaces and anonymous classes are modelled as plain classes. `hand()` and `getCroupier()` are constant fields, not methods.
- The `deck` reference that the round keeps after construction is not modelled, since no method reads it.
- The JUnit framework, the `@Test` annotations and the `assert*` calls are not modelled. Their expected values appear as lemmas and methods in `Scenarios`.
- JUnit builds a new fixture for every test. `Scenarios.FirstRound` models the fixture's round followed by the test's round on the same dealer. The fixture's unused `getWinner` call only reads, so it is not repeated.
