# Royale Baccarat — round engine

A Dafny model of the round engine of Royale Baccarat, a single-player
Punto Banco table. The model covers these parts of the game:

- **Cards and the shoe** (`game_logic.dfy`, module `GameLogic`):
  - building a 52-card deck and an eight-deck shoe;
  - the Fisher–Yates shuffle, done in place on an array;
  - hand scores, the pair test and the winner decision;
  - the payout table that settles each of the five bet positions (Player,
    Banker with the "Super 6" half-pay, Tie, Player Pair, Banker Pair).
- **The drawing tableau** (`dealing.dfy`, module `Dealing`):
  - four cards are taken from the end of the shoe (Player, Banker, Player,
    Banker);
  - a natural 8 or 9 on either side ends the deal;
  - otherwise the Player draws on 0–5, and the Banker draws by the Banker's
    chart. The chart is keyed on the value of the Player's third card.
- **The table** (`app.dfy`, module `App`, class `Game`): the state the
  component holds and the handlers that change it:
  - deposit and withdraw;
  - placing a chip, clearing the bets, "New Bet";
  - dealing a round, which replaces the shoe when fewer than 20 cards remain,
    settles the round against the stakes, and updates the balance, the win
    and loss statistics, the history and the cumulative profit-and-loss chart;
  - the win rate and ROI the statistics panel shows.

`Game.DealGame` deals from the replacement shoe. That is the intended
behaviour, not what the component does: as written, the round draws from the
shoe captured before the reshuffle and writes its remainder back over the
replacement. `Game.DealCardsAsWritten` models that behaviour, and
"## Findings" records it.

Placing a chip keeps the component's admission test, which double-counts the
open stakes. The test compares the stakes already on the table plus the chip
with a balance from which those stakes were already taken. From a balance of
100 with two 25 chips placed (balance 50), a third 25 chip is refused.

Randomness is an input. The shuffle's choices are a sequence `swaps`, where
`swaps[i] <= i`: position `i` is exchanged with position `swaps[i]`. The
dealer's remark from the commentary service is a string parameter. Money is
modelled as `real`.

`Game.Valid` is the cash invariant. The balance is never negative, and the
last point of the PnL chart equals currentPnL plus the stakes still on the
table. `Game.Ledger` is the record invariant. It ties the record to the
sequence of per-round nets: one history entry per net, the PnL chart built
from the nets, and the statistics holding the wagered total over the history
and the win and loss counts of the nets.

## Model

| member | source | states |
|---|---|---|
| GameLogic.CreateDeck | utils/gameLogic.ts:4-26 | the deck built by the two nested loops is `Deck()`: the four suits in order, each with ace to king |
| GameLogic.DeckLayout | utils/gameLogic.ts:4-26 | the deck has 52 cards; position 13·i+k holds suit i, rank k, with that rank's baccarat value |
| GameLogic.RankValuesInDeckOrder | utils/gameLogic.ts:12-14 | ace to nine are worth 1 to 9; ten and the court cards are worth 0 |
| GameLogic.DeckCount | utils/gameLogic.ts:4-26 | every well-formed card appears exactly once in the deck, and nothing else appears |
| GameLogic.ShoeCount | utils/gameLogic.ts:28-32 | n concatenated decks hold 52·n cards, and each well-formed card appears n times |
| GameLogic.ShuffleInPlace | utils/gameLogic.ts:33-37 | the descending swap loop leaves the array equal to `Shuffle` of its old contents |
| GameLogic.ShufflePermutes | utils/gameLogic.ts:33-37 | for every choice of swap partners, the shuffle is a permutation: the multiset of cards is unchanged |
| GameLogic.CreateShoe | utils/gameLogic.ts:28-39 | the shoe is the shuffled concatenation of `decks` decks, with 52·decks cards and each well-formed card exactly `decks` times |
| GameLogic.Score | utils/gameLogic.ts:41-44 | a hand's score is at most 9 |
| GameLogic.ScoreReorder | utils/gameLogic.ts:41-44 | the score does not depend on the order of the cards: any two hands with the same multiset of cards score the same |
| GameLogic.IsPair | utils/gameLogic.ts:46-49 | only a hand of at least two cards can be a pair |
| GameLogic.PairByFirstTwoRanks | utils/gameLogic.ts:46-49 | a hand of fewer than two cards is never a pair; otherwise it is a pair exactly when its first two ranks agree, so later cards never matter |
| GameLogic.DetermineWinner | utils/gameLogic.ts:113-117 | the round is a tie exactly when the two scores are equal |
| GameLogic.WinnerByComparison | utils/gameLogic.ts:113-117 | Player wins iff its score is higher, Banker wins iff its score is higher, a tie iff they are equal; swapping the scores mirrors the winner |
| GameLogic.Positive | utils/gameLogic.ts:79-106 | the stakes the payout looks at are never negative and are the bets themselves when no bet is negative |
| GameLogic.CalculatePayout | utils/gameLogic.ts:76-110 | the total return equals the payout table `Settle` applied to the positive stakes |
| GameLogic.PositionReturn | utils/gameLogic.ts:78-108 | one position's return, stake included (Player 2×, or the stake back on a tie; Banker 2×, or 1.5× when winning on 6, or the stake back on a tie; Tie 9×; each pair 12×); for a non-negative stake it lies between 0 and 12 times the stake |
| GameLogic.Settle | utils/gameLogic.ts:76-110 | the total return is the sum of the five positions' returns; with non-negative stakes it lies between 0 and 12 times the total stake |
| GameLogic.SettleAddStake | utils/gameLogic.ts:76-110 | positions settle independently: adding a chip on one position adds only that chip's return; a zero stake returns nothing |
| GameLogic.TiePushesPlayerAndBanker | utils/gameLogic.ts:79-95 | on a tie, Player and Banker stakes come back unchanged |
| Dealing.IsNatural | App.tsx:160 | definition: a two-card score of 8 or 9 on either side is a natural |
| Dealing.PlayerDraws | App.tsx:164-168 | definition: the Player draws on a two-card score of 0 to 5 |
| Dealing.BankerDraws | App.tsx:171-192 | definition: the Banker's rule, keyed on the Player's third card when there is one; its partner is the chart lemma below |
| Dealing.BankerRuleMatchesChart | App.tsx:171-192 | the Banker's third-card rule agrees with the printed drawing chart on all 100 entries |
| Dealing.Resolve | App.tsx:144-195 | the round dealt from the end of the shoe gives each side two or three cards; its other properties are the Resolve lemmas below |
| Dealing.Draw | App.tsx:141 | a draw takes the last card of the shoe; the rest of the shoe plus that card is the old shoe |
| Dealing.PlayRound | App.tsx:130-195 | the imperative draw sequence yields exactly the hands of `Resolve`, removes exactly the dealt cards from the end of the shoe, and returns the final scores |
| Dealing.ResolveShape | App.tsx:144-195 | each hand starts with the two cards dealt to it (last and third-last for Player, second- and fourth-last for Banker), and four to six cards are dealt |
| Dealing.ResolveTakesFromEnd | App.tsx:141-193 | the i-th card drawn is the i-th card from the end of the shoe, for every card dealt |
| Dealing.ResolveFollowsRules | App.tsx:159-193 | a natural stops the deal; the Player has a third card iff there is no natural and the Player has 0–5; the Banker has a third card iff there is no natural and the Banker rule says draw |
| Dealing.ResolveUsesLastSix | App.tsx:141-193 | the outcome of a round depends only on the last six cards of the shoe |
| Dealing.RoundResult | App.tsx:223-234 | the result's scores are at most 9, and each pair flag holds iff that hand's first two ranks agree |
| App.RoundShoe | App.tsx:118-123 | a shoe at or above the threshold is kept; a below-threshold shoe is replaced, so the shoe used has at least the threshold number of cards |
| App.StaleShoeAfter | App.tsx:118-197 | as written, the shoe left after a round is the captured shoe minus the dealt cards: at least four cards fewer, and below the threshold whenever it started below it |
| App.StaleRoundsShrink | App.tsx:118-197 | after k rounds as written the shoe has fewer than six cards or has lost at least 4·k cards |
| App.StaleShoeRunsDry | App.tsx:118-197 | as written, a shoe below the threshold is down to fewer than six cards within four rounds, because the replacement never takes effect |
| App.Game.DealCardsAsWritten | App.tsx:118-197 | as written, the hands are `Resolve` of the shoe as it was before the reshuffle, and the shoe afterwards is that captured shoe minus the dealt cards, whatever the reshuffle did |
| App.RoundShoeSuffices | App.tsx:118-123 | with the replacement in use, every round draws from at least 20 cards, more than the 6 a round can take |
| App.DecidedRounds | App.tsx:240-245 | pushes count as neither wins nor losses, so wins plus losses never exceed the rounds played; equality holds iff no round had a zero net |
| App.PnLIsSumOfNets | App.tsx:262-268 | every chart point's hand number is its position, and the last point is the sum of all the rounds' nets |
| App.Tally | App.tsx:240-245 | the statistics after a round: the stake is added to the wagered total, and at most one of wins and losses goes up, never down |
| App.Extend | App.tsx:262-268 | the chart after a round keeps every earlier point and gains one point whose value exceeds the previous point by the round's net |
| App.RecordRound | App.tsx:239-268 | appending a round keeps the chart a PnL series of the extended nets, and the wagered total, wins and losses each step as the tally does |
| App.WinRate | App.tsx:288-290 | win rate is 0 with no decided round, lies in [0, 100], and otherwise is the percentage of decided rounds won |
| App.Roi | App.tsx:292-295 | ROI is 0 while nothing is wagered; otherwise ROI × wagered = 100 × PnL, so its sign matches the PnL's |
| App.Game.CurrentPnL | App.tsx:292 | definition: balance plus total withdrawn minus total deposited; its partner is CurrentPnLIsSumOfNets |
| App.Game.CurrentPnLIsSumOfNets | App.tsx:292 | with no stake open, currentPnL equals the sum of the nets of all the rounds played |
| App.Game.ShownWinRate | App.tsx:288-290 | the panel's win rate lies in [0, 100] and is the win rate of the recorded rounds' nets |
| App.Game.ShownRoi | App.tsx:292-295 | the panel's ROI is `Roi` of currentPnL over the wagered total of the history; once something is wagered it is positive iff currentPnL is |
| App.SettleHands | App.tsx:222-237 | the result is `RoundResult` of the final hands; the total payout is the payout table's return, between 0 and 12 times the total stake |
| App.Game.constructor | App.tsx:22-58 | the initial state: idle, no bets, zero balance, a freshly shuffled eight-deck shoe, a chart with the single point (0, 0); both invariants hold |
| App.Game.Deposit | App.tsx:67-71 | the balance and the deposited total each grow by the amount; the cash invariant is kept |
| App.Game.Withdraw | App.tsx:73-78 | the withdrawal happens iff the amount is at most the balance; otherwise nothing changes; the cash invariant is kept |
| App.Game.PlaceBet | App.tsx:80-103 | refused while dealing or showing a result; the first chip opens betting; the chip is placed iff the stakes already on the table plus the chip are at most the balance that remains after those stakes and the position stays within the table maximum; "Insufficient funds" is shown only in the first case; a placed chip moves from the balance to the position |
| App.Game.ClearBets | App.tsx:105-110 | every stake goes back to the balance, no bets remain and the table is idle; the cash invariant is kept |
| App.Game.ResetGame | App.tsx:279-285 | the hands and bets are emptied, without refund, and the table is idle; the cash invariant is kept |
| App.Game.Reshuffle | App.tsx:118-123 | the shoe becomes a new shuffled eight-deck shoe of 416 cards |
| App.Game.DealGame | App.tsx:112-275 | a round is dealt iff the total stake is at least the minimum bet; below it only the message changes; a dealt round satisfies `RoundPlayed`; both invariants are kept |
| App.Game.PlayOut | App.tsx:118-272 | the dealt branch: the hands are the resolved round from the shoe in play, the shoe loses exactly the dealt cards, and the history, balance, statistics and chart are updated by the round's result and net |
| App.Game.DealCards | App.tsx:118-197 | after the reshuffle check, the hands are `Resolve` of the shoe in play and the shoe keeps all but the dealt cards |
| App.Game.SettleRound | App.tsx:222-272 | the result goes into the history, the total return into the balance, and the net into the statistics and the chart; both invariants hold afterwards |
| App.Game.RecordResult | App.tsx:236-268 | the settlement updates keep both invariants: the chart's last point stays currentPnL, and the statistics stay the tally of the nets |
| App.PlaceThenClear | App.tsx:80-110 | placing a chip and then clearing gives back the whole balance and leaves the table idle with no bets |

## Left out

- Rendering, layout, animation delays, audio and the scroll effect are not modelled. They do not affect the state.
- The commentary service (`services/geminiService.ts`) is not part of this model. Its text is the `remark` parameter of `DealGame`.
- `Math.random` is replaced by the `swaps` input of the shuffle. The random card `id` strings are not modelled.
- The result's timestamp, `payout` and `balanceAfter` fields are not modelled. Nothing in the engine reads them back.
- The profit-only accumulator at the top of `calculatePayout` (utils/gameLogic.ts:53-73) is not modelled. Its value is never returned or read.
- The intermediate commentary lines during a deal ("Player draws…") and the 1-second waits are not modelled. Only the final message of the round is.
- The cashier dialog's input parsing (components/CashierModal.tsx) is not part of this model. `Deposit` and `Withdraw` take the positive whole amount it passes on.
- App.Game.PlaceBet: requires the chip to be one of the table's chip values, because the chip selector offers only those.
- App.Game.DealCardsAsWritten: requires six cards in the shoe, the most a round can take. With four or five cards the source still completes a round that needs no more cards than remain. A round that needs more pops undefined and throws a TypeError in calculateScore (App.tsx:154, 167, 195), which the model does not follow.
- App.Game.ClearBets, App.Game.ResetGame and App.Game.DealGame: the required phase follows the buttons the table shows. Clear works only while betting, "New Bet" only on a result, and Deal never while dealing or on a result.
- App.SettleHands: requires non-negative stakes, which the cash invariant guarantees.
- The empty shoe the component holds before its mount effect runs is not modelled. The constructor creates the shoe directly.
- `nets`, the per-round net of each settled round, is a ghost field. It states the invariants, and the component does not store it.
- Concurrency between the asynchronous deal and other clicks is not modelled. Handlers run one at a time, each on the current state. In the source, during the 1-second reshuffle wait (App.tsx:122) the phase is still betting, so Clear is enabled and refunds the stakes. The round then settles the stakes it captured anyway (App.tsx:236-255).

## Findings

| source | as written | input that shows it | evidently intended | confidence | as-written member | corrected member |
|---|---|---|---|---|---|---|
| App.tsx:118-130,197 | when the shoe is below 20 cards, a new shoe is handed to the state setter, but the round copies the `shoe` value captured before the reshuffle, draws from it, and writes the remainder back over the new shoe | a shoe with 3 cards left: the reshuffle fires, yet the initial deal pops from the 3-card copy, and the fourth draw finds it empty. The throw comes before the write-back at line 197, so the fresh shoe survives; but the phase stays dealing, which disables Deal, Clear and the betting table, and the stakes already taken are lost | the round draws from the new 416-card shoe | not executed | App.StaleShoeRunsDry (with App.StaleShoeAfter, App.StaleRoundsShrink, App.Game.DealCardsAsWritten) | App.RoundShoeSuffices (with App.RoundShoe, used by App.Game.DealCards) |
