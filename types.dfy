/** Entities and configuration of Royale Baccarat: cards, bet positions,
    round results, the PnL series and the table limits. */
module Types {

  datatype Option<T> = None | Some(value: T)

  datatype Suit = Hearts | Diamonds | Clubs | Spades

  datatype Rank = Ace | Two | Three | Four | Five | Six | Seven | Eight | Nine
                | Ten | Jack | Queen | King

  /** A card; `value` is its baccarat point value, fixed when the deck is built.
      The random `id` string is not modelled. */
  datatype Card = Card(suit: Suit, rank: Rank, value: nat)

  /** The four phases of a round as the table shows them. */
  datatype Phase = Idle | Betting | Dealing | Result

  datatype Winner = Player | Banker | Tie

  datatype Position = PlayerBet | BankerBet | TieBet | PlayerPairBet | BankerPairBet

  /** The stake on each of the five positions; zero means no bet. */
  datatype Bets = Bets(player: real, banker: real, tie: real, playerPair: real, bankerPair: real)

  /** The settled facts of one round. `payout`, `balanceAfter` and the
      timestamp are left out: nothing in the engine reads them. */
  datatype GameResult = GameResult(
    winner: Winner,
    playerScore: nat,
    bankerScore: nat,
    isPlayerPair: bool,
    isBankerPair: bool,
    totalBet: real)

  /** One point of the cumulative profit-and-loss chart. */
  datatype PnLPoint = PnLPoint(hand: nat, pnl: real)

  datatype Stats = Stats(totalWagered: real, wins: nat, losses: nat)

  /** Profit odds paid on a winning stake (the stake itself comes back on top). */
  const PlayerOdds: real := 1.0
  const BankerOdds: real := 1.0
  const BankerSuper6Odds: real := 0.5
  const TieOdds: real := 8.0
  const PairOdds: real := 11.0

  const ChipValues: seq<real> := [1.0, 5.0, 25.0, 100.0, 500.0, 1000.0]
  const InitialBalance: real := 0.0
  const MinBet: real := 5.0
  const MaxBet: real := 5000.0

  /** Decks per shoe, and the remaining-card count below which the shoe is replaced. */
  const Decks: nat := 8
  const ReshuffleThreshold: nat := 20

  const NoBets: Bets := Bets(0.0, 0.0, 0.0, 0.0, 0.0)

  function Stake(bets: Bets, pos: Position): real
  {
    match pos
    case PlayerBet => bets.player
    case BankerBet => bets.banker
    case TieBet => bets.tie
    case PlayerPairBet => bets.playerPair
    case BankerPairBet => bets.bankerPair
  }

  /** `bets` with `chip` added on `pos` and every other position kept. */
  function AddStake(bets: Bets, pos: Position, chip: real): (r: Bets)
    ensures Stake(r, pos) == Stake(bets, pos) + chip
    ensures forall q :: q != pos ==> Stake(r, q) == Stake(bets, q)
    ensures Total(r) == Total(bets) + chip
  {
    match pos
    case PlayerBet => bets.(player := bets.player + chip)
    case BankerBet => bets.(banker := bets.banker + chip)
    case TieBet => bets.(tie := bets.tie + chip)
    case PlayerPairBet => bets.(playerPair := bets.playerPair + chip)
    case BankerPairBet => bets.(bankerPair := bets.bankerPair + chip)
  }

  /** The sum of the five stakes. */
  function Total(bets: Bets): real
  {
    bets.player + bets.banker + bets.tie + bets.playerPair + bets.bankerPair
  }

  predicate NonNeg(bets: Bets)
  {
    bets.player >= 0.0 && bets.banker >= 0.0 && bets.tie >= 0.0
    && bets.playerPair >= 0.0 && bets.bankerPair >= 0.0
  }
}
