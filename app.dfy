/** The round controller of App.tsx: bets, the cashier, dealing a round,
    and the session statistics and profit-and-loss series. */
module App {
  import opened Types
  import opened GameLogic
  import opened Dealing

  /** The dealer's line shown above the table. `Remark` carries the text the
      commentary service returned for the round. */
  datatype Message =
    | Welcome
    | DepositSuccessful
    | Withdrawn(amount: nat)
    | InsufficientFunds
    | MinimumBet
    | Reshuffling
    | DealingCards
    | Remark(text: string)
    | PlaceYourBets

  const ShoeSize: nat := 52 * Decks

  // ---------------------------------------------------------------------------
  // The shoe a round draws from

  /** The shoe a round draws from: one below the reshuffle threshold is
      replaced wholesale by the newly created shoe. */
  function RoundShoe(shoe: seq<Card>, replacement: seq<Card>): (s: seq<Card>)
    ensures |shoe| >= ReshuffleThreshold ==> s == shoe
    ensures |replacement| >= ReshuffleThreshold ==> |s| >= ReshuffleThreshold
  {
    if |shoe| < ReshuffleThreshold then replacement else shoe
  }

  /** The shoe left after a round as dealGame is written: the round is dealt
      from the shoe captured before any reshuffle and what is left of it is
      written back, so a replacement never takes effect and the shoe only
      shrinks. */
  function StaleShoeAfter(shoe: seq<Card>): (rest: seq<Card>)
    requires |shoe| >= 6
    ensures |rest| <= |shoe| - 4
    ensures |shoe| < ReshuffleThreshold ==> |rest| < ReshuffleThreshold
  {
    shoe[..|shoe| - Dealt(Resolve(shoe))]
  }

  /** The shoe after `k` rounds as written, stopping once fewer than six
      cards are left. */
  function StaleRounds(shoe: seq<Card>, k: nat): seq<Card>
  {
    if k == 0 || |shoe| < 6 then shoe else StaleRounds(StaleShoeAfter(shoe), k - 1)
  }

  /** Every round as written takes at least four cards for good. */
  lemma {:induction false} StaleRoundsShrink(shoe: seq<Card>, k: nat)
    ensures |StaleRounds(shoe, k)| < 6 || |StaleRounds(shoe, k)| <= |shoe| - 4 * k
  {
    if k > 0 && |shoe| >= 6 {
      StaleRoundsShrink(StaleShoeAfter(shoe), k - 1);
    }
  }

  /** As written, a shoe below the threshold is never replaced: within four
      rounds fewer than six cards are left, fewer than a round may need, and
      from there a round pops from an empty shoe. */
  lemma StaleShoeRunsDry(shoe: seq<Card>)
    requires |shoe| < ReshuffleThreshold
    ensures |StaleRounds(shoe, 4)| < 6
  {
    StaleRoundsShrink(shoe, 4);
  }

  /** With the replacement in place every round has at least the threshold
      number of cards to draw from, more than the six a round can take. */
  lemma RoundShoeSuffices(shoe: seq<Card>, swaps: seq<nat>)
    requires IsSwapChoice(swaps, ShoeSize)
    ensures |RoundShoe(shoe, Shuffle(Shoe(Decks), swaps))| >= ReshuffleThreshold
  {
  }

  // ---------------------------------------------------------------------------
  // Session figures

  /** The sum of a sequence of amounts. */
  function SumOf(xs: seq<real>): real
  {
    if xs == [] then 0.0 else SumOf(xs[..|xs| - 1]) + xs[|xs| - 1]
  }

  /** Rounds with a positive net. */
  function Wins(nets: seq<real>): nat
  {
    if nets == [] then 0 else Wins(nets[..|nets| - 1]) + (if nets[|nets| - 1] > 0.0 then 1 else 0)
  }

  /** Rounds with a negative net. */
  function Losses(nets: seq<real>): nat
  {
    if nets == [] then 0 else Losses(nets[..|nets| - 1]) + (if nets[|nets| - 1] < 0.0 then 1 else 0)
  }

  /** The total stake over a history of rounds. */
  function Wagered(history: seq<GameResult>): real
  {
    if history == [] then 0.0 else Wagered(history[..|history| - 1]) + history[|history| - 1].totalBet
  }

  /** A push is neither a win nor a loss, so wins and losses together never
      exceed the rounds played. */
  lemma {:induction false} DecidedRounds(nets: seq<real>)
    ensures Wins(nets) + Losses(nets) <= |nets|
    ensures Wins(nets) + Losses(nets) == |nets| <==> forall i :: 0 <= i < |nets| ==> nets[i] != 0.0
  {
    if nets != [] {
      var n := |nets| - 1;
      DecidedRounds(nets[..n]);
      assert (forall i :: 0 <= i < |nets| ==> nets[i] != 0.0)
        <==> (forall i :: 0 <= i < n ==> nets[..n][i] != 0.0) && nets[n] != 0.0;
    }
  }

  /** The running statistics after a round with stake `stake` and net `net`:
      the stake is wagered, a positive net is a win, a negative one a loss. */
  function Tally(stats: Stats, stake: real, net: real): (r: Stats)
    ensures r.totalWagered == stats.totalWagered + stake
    ensures stats.wins <= r.wins && stats.losses <= r.losses
    ensures r.wins + r.losses <= stats.wins + stats.losses + 1
  {
    Stats(stats.totalWagered + stake,
          if net > 0.0 then stats.wins + 1 else stats.wins,
          if net < 0.0 then stats.losses + 1 else stats.losses)
  }

  /** The chart with the point for a round of net `net` appended. */
  function Extend(pnl: seq<PnLPoint>, net: real): (r: seq<PnLPoint>)
    requires pnl != []
    ensures |r| == |pnl| + 1 && r[..|pnl|] == pnl
    ensures r[|pnl|].pnl - r[|pnl| - 1].pnl == net
  {
    pnl + [PnLPoint(|pnl|, pnl[|pnl| - 1].pnl + net)]
  }

  /** The PnL chart: a starting point (0, 0), then one point per round whose
      hand number is its position and whose value adds that round's net to
      the point before. */
  ghost predicate IsPnLSeries(pnl: seq<PnLPoint>, nets: seq<real>)
    decreases nets
  {
    && |pnl| == |nets| + 1
    && if nets == [] then pnl[0] == PnLPoint(0, 0.0)
       else
         var n := |nets| - 1;
         && IsPnLSeries(pnl[..n + 1], nets[..n])
         && pnl[n + 1] == PnLPoint(n + 1, pnl[n].pnl + nets[n])
  }

  /** Each point's hand number is its position, and the last point of the
      chart is the sum of all the rounds' nets. */
  lemma {:induction false} PnLIsSumOfNets(pnl: seq<PnLPoint>, nets: seq<real>)
    requires IsPnLSeries(pnl, nets)
    ensures forall i :: 0 <= i < |pnl| ==> pnl[i].hand == i
    ensures pnl[|pnl| - 1].pnl == SumOf(nets)
  {
    if nets != [] {
      var n := |nets| - 1;
      PnLIsSumOfNets(pnl[..n + 1], nets[..n]);
      forall i | 0 <= i < |pnl|
        ensures pnl[i].hand == i
      {
        if i <= n {
          assert pnl[..n + 1][i] == pnl[i];
        }
      }
    }
  }

  /** Recording a round keeps the ledger consistent: the chart gains the point
      for the round's net, and the running tally equals the figures recomputed
      over the extended history. */
  lemma RecordRound(history: seq<GameResult>, nets: seq<real>, pnl: seq<PnLPoint>, result: GameResult, net: real)
    requires IsPnLSeries(pnl, nets)
    ensures IsPnLSeries(Extend(pnl, net), nets + [net])
    ensures Wagered(history + [result]) == Wagered(history) + result.totalBet
    ensures Wins(nets + [net]) == if net > 0.0 then Wins(nets) + 1 else Wins(nets)
    ensures Losses(nets + [net]) == if net < 0.0 then Losses(nets) + 1 else Losses(nets)
  {
    assert (history + [result])[..|history|] == history;
    assert (nets + [net])[..|nets|] == nets;
  }

  /** winRate: the percentage of decided rounds won, 0 before any is decided. */
  function WinRate(wins: nat, losses: nat): (r: real)
    ensures wins + losses == 0 ==> r == 0.0
    ensures 0.0 <= r <= 100.0
    ensures wins + losses > 0 ==> r * (wins + losses) as real == 100.0 * wins as real
  {
    if wins + losses > 0 then (wins as real / (wins + losses) as real) * 100.0 else 0.0
  }

  /** roi: profit as a percentage of the total wagered, 0 while nothing is wagered. */
  function Roi(pnl: real, wagered: real): (r: real)
    ensures wagered <= 0.0 ==> r == 0.0
    ensures wagered > 0.0 ==> r * wagered == 100.0 * pnl
    ensures wagered > 0.0 ==> (r > 0.0 <==> pnl > 0.0) && (r < 0.0 <==> pnl < 0.0)
  {
    if wagered > 0.0 then (pnl / wagered) * 100.0 else 0.0
  }

  /** The settlement part of dealGame on the final hands: the scores, the
      winner by comparison, the pair flags of each hand's first two cards, and
      calculatePayout's total return. */
  method SettleHands(playerHand: seq<Card>, bankerHand: seq<Card>, bets: Bets)
    returns (result: GameResult, totalPayout: real)
    requires |playerHand| >= 2 && |bankerHand| >= 2 && NonNeg(bets)
    ensures result == RoundResult(Hands(playerHand, bankerHand), Total(bets))
    ensures totalPayout == Settle(bets, result)
    ensures 0.0 <= totalPayout <= 12.0 * Total(bets)
  {
    var pScore, bScore := Score(playerHand), Score(bankerHand);
    var winner := DetermineWinner(pScore, bScore);
    result := GameResult(winner, pScore, bScore, IsPair(playerHand[..2]), IsPair(bankerHand[..2]), Total(bets));
    totalPayout := CalculatePayout(bets, result);
  }

  // ---------------------------------------------------------------------------
  // The table

  class Game {
    var phase: Phase
    var shoe: seq<Card>
    var playerHand: seq<Card>
    var bankerHand: seq<Card>
    var balance: real
    var bets: Bets
    var totalDeposited: real
    var totalWithdrawn: real
    var stats: Stats
    var history: seq<GameResult>
    var pnlData: seq<PnLPoint>
    var commentary: Message
    /** The net of each completed round, in order. */
    ghost var nets: seq<real>

    /** currentPnL: what the player is up, counting withdrawals as money kept. */
    function CurrentPnL(): real
      reads this`balance, this`totalWithdrawn, this`totalDeposited
    {
      balance + totalWithdrawn - totalDeposited
    }

    /** winRate as the statistics panel shows it: over the recorded rounds,
        the share of decided rounds that were won. */
    function ShownWinRate(): (r: real)
      reads this`stats, this`history, this`nets, this`pnlData
      ensures Ledger() ==> r == WinRate(Wins(nets), Losses(nets))
      ensures 0.0 <= r <= 100.0
    {
      WinRate(stats.wins, stats.losses)
    }

    /** roi as the statistics panel shows it: currentPnL against the total
        wagered over the recorded rounds. */
    function ShownRoi(): (r: real)
      reads this`stats, this`history, this`nets, this`pnlData
      reads this`balance, this`totalWithdrawn, this`totalDeposited
      ensures Ledger() ==> r == Roi(CurrentPnL(), Wagered(history))
      ensures stats.totalWagered > 0.0 ==> (r > 0.0 <==> CurrentPnL() > 0.0)
    {
      Roi(CurrentPnL(), stats.totalWagered)
    }

    /** With no stake open, currentPnL is the sum of the nets of all the
        rounds played: the cash and the record agree. */
    lemma CurrentPnLIsSumOfNets()
      requires Valid() && Ledger() && Staked() == 0.0
      ensures CurrentPnL() == SumOf(nets)
    {
      PnLIsSumOfNets(pnlData, nets);
    }

    /** Stakes taken from the balance and not yet settled. */
    function Staked(): real
      reads this`phase, this`bets
    {
      if phase == Idle || phase == Betting then Total(bets) else 0.0
    }

    /** The record of play: one net per round in the history, the PnL chart
        built from those nets, and the statistics tallied over them. Only
        dealGame writes these fields, so every other operation keeps the
        record by its modifies clause alone. */
    ghost predicate Ledger()
      reads this`history, this`nets, this`pnlData, this`stats
    {
      && |history| == |nets|
      && IsPnLSeries(pnlData, nets)
      && stats == Stats(Wagered(history), Wins(nets), Losses(nets))
    }

    /** The cash side: the balance never goes negative, no stake is negative
        and none is open when idle, and the chart's last point is currentPnL
        plus the stakes taken from the balance and not yet settled. */
    ghost predicate Valid()
      reads this`balance, this`bets, this`phase, this`totalDeposited, this`totalWithdrawn, this`pnlData
    {
      && balance >= 0.0
      && NonNeg(bets)
      && (phase == Idle ==> Total(bets) == 0.0)
      && |pnlData| > 0
      && CurrentPnL() + Staked() == pnlData[|pnlData| - 1].pnl
    }

    /** The component's initial state, with the shoe created on mount. */
    constructor (swaps: seq<nat>)
      requires IsSwapChoice(swaps, ShoeSize)
      ensures Valid() && Ledger()
      ensures phase == Idle && bets == NoBets && balance == InitialBalance
      ensures shoe == Shuffle(Shoe(Decks), swaps)
      ensures playerHand == [] && bankerHand == []
      ensures totalDeposited == 0.0 && totalWithdrawn == 0.0
      ensures stats == Stats(0.0, 0, 0) && history == [] && pnlData == [PnLPoint(0, 0.0)]
      ensures commentary == Welcome
    {
      var s := CreateShoe(Decks, swaps);
      phase := Idle;
      shoe := s;
      playerHand := [];
      bankerHand := [];
      balance := InitialBalance;
      bets := NoBets;
      totalDeposited := 0.0;
      totalWithdrawn := 0.0;
      stats := Stats(0.0, 0, 0);
      history := [];
      pnlData := [PnLPoint(0, 0.0)];
      commentary := Welcome;
      nets := [];
    }

    /** handleDeposit, for the positive whole amount the cashier accepts. */
    method Deposit(amount: nat)
      requires Valid() && amount > 0
      modifies this`balance, this`totalDeposited, this`commentary
      ensures Valid()
      ensures balance == old(balance) + amount as real
      ensures totalDeposited == old(totalDeposited) + amount as real
      ensures commentary == DepositSuccessful
    {
      balance := balance + amount as real;
      totalDeposited := totalDeposited + amount as real;
      commentary := DepositSuccessful;
    }

    /** handleWithdraw: refused when the amount exceeds the balance. */
    method Withdraw(amount: nat) returns (ok: bool)
      requires Valid() && amount > 0
      modifies this`balance, this`totalWithdrawn, this`commentary
      ensures Valid()
      ensures ok <==> amount as real <= old(balance)
      ensures ok ==> && balance == old(balance) - amount as real
                     && totalWithdrawn == old(totalWithdrawn) + amount as real
                     && commentary == Withdrawn(amount)
      ensures !ok ==> && balance == old(balance)
                      && totalWithdrawn == old(totalWithdrawn)
                      && commentary == old(commentary)
    {
      if amount as real > balance {
        return false;
      }
      balance := balance - amount as real;
      totalWithdrawn := totalWithdrawn + amount as real;
      commentary := Withdrawn(amount);
      ok := true;
    }

    /** handlePlaceBet with the selected chip. Nothing happens while dealing or
        showing a result; a first chip opens the betting phase; the chip is
        refused when the stakes already on the table plus the chip exceed the
        balance, or when it would take the position over the table maximum. */
    method PlaceBet(position: Position, chip: real) returns (placed: bool)
      requires Valid() && chip in ChipValues
      modifies this`phase, this`bets, this`balance, this`commentary
      ensures Valid()
      ensures var open := old(phase) == Idle || old(phase) == Betting;
        && phase == (if old(phase) == Idle then Betting else old(phase))
        && (placed <==> open && old(Total(bets)) + chip <= old(balance)
                             && old(Stake(bets, position)) + chip <= MaxBet)
        && commentary == (if open && old(Total(bets)) + chip > old(balance)
                          then InsufficientFunds else old(commentary))
      ensures placed ==> bets == AddStake(old(bets), position, chip) && balance == old(balance) - chip
      ensures !placed ==> bets == old(bets) && balance == old(balance)
    {
      if phase != Idle && phase != Betting {
        return false;
      }
      if phase == Idle {
        phase := Betting;
      }
      var currentTotalBet := Total(bets);
      if currentTotalBet + chip > balance {
        commentary := InsufficientFunds;
        return false;
      }
      if Stake(bets, position) + chip > MaxBet {
        return false;
      }
      bets := AddStake(bets, position, chip);
      balance := balance - chip;
      placed := true;
    }

    /** clearBets: every stake goes back to the balance and the table is idle again. */
    method ClearBets()
      requires Valid() && phase == Betting
      modifies this`balance, this`bets, this`phase
      ensures Valid()
      ensures balance == old(balance) + old(Total(bets))
      ensures bets == NoBets && phase == Idle
    {
      var totalRefund := Total(bets);
      balance := balance + totalRefund;
      bets := NoBets;
      phase := Idle;
    }

    /** resetGame ("New Bet" after a result): the settled stakes are dropped,
        not refunded, and the table is idle again. */
    method ResetGame()
      requires Valid() && phase == Result
      modifies this`playerHand, this`bankerHand, this`bets, this`phase, this`commentary
      ensures Valid()
      ensures playerHand == [] && bankerHand == [] && bets == NoBets && phase == Idle
      ensures commentary == PlaceYourBets
    {
      playerHand := [];
      bankerHand := [];
      bets := NoBets;
      phase := Idle;
      commentary := PlaceYourBets;
    }

    /** The reshuffle at the start of dealGame: a newly created shoe, and the
        table says so. */
    method Reshuffle(swaps: seq<nat>)
      requires IsSwapChoice(swaps, ShoeSize)
      modifies this`shoe, this`commentary
      ensures shoe == Shuffle(Shoe(Decks), swaps) && |shoe| == ShoeSize
      ensures commentary == Reshuffling
    {
      commentary := Reshuffling;
      shoe := CreateShoe(Decks, swaps);
    }

    /** dealGame. `swaps` are the shuffle's choices should the shoe be replaced;
        `remark` is the commentary service's text for the round. Below the
        minimum total stake only the message changes. Otherwise the round is
        dealt from the end of the shoe, settled against the bets, and folded
        into the balance, the statistics, the history and the PnL series. */
    method DealGame(swaps: seq<nat>, remark: string) returns (dealt: bool)
      requires Valid() && Ledger() && (phase == Idle || phase == Betting)
      requires IsSwapChoice(swaps, ShoeSize)
      modifies this`shoe, this`commentary, this`phase, this`playerHand, this`bankerHand
      modifies this`stats, this`balance, this`history, this`pnlData, this`nets
      ensures Valid() && Ledger()
      ensures dealt <==> old(Total(bets)) >= MinBet
      ensures !dealt ==>
        && commentary == MinimumBet && phase == old(phase) && shoe == old(shoe)
        && playerHand == old(playerHand) && bankerHand == old(bankerHand)
        && balance == old(balance) && stats == old(stats)
        && history == old(history) && pnlData == old(pnlData)
      ensures dealt ==> RoundPlayed(swaps, remark)
    {
      var totalBet := Total(bets);
      if totalBet < MinBet {
        commentary := MinimumBet;
        return false;
      }
      PlayOut(swaps, remark);
      dealt := true;
    }

    /** What a dealt round leaves behind: the hands are the round resolved from
        the shoe in play (replaced when it was below the threshold), the shoe
        keeps what was not dealt, the result goes into the history, its total
        return into the balance, its net into the statistics and the PnL chart,
        and the table shows the result with the round's remark. */
    twostate predicate RoundPlayed(swaps: seq<nat>, remark: string)
      requires IsSwapChoice(swaps, ShoeSize) && old(|pnlData|) > 0
      reads this
    {
      var src := RoundShoe(old(shoe), Shuffle(Shoe(Decks), swaps));
      && Hands(playerHand, bankerHand) == Resolve(src)
      && shoe == src[..|src| - Dealt(Resolve(src))]
      && var totalBet := Total(bets);
         var result := RoundResult(Hands(playerHand, bankerHand), totalBet);
         var net := Settle(bets, result) - totalBet;
         && history == old(history) + [result]
         && balance == old(balance) + Settle(bets, result)
         && stats == Tally(old(stats), totalBet, net)
         && pnlData == Extend(old(pnlData), net)
         && phase == Result && commentary == Remark(remark)
    }

    /** The dealt branch of dealGame. */
    method PlayOut(swaps: seq<nat>, remark: string)
      requires Valid() && Ledger() && (phase == Idle || phase == Betting)
      requires IsSwapChoice(swaps, ShoeSize)
      modifies this`shoe, this`commentary, this`phase, this`playerHand, this`bankerHand
      modifies this`stats, this`balance, this`history, this`pnlData, this`nets
      ensures Valid() && Ledger()
      ensures RoundPlayed(swaps, remark)
    {
      DealCards(swaps);
      SettleRound(remark);
    }

    /** The card part of dealGame: the shoe is replaced when it is below the
        threshold, then the hands are drawn from its end and the shoe keeps
        what is left. */
    method DealCards(swaps: seq<nat>)
      requires IsSwapChoice(swaps, ShoeSize)
      modifies this`shoe, this`commentary, this`phase, this`playerHand, this`bankerHand
      ensures var src := RoundShoe(old(shoe), Shuffle(Shoe(Decks), swaps));
        && Hands(playerHand, bankerHand) == Resolve(src)
        && shoe == src[..|src| - Dealt(Resolve(src))]
      ensures phase == Dealing && commentary == DealingCards
    {
      if |shoe| < ReshuffleThreshold {
        Reshuffle(swaps);
      }
      var src := shoe;
      assert src == RoundShoe(old(shoe), Shuffle(Shoe(Decks), swaps));
      phase := Dealing;
      playerHand := [];
      bankerHand := [];
      commentary := DealingCards;
      var pHand, bHand, pScore, bScore, rest := PlayRound(src);
      shoe := rest;
      playerHand := pHand;
      bankerHand := bHand;
    }

    /** The card part of dealGame as written: the round is dealt from the
        shoe captured before the reshuffle, and the remainder is written over
        whatever shoe the reshuffle put in place. */
    method DealCardsAsWritten(swaps: seq<nat>)
      requires IsSwapChoice(swaps, ShoeSize) && |shoe| >= 6
      modifies this`shoe, this`commentary, this`phase, this`playerHand, this`bankerHand
      ensures Hands(playerHand, bankerHand) == Resolve(old(shoe))
      ensures shoe == StaleShoeAfter(old(shoe))
      ensures phase == Dealing && commentary == DealingCards
    {
      var captured := shoe;
      if |shoe| < ReshuffleThreshold {
        Reshuffle(swaps);
      }
      phase := Dealing;
      playerHand := [];
      bankerHand := [];
      commentary := DealingCards;
      var pHand, bHand, pScore, bScore, rest := PlayRound(captured);
      shoe := rest;
      playerHand := pHand;
      bankerHand := bHand;
    }

    /** The settlement part of dealGame on the dealt hands: the result and the
        total return, recorded against the stakes taken from the balance. */
    method SettleRound(remark: string)
      requires balance >= 0.0 && NonNeg(bets) && Ledger() && phase == Dealing
      requires CurrentPnL() + Total(bets) == pnlData[|pnlData| - 1].pnl
      requires |playerHand| >= 2 && |bankerHand| >= 2
      modifies this`stats, this`balance, this`phase, this`history, this`pnlData, this`nets, this`commentary
      ensures Valid() && Ledger()
      ensures var totalBet := Total(bets);
        var result := RoundResult(Hands(playerHand, bankerHand), totalBet);
        var net := Settle(bets, result) - totalBet;
        && history == old(history) + [result]
        && balance == old(balance) + Settle(bets, result)
        && stats == Tally(old(stats), totalBet, net)
        && pnlData == Extend(old(pnlData), net)
        && phase == Result && commentary == Remark(remark)
    {
      var result, totalPayout := SettleHands(playerHand, bankerHand, bets);
      RecordResult(result, totalPayout);
      commentary := Remark(remark);
    }

    /** The settlement block of dealGame: the round's net (total return less
        total stake) goes into the statistics, the return into the balance, the
        result into the history and a new point into the PnL chart. */
    method RecordResult(result: GameResult, totalPayout: real)
      requires balance >= 0.0 && NonNeg(bets) && Ledger() && phase == Dealing
      requires CurrentPnL() + Total(bets) == pnlData[|pnlData| - 1].pnl
      requires result.totalBet == Total(bets) && totalPayout >= 0.0
      modifies this`stats, this`balance, this`phase, this`history, this`pnlData, this`nets
      ensures Valid() && Ledger()
      ensures var netProfit := totalPayout - result.totalBet;
        && stats == Tally(old(stats), result.totalBet, netProfit)
        && balance == old(balance) + totalPayout
        && phase == Result
        && history == old(history) + [result]
        && pnlData == Extend(old(pnlData), netProfit)
    {
      var netProfit := totalPayout - result.totalBet;
      RecordRound(history, nets, pnlData, result, netProfit);
      stats := Stats(stats.totalWagered + result.totalBet,
                     if netProfit > 0.0 then stats.wins + 1 else stats.wins,
                     if netProfit < 0.0 then stats.losses + 1 else stats.losses);
      balance := balance + totalPayout;
      phase := Result;
      history := history + [result];
      var lastPnl := pnlData[|pnlData| - 1].pnl;
      pnlData := pnlData + [PnLPoint(|pnlData|, lastPnl + netProfit)];
      nets := nets + [netProfit];
    }
  }

  /** Placing a chip and clearing before the deal gives the whole balance back
      and leaves the table idle. */
  method PlaceThenClear(g: Game, position: Position, chip: real)
    requires g.Valid() && g.phase == Idle && chip in ChipValues
    modifies g`phase, g`bets, g`balance, g`commentary
    ensures g.Valid() && g.phase == Idle && g.bets == NoBets
    ensures g.balance == old(g.balance)
  {
    ghost var start := g.balance;
    var placed := g.PlaceBet(position, chip);
    assert g.phase == Betting;
    assert g.balance + Total(g.bets) == start;
    g.ClearBets();
  }
}
