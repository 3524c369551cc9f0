/** Card, shoe, scoring and settlement logic of utils/gameLogic.ts. */
module GameLogic {
  import opened Types

  const Suits: seq<Suit> := [Hearts, Diamonds, Clubs, Spades]
  const Ranks: seq<Rank> := [Ace, Two, Three, Four, Five, Six, Seven, Eight, Nine, Ten, Jack, Queen, King]

  // ---------------------------------------------------------------------------
  // Deck and shoe

  /** Baccarat point value of a rank: ace 1, pips at face value, ten and court cards 0. */
  function RankValue(rank: Rank): nat
  {
    match rank
    case Ace => 1
    case Two => 2
    case Three => 3
    case Four => 4
    case Five => 5
    case Six => 6
    case Seven => 7
    case Eight => 8
    case Nine => 9
    case Ten | Jack | Queen | King => 0
  }

  /** The ranks in deck order carry the values 1..9 and then 0 four times. */
  lemma RankValuesInDeckOrder()
    ensures forall k :: 0 <= k < 9 ==> RankValue(Ranks[k]) == k + 1
    ensures forall k :: 9 <= k < 13 ==> RankValue(Ranks[k]) == 0
  {
  }

  function MakeCard(suit: Suit, rank: Rank): Card
  {
    Card(suit, rank, RankValue(rank))
  }

  /** A card whose value is the one its rank is worth. */
  predicate WellFormed(c: Card)
  {
    c.value == RankValue(c.rank)
  }

  /** The cards of one suit for the given ranks, in order. */
  function Run(suit: Suit, ranks: seq<Rank>): seq<Card>
  {
    if ranks == [] then [] else Run(suit, ranks[..|ranks| - 1]) + [MakeCard(suit, ranks[|ranks| - 1])]
  }

  /** A full suit run for each of the given suits, in order. */
  function Runs(suits: seq<Suit>): seq<Card>
  {
    if suits == [] then [] else Runs(suits[..|suits| - 1]) + Run(suits[|suits| - 1], Ranks)
  }

  /** The 52-card deck in the order createDeck pushes it: suit by suit, ace to king. */
  function Deck(): (d: seq<Card>)
    ensures |d| == 52
  {
    RunsLength(Suits);
    Runs(Suits)
  }

  /** `n` decks laid end to end, as the shoe is before shuffling. */
  function Shoe(n: nat): (s: seq<Card>)
    ensures |s| == 52 * n
  {
    if n == 0 then [] else Shoe(n - 1) + Deck()
  }

  method CreateDeck() returns (deck: seq<Card>)
    ensures deck == Deck()
  {
    deck := [];
    for s := 0 to |Suits|
      invariant deck == Runs(Suits[..s])
    {
      var suit := Suits[s];
      for r := 0 to |Ranks|
        invariant deck == Runs(Suits[..s]) + Run(suit, Ranks[..r])
      {
        var rank := Ranks[r];
        assert Ranks[..r + 1][..r] == Ranks[..r];
        deck := deck + [Card(suit, rank, RankValue(rank))];
      }
      assert Ranks[..|Ranks|] == Ranks;
      assert Suits[..s + 1][..s] == Suits[..s];
    }
    assert Suits[..|Suits|] == Suits;
  }

  lemma {:induction false} RunAt(suit: Suit, ranks: seq<Rank>, k: nat)
    requires k < |ranks|
    ensures |Run(suit, ranks)| == |ranks|
    ensures Run(suit, ranks)[k] == MakeCard(suit, ranks[k])
  {
    var n := |ranks| - 1;
    RunLength(suit, ranks[..n]);
    if k < n {
      RunAt(suit, ranks[..n], k);
    }
  }

  lemma {:induction false} RunLength(suit: Suit, ranks: seq<Rank>)
    ensures |Run(suit, ranks)| == |ranks|
  {
    if ranks != [] {
      RunLength(suit, ranks[..|ranks| - 1]);
    }
  }

  lemma {:induction false} RunsAt(suits: seq<Suit>, i: nat, k: nat)
    requires i < |suits| && k < 13
    ensures |Runs(suits)| == 13 * |suits|
    ensures Runs(suits)[13 * i + k] == MakeCard(suits[i], Ranks[k])
  {
    var n := |suits| - 1;
    RunsLength(suits[..n]);
    RunLength(suits[n], Ranks);
    if i < n {
      RunsAt(suits[..n], i, k);
    } else {
      RunAt(suits[n], Ranks, k);
    }
  }

  lemma {:induction false} RunsLength(suits: seq<Suit>)
    ensures |Runs(suits)| == 13 * |suits|
  {
    if suits != [] {
      RunsLength(suits[..|suits| - 1]);
      RunLength(suits[|suits| - 1], Ranks);
    }
  }

  /** createDeck yields 52 cards; position 13 * i + k holds the card of the
      i-th suit and the k-th rank, with the value its rank is worth. */
  lemma DeckLayout(i: nat, k: nat)
    requires i < 4 && k < 13
    ensures |Deck()| == 52
    ensures Deck()[13 * i + k] == Card(Suits[i], Ranks[k], RankValue(Ranks[k]))
  {
    RunsAt(Suits, i, k);
  }

  /** The position of a rank in deck order. */
  function RankIndex(r: Rank): nat
  {
    match r
    case Ace => 0
    case Two => 1
    case Three => 2
    case Four => 3
    case Five => 4
    case Six => 5
    case Seven => 6
    case Eight => 7
    case Nine => 8
    case Ten => 9
    case Jack => 10
    case Queen => 11
    case King => 12
  }

  lemma IndexOfRank(r: Rank)
    ensures RankIndex(r) < |Ranks| && Ranks[RankIndex(r)] == r
  {
  }

  lemma RankAtIndex(k: nat)
    requires k < |Ranks|
    ensures RankIndex(Ranks[k]) == k
  {
  }

  /** The first k ranks in deck order hold a rank once if it is among them. */
  lemma {:induction false} RanksPrefixCount(r: Rank, k: nat)
    requires k <= |Ranks|
    ensures multiset(Ranks[..k])[r] == if RankIndex(r) < k then 1 else 0
  {
    if k > 0 {
      RanksPrefixCount(r, k - 1);
      assert Ranks[..k] == Ranks[..k - 1] + [Ranks[k - 1]];
      RankAtIndex(k - 1);
      IndexOfRank(r);
    }
  }

  lemma RanksOnce(r: Rank)
    ensures multiset(Ranks)[r] == 1
  {
    RanksPrefixCount(r, |Ranks|);
    IndexOfRank(r);
    assert Ranks[..|Ranks|] == Ranks;
  }

  lemma SuitsOnce(s: Suit)
    ensures multiset(Suits)[s] == 1
  {
  }

  lemma {:induction false} RunCount(suit: Suit, ranks: seq<Rank>, c: Card)
    ensures multiset(Run(suit, ranks))[c] ==
            if c.suit == suit && WellFormed(c) then multiset(ranks)[c.rank] else 0
  {
    if ranks != [] {
      var n := |ranks| - 1;
      assert ranks == ranks[..n] + [ranks[n]];
      RunCount(suit, ranks[..n], c);
    }
  }

  lemma {:induction false} RunsCount(suits: seq<Suit>, c: Card)
    ensures multiset(Runs(suits))[c] == if WellFormed(c) then multiset(suits)[c.suit] else 0
  {
    if suits != [] {
      var n := |suits| - 1;
      assert suits == suits[..n] + [suits[n]];
      RunsCount(suits[..n], c);
      SuitRunCount(suits[n], c);
    }
  }

  /** A full run of one suit holds each well-formed card of that suit once. */
  lemma SuitRunCount(suit: Suit, c: Card)
    ensures multiset(Run(suit, Ranks))[c] == if c.suit == suit && WellFormed(c) then 1 else 0
  {
    RunCount(suit, Ranks, c);
    RanksOnce(c.rank);
  }

  /** Every well-formed card occurs exactly once in a deck, and no other card occurs. */
  lemma DeckCount(c: Card)
    ensures |Deck()| == 52
    ensures multiset(Deck())[c] == if WellFormed(c) then 1 else 0
  {
    RunsLength(Suits);
    RunsCount(Suits, c);
    SuitsOnce(c.suit);
  }

  /** One more deck adds one more copy of each well-formed card. */
  lemma ShoeCountStep(n: nat, c: Card)
    requires n > 0
    requires multiset(Shoe(n - 1))[c] == if WellFormed(c) then n - 1 else 0
    ensures multiset(Shoe(n))[c] == if WellFormed(c) then n else 0
  {
    DeckCount(c);
    assert Shoe(n) == Shoe(n - 1) + Deck();
  }

  /** An n-deck shoe holds 52 n cards: n copies of each well-formed card. */
  lemma {:induction false} ShoeCount(n: nat, c: Card)
    ensures |Shoe(n)| == 52 * n
    ensures multiset(Shoe(n))[c] == if WellFormed(c) then n else 0
  {
    if n > 0 {
      ShoeCount(n - 1, c);
      ShoeCountStep(n, c);
    }
  }

  /** Exchange of positions `i` and `j`. */
  function Swap<T>(s: seq<T>, i: nat, j: nat): (r: seq<T>)
    requires i < |s| && j < |s|
    ensures |r| == |s| && r[i] == s[j] && r[j] == s[i]
    ensures forall k :: 0 <= k < |s| && k != i && k != j ==> r[k] == s[k]
  {
    s[i := s[j]][j := s[i]]
  }

  lemma SwapPermutes<T>(s: seq<T>, i: nat, j: nat)
    requires i < |s| && j < |s|
    ensures multiset(Swap(s, i, j)) == multiset(s)
  {
    var r := s[i := s[j]];
    assert multiset(r) == multiset(s) - multiset{s[i]} + multiset{s[j]};
    assert multiset(r[j := s[i]]) == multiset(r) - multiset{r[j]} + multiset{s[i]};
  }

  /** The random choices of a Fisher-Yates pass over `n` positions: position
      `i` (from n - 1 down to 1) is exchanged with `swaps[i]`, some index in [0, i]. */
  predicate IsSwapChoice(swaps: seq<nat>, n: nat)
  {
    |swaps| == n && forall i :: 0 < i < n ==> swaps[i] <= i
  }

  /** The Fisher-Yates steps for positions m - 1 down to 1. */
  function ShuffleUpTo<T>(s: seq<T>, swaps: seq<nat>, m: nat): (r: seq<T>)
    requires m <= |s| && IsSwapChoice(swaps, |s|)
    ensures |r| == |s|
    decreases m
  {
    if m <= 1 then s else ShuffleUpTo(Swap(s, m - 1, swaps[m - 1]), swaps, m - 1)
  }

  /** The full Fisher-Yates shuffle of `s` under the choices `swaps`. */
  function Shuffle<T>(s: seq<T>, swaps: seq<nat>): (r: seq<T>)
    requires IsSwapChoice(swaps, |s|)
    ensures |r| == |s|
  {
    ShuffleUpTo(s, swaps, |s|)
  }

  lemma {:induction false} ShuffleUpToPermutes<T>(s: seq<T>, swaps: seq<nat>, m: nat)
    requires m <= |s| && IsSwapChoice(swaps, |s|)
    ensures multiset(ShuffleUpTo(s, swaps, m)) == multiset(s)
    decreases m
  {
    if m > 1 {
      SwapPermutes(s, m - 1, swaps[m - 1]);
      ShuffleUpToPermutes(Swap(s, m - 1, swaps[m - 1]), swaps, m - 1);
    }
  }

  /** Whatever the choices, the shuffle only rearranges: same length, same multiset. */
  lemma ShufflePermutes<T>(s: seq<T>, swaps: seq<nat>)
    requires IsSwapChoice(swaps, |s|)
    ensures multiset(Shuffle(s, swaps)) == multiset(s)
  {
    ShuffleUpToPermutes(s, swaps, |s|);
  }

  /** The Fisher-Yates pass of createShoe on the shoe array: position i, from
      the last down to 1, is exchanged with the chosen swaps[i]. */
  method ShuffleInPlace(a: array<Card>, swaps: seq<nat>)
    requires IsSwapChoice(swaps, a.Length)
    modifies a
    ensures a[..] == Shuffle(old(a[..]), swaps)
  {
    var i := a.Length - 1;
    while i > 0
      invariant -1 <= i < a.Length
      invariant ShuffleUpTo(a[..], swaps, i + 1) == Shuffle(old(a[..]), swaps)
      decreases i
    {
      var j := swaps[i];
      var t := a[i];
      a[i] := a[j];
      a[j] := t;
      i := i - 1;
    }
  }

  /** createShoe: `decks` decks concatenated, then shuffled in place. */
  method CreateShoe(decks: nat, swaps: seq<nat>) returns (shoe: seq<Card>)
    requires IsSwapChoice(swaps, 52 * decks)
    ensures shoe == Shuffle(Shoe(decks), swaps)
    ensures |shoe| == 52 * decks
    ensures forall c :: multiset(shoe)[c] == if WellFormed(c) then decks else 0
  {
    var cards: seq<Card> := [];
    for i := 0 to decks
      invariant cards == Shoe(i)
    {
      var deck := CreateDeck();
      cards := cards + deck;
    }
    var a := new Card[|cards|](k requires 0 <= k < |cards| => cards[k]);
    assert a[..] == cards;
    ShuffleInPlace(a, swaps);
    shoe := a[..];
    ShufflePermutes(cards, swaps);
    forall c
      ensures multiset(shoe)[c] == if WellFormed(c) then decks else 0
    {
      ShoeCount(decks, c);
    }
  }


  // ---------------------------------------------------------------------------
  // Scoring

  /** Sum of the card values, folded from the left as `reduce` does. */
  function Sum(hand: seq<Card>): nat
  {
    if hand == [] then 0 else Sum(hand[..|hand| - 1]) + hand[|hand| - 1].value
  }

  /** calculateScore: the sum of the values modulo 10. */
  function Score(hand: seq<Card>): (r: nat)
    ensures r <= 9
  {
    Sum(hand) % 10
  }

  lemma {:induction false} SumAppend(a: seq<Card>, b: seq<Card>)
    ensures Sum(a + b) == Sum(a) + Sum(b)
    decreases |b|
  {
    if b != [] {
      var n := |b| - 1;
      assert (a + b)[..|a + b| - 1] == a + b[..n];
      assert (a + b)[|a + b| - 1] == b[n];
      SumAppend(a, b[..n]);
    } else {
      assert a + b == a;
    }
  }

  lemma {:induction false} SumPermutation(h1: seq<Card>, h2: seq<Card>)
    requires multiset(h1) == multiset(h2)
    ensures Sum(h1) == Sum(h2)
    decreases |h1|
  {
    if h1 == [] {
      assert |h2| == |multiset(h2)| == 0;
    } else {
      var n := |h1| - 1;
      var x := h1[n];
      assert h1 == h1[..n] + [x];
      assert x in multiset(h2);
      var k :| 0 <= k < |h2| && h2[k] == x;
      var rest := h2[..k] + h2[k + 1..];
      assert h2 == h2[..k] + [x] + h2[k + 1..];
      assert multiset(h2) == multiset(h2[..k]) + multiset{x} + multiset(h2[k + 1..]);
      assert multiset(h1) == multiset(h1[..n]) + multiset{x};
      assert multiset(rest) == multiset(h2[..k]) + multiset(h2[k + 1..]);
      assert multiset(rest) == multiset(h2) - multiset{x};
      assert multiset(h1[..n]) == multiset(h1) - multiset{x};
      SumPermutation(h1[..n], rest);
      SumAppend(h2[..k] + [x], h2[k + 1..]);
      SumAppend(h2[..k], [x]);
      SumAppend(h2[..k], h2[k + 1..]);
    }
  }

  /** The score does not depend on the order of the cards in the hand. */
  lemma ScoreReorder(h1: seq<Card>, h2: seq<Card>)
    requires multiset(h1) == multiset(h2)
    ensures Score(h1) == Score(h2)
  {
    SumPermutation(h1, h2);
  }

  /** isPair: the first two cards share a rank. */
  function IsPair(hand: seq<Card>): (pair: bool)
    ensures pair ==> |hand| >= 2
  {
    if |hand| < 2 then false else hand[0].rank == hand[1].rank
  }

  /** A hand of fewer than two cards is never a pair; otherwise only the ranks
      of the first two cards matter: not their suits, not later cards. */
  lemma PairByFirstTwoRanks(h1: seq<Card>, h2: seq<Card>)
    ensures |h1| < 2 ==> !IsPair(h1)
    ensures |h1| >= 2 && |h2| >= 2 && h1[0].rank == h2[0].rank && h1[1].rank == h2[1].rank
            ==> IsPair(h1) == IsPair(h2)
    ensures |h1| >= 2 ==> (IsPair(h1) <==> h1[0].rank == h1[1].rank)
  {
  }

  // ---------------------------------------------------------------------------
  // Winner

  /** determineWinner: the higher score wins; equal scores tie. */
  function DetermineWinner(playerScore: int, bankerScore: int): (w: Winner)
    ensures w == Tie <==> playerScore == bankerScore
  {
    if playerScore > bankerScore then Player
    else if bankerScore > playerScore then Banker
    else Tie
  }

  function Mirror(w: Winner): Winner
  {
    match w
    case Player => Banker
    case Banker => Player
    case Tie => Tie
  }

  /** Exactly one side wins by strict comparison, and swapping the scores
      swaps Player and Banker and keeps Tie. */
  lemma WinnerByComparison(p: int, b: int)
    ensures DetermineWinner(p, b) == Player <==> p > b
    ensures DetermineWinner(p, b) == Banker <==> b > p
    ensures DetermineWinner(p, b) == Tie <==> p == b
    ensures DetermineWinner(b, p) == Mirror(DetermineWinner(p, b))
  {
  }

  // ---------------------------------------------------------------------------
  // Settlement

  /** What one position returns, stake included: the payout table written as
      total-return multiples of the stake. */
  function PositionReturn(pos: Position, stake: real, r: GameResult): (ret: real)
    ensures 0.0 <= stake ==> 0.0 <= ret <= 12.0 * stake
  {
    match pos
    case PlayerBet =>
      if r.winner == Player then 2.0 * stake else if r.winner == Tie then stake else 0.0
    case BankerBet =>
      if r.winner == Banker then (if r.bankerScore == 6 then 1.5 * stake else 2.0 * stake)
      else if r.winner == Tie then stake
      else 0.0
    case TieBet =>
      if r.winner == Tie then 9.0 * stake else 0.0
    case PlayerPairBet =>
      if r.isPlayerPair then 12.0 * stake else 0.0
    case BankerPairBet =>
      if r.isBankerPair then 12.0 * stake else 0.0
  }

  /** The total return of a round: the five positions settled independently. */
  function Settle(bets: Bets, r: GameResult): (total: real)
    ensures NonNeg(bets) ==> 0.0 <= total <= 12.0 * Total(bets)
  {
    PositionReturn(PlayerBet, bets.player, r)
    + PositionReturn(BankerBet, bets.banker, r)
    + PositionReturn(TieBet, bets.tie, r)
    + PositionReturn(PlayerPairBet, bets.playerPair, r)
    + PositionReturn(BankerPairBet, bets.bankerPair, r)
  }

  /** The stakes calculatePayout looks at: a position without a positive
      stake is skipped, as if it held nothing. */
  function Positive(bets: Bets): (p: Bets)
    ensures NonNeg(p)
    ensures NonNeg(bets) ==> p == bets
  {
    Bets(if bets.player > 0.0 then bets.player else 0.0,
         if bets.banker > 0.0 then bets.banker else 0.0,
         if bets.tie > 0.0 then bets.tie else 0.0,
         if bets.playerPair > 0.0 then bets.playerPair else 0.0,
         if bets.bankerPair > 0.0 then bets.bankerPair else 0.0)
  }

  /** calculatePayout, the total-return part: the stake plus the profit of
      every position with a positive stake. */
  method CalculatePayout(bets: Bets, result: GameResult) returns (totalReturn: real)
    ensures totalReturn == Settle(Positive(bets), result)
  {
    ghost var p := Positive(bets);
    totalReturn := 0.0;
    if bets.player > 0.0 {
      if result.winner == Player {
        totalReturn := totalReturn + (bets.player + bets.player * PlayerOdds);
      } else if result.winner == Tie {
        totalReturn := totalReturn + bets.player;
      }
    }
    assert totalReturn == PositionReturn(PlayerBet, p.player, result);
    if bets.banker > 0.0 {
      if result.winner == Banker {
        var odds := if result.bankerScore == 6 then BankerSuper6Odds else BankerOdds;
        totalReturn := totalReturn + (bets.banker + bets.banker * odds);
      } else if result.winner == Tie {
        totalReturn := totalReturn + bets.banker;
      }
    }
    assert totalReturn == PositionReturn(PlayerBet, p.player, result)
                        + PositionReturn(BankerBet, p.banker, result);
    if bets.tie > 0.0 && result.winner == Tie {
      totalReturn := totalReturn + (bets.tie + bets.tie * TieOdds);
    }
    assert totalReturn == PositionReturn(PlayerBet, p.player, result)
                        + PositionReturn(BankerBet, p.banker, result)
                        + PositionReturn(TieBet, p.tie, result);
    if bets.playerPair > 0.0 && result.isPlayerPair {
      totalReturn := totalReturn + (bets.playerPair + bets.playerPair * PairOdds);
    }
    if bets.bankerPair > 0.0 && result.isBankerPair {
      totalReturn := totalReturn + (bets.bankerPair + bets.bankerPair * PairOdds);
    }
  }

  /** Positions settle independently: adding a chip on one position adds that
      position's return for the chip and nothing else; a zero stake returns nothing. */
  lemma SettleAddStake(bets: Bets, pos: Position, chip: real, r: GameResult)
    ensures Settle(AddStake(bets, pos, chip), r) == Settle(bets, r) + PositionReturn(pos, chip, r)
    ensures PositionReturn(pos, 0.0, r) == 0.0
  {
  }

  /** Player and Banker stakes push on a tie: the total stake comes back. */
  lemma TiePushesPlayerAndBanker(bets: Bets, r: GameResult)
    requires bets.tie == 0.0 && bets.playerPair == 0.0 && bets.bankerPair == 0.0
    requires r.winner == Tie
    ensures Settle(bets, r) == Total(bets)
  {
  }
}
