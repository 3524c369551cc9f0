/** The drawing tableau and the resolution of one round from the shoe
    (the card logic of dealGame in App.tsx). Cards are taken from the end
    of the shoe: Player, Banker, Player, Banker, then the third cards. */
module Dealing {
  import opened Types
  import opened GameLogic

  /** A two-card score of 8 or 9 on either side ends the deal. */
  predicate IsNatural(playerScore: nat, bankerScore: nat)
  {
    playerScore >= 8 || bankerScore >= 8
  }

  /** Player's rule: draw on a two-card score of 0 to 5. */
  predicate PlayerDraws(playerScore: nat)
  {
    playerScore <= 5
  }

  /** Banker's rule. When the Player stood (`playerThird` is None) the Banker
      draws on 0 to 5; otherwise the decision is keyed on the value of the
      Player's third card. */
  predicate BankerDraws(bankerScore: nat, playerThird: Option<nat>)
  {
    match playerThird
    case None => bankerScore <= 5
    case Some(p3) =>
      if bankerScore <= 2 then true
      else if bankerScore == 3 then p3 != 8
      else if bankerScore == 4 then 2 <= p3 <= 7
      else if bankerScore == 5 then 4 <= p3 <= 7
      else if bankerScore == 6 then 6 <= p3 <= 7
      else false
  }

  /** The Banker's drawing chart as casinos print it: row = Banker's two-card
      score, column = value of the Player's third card, D = draw, S = stand. */
  const BankerChart: seq<string> := [
    "DDDDDDDDDD",
    "DDDDDDDDDD",
    "DDDDDDDDDD",
    "DDDDDDDDSD",
    "SSDDDDDDSS",
    "SSSSDDDDSS",
    "SSSSSSDDSS",
    "SSSSSSSSSS",
    "SSSSSSSSSS",
    "SSSSSSSSSS"
  ]

  /** The rule agrees with the printed chart on all hundred entries. */
  lemma BankerRuleMatchesChart(b: nat, p3: nat)
    requires b < 10 && p3 < 10
    ensures BankerDraws(b, Some(p3)) <==> BankerChart[b][p3] == 'D'
  {
  }

  /** The final hands of a round. */
  datatype Hands = Hands(player: seq<Card>, banker: seq<Card>)

  function Dealt(h: Hands): nat
  {
    |h.player| + |h.banker|
  }

  /** The round dealt from the end of `shoe`: Player gets the last and third-last
      cards, Banker the second- and fourth-last; the third cards follow in order. */
  function Resolve(shoe: seq<Card>): (h: Hands)
    requires |shoe| >= 6
    ensures 2 <= |h.player| <= 3 && 2 <= |h.banker| <= 3
  {
    var n := |shoe|;
    var p := [shoe[n - 1], shoe[n - 3]];
    var b := [shoe[n - 2], shoe[n - 4]];
    if IsNatural(Score(p), Score(b)) then Hands(p, b)
    else if PlayerDraws(Score(p)) then
      var p3 := shoe[n - 5];
      Hands(p + [p3], if BankerDraws(Score(b), Some(p3.value)) then b + [shoe[n - 6]] else b)
    else
      Hands(p, if BankerDraws(Score(b), None) then b + [shoe[n - 5]] else b)
  }

  /** `shoe.pop()`: the last card and what is left. */
  method Draw(shoe: seq<Card>) returns (card: Card, rest: seq<Card>)
    requires shoe != []
    ensures shoe == rest + [card]
  {
    card := shoe[|shoe| - 1];
    rest := shoe[..|shoe| - 1];
  }

  /** The draw sequence of dealGame: four cards, the natural check, the
      Player's rule, the Banker's rule, and the final scores. */
  method PlayRound(shoe: seq<Card>)
    returns (playerHand: seq<Card>, bankerHand: seq<Card>, playerScore: nat, bankerScore: nat, rest: seq<Card>)
    requires |shoe| >= 6
    ensures Hands(playerHand, bankerHand) == Resolve(shoe)
    ensures rest == shoe[..|shoe| - |playerHand| - |bankerHand|]
    ensures playerScore == Score(playerHand) && bankerScore == Score(bankerHand)
  {
    var n := |shoe|;
    var newShoe := shoe;
    var c1, c2, c3, c4;
    c1, newShoe := Draw(newShoe);
    c2, newShoe := Draw(newShoe);
    c3, newShoe := Draw(newShoe);
    c4, newShoe := Draw(newShoe);
    assert shoe == newShoe + [c4, c3, c2, c1];
    assert newShoe == shoe[..n - 4];

    playerHand := [c1, c3];
    bankerHand := [c2, c4];
    playerScore := Score(playerHand);
    bankerScore := Score(bankerHand);
    var playerThird: Option<Card> := None;

    if !IsNatural(playerScore, bankerScore) {
      if PlayerDraws(playerScore) {
        var c;
        c, newShoe := Draw(newShoe);
        playerThird := Some(c);
        playerHand := playerHand + [c];
        playerScore := Score(playerHand);
      }
      var p3 := if playerThird.Some? then Some(playerThird.value.value) else None;
      if BankerDraws(bankerScore, p3) {
        var c;
        c, newShoe := Draw(newShoe);
        bankerHand := bankerHand + [c];
      }
    }
    bankerScore := Score(bankerHand);
    rest := newShoe;
  }

  /** The shape of every round: each hand starts with its two dealt cards and
      has two or three cards, and four to six cards leave the shoe. */
  lemma ResolveShape(shoe: seq<Card>)
    requires |shoe| >= 6
    ensures var h, n := Resolve(shoe), |shoe|;
      && 2 <= |h.player| <= 3 && 2 <= |h.banker| <= 3
      && h.player[..2] == [shoe[n - 1], shoe[n - 3]]
      && h.banker[..2] == [shoe[n - 2], shoe[n - 4]]
      && 4 <= Dealt(h) <= 6
  {
  }

  /** The cards in the order they are drawn: Player, Banker, Player, Banker,
      then the Player's and the Banker's third cards when there are any. */
  function DealOrder(h: Hands): seq<Card>
    requires |h.player| >= 2 && |h.banker| >= 2
  {
    [h.player[0], h.banker[0], h.player[1], h.banker[1]] + h.player[2..] + h.banker[2..]
  }

  /** Every dealt card comes off the end of the shoe, in deal order: the i-th
      card drawn is the i-th from the end, so the cards dealt are exactly the
      last Dealt(h) cards of the shoe. */
  lemma ResolveTakesFromEnd(shoe: seq<Card>)
    requires |shoe| >= 6
    ensures var h, n := Resolve(shoe), |shoe|;
      && |h.player| >= 2 && |h.banker| >= 2
      && |DealOrder(h)| == Dealt(h)
      && forall i :: 0 <= i < Dealt(h) ==> DealOrder(h)[i] == shoe[n - 1 - i]
  {
    var h, n := Resolve(shoe), |shoe|;
    var p, b := [shoe[n - 1], shoe[n - 3]], [shoe[n - 2], shoe[n - 4]];
    if IsNatural(Score(p), Score(b)) {
      assert DealOrder(h) == [shoe[n - 1], shoe[n - 2], shoe[n - 3], shoe[n - 4]];
    } else if PlayerDraws(Score(p)) {
      if BankerDraws(Score(b), Some(shoe[n - 5].value)) {
        assert DealOrder(h) == [shoe[n - 1], shoe[n - 2], shoe[n - 3], shoe[n - 4], shoe[n - 5], shoe[n - 6]];
      } else {
        assert DealOrder(h) == [shoe[n - 1], shoe[n - 2], shoe[n - 3], shoe[n - 4], shoe[n - 5]];
      }
    } else {
      if BankerDraws(Score(b), None) {
        assert DealOrder(h) == [shoe[n - 1], shoe[n - 2], shoe[n - 3], shoe[n - 4], shoe[n - 5]];
      } else {
        assert DealOrder(h) == [shoe[n - 1], shoe[n - 2], shoe[n - 3], shoe[n - 4]];
      }
    }
  }

  /** The drawing rules, read off the final hands: a natural stops the deal;
      the Player draws iff no natural and a two-card score of at most 5; the
      Banker draws iff no natural and the Banker rule says so given the
      Player's third card, if any. */
  lemma ResolveFollowsRules(shoe: seq<Card>)
    requires |shoe| >= 6
    ensures var h := Resolve(shoe);
      var p2, b2 := Score(h.player[..2]), Score(h.banker[..2]);
      && (IsNatural(p2, b2) ==> |h.player| == 2 && |h.banker| == 2)
      && (|h.player| == 3 <==> !IsNatural(p2, b2) && p2 <= 5)
      && (|h.banker| == 3 <==>
            !IsNatural(p2, b2)
            && BankerDraws(b2, if |h.player| == 3 then Some(h.player[2].value) else None))
  {
    var h, n := Resolve(shoe), |shoe|;
    assert h.player[..2] == [shoe[n - 1], shoe[n - 3]];
    assert h.banker[..2] == [shoe[n - 2], shoe[n - 4]];
  }

  /** The outcome depends on the last six cards of the shoe only. */
  lemma ResolveUsesLastSix(shoe: seq<Card>)
    requires |shoe| >= 6
    ensures Resolve(shoe) == Resolve(shoe[|shoe| - 6..])
  {
  }

  /** The result record of a round: final scores, the winner by comparison and
      the pair flags of the first two cards of each hand. */
  function RoundResult(h: Hands, totalBet: real): (r: GameResult)
    requires |h.player| >= 2 && |h.banker| >= 2
    ensures r.playerScore <= 9 && r.bankerScore <= 9
    ensures r.isPlayerPair == (h.player[0].rank == h.player[1].rank)
    ensures r.isBankerPair == (h.banker[0].rank == h.banker[1].rank)
  {
    var p, b := Score(h.player), Score(h.banker);
    GameResult(DetermineWinner(p, b), p, b, IsPair(h.player[..2]), IsPair(h.banker[..2]), totalBet)
  }
}
