/** How a finished spin is scored in the click handler: a jackpot pays three
    times the bet, a pair pays the bet times 1.5 rounded, anything else loses
    the bet. The result is the signed change in the player's chips. */
module Payout {
  import opened Symbols

  /** The three ways a spin can be scored, tested in this order. */
  datatype Outcome = Jackpot | Pair | Loss

  /** The jackpot test runs first, then the pair test; whatever is left loses. */
  function Classify(t: Triple): (o: Outcome)
    ensures o == Jackpot <==> AllEqual(t)
    ensures o == Pair <==> SomePairEqual(t) && !AllEqual(t)
    ensures o == Loss <==> PairwiseDistinct(t)
  {
    if AllEqual(t) then Jackpot
    else if SomePairEqual(t) then Pair
    else Loss
  }

  /** `Math.round(n / 2)`: the integer nearest to `n/2`, halves rounded up
      (towards positive infinity). */
  function RoundHalf(n: int): (r: int)
    ensures 2 * r - 1 <= n < 2 * r + 1
  {
    (n + 1) / 2
  }

  /** `Math.round(bet * 1.5)`, the pair prize. */
  function PairPrize(bet: int): (r: int)
    ensures 2 * r == 3 * bet || 2 * r == 3 * bet + 1
  {
    RoundHalf(3 * bet)
  }

  /** The change in chips (`fichasCambiadas`) for spin `t` at stake `bet`,
      keyed by the shape of the spin: three of a kind wins `3*bet`, exactly one
      matching pair wins the pair prize, three different symbols lose `bet`. */
  function Delta(t: Triple, bet: int): (d: int)
    ensures AllEqual(t) ==> d == 3 * bet
    ensures SomePairEqual(t) && !AllEqual(t) ==> d == PairPrize(bet)
    ensures PairwiseDistinct(t) ==> d == -bet
  {
    match Classify(t)
    case Jackpot => 3 * bet
    case Pair => PairPrize(bet)
    case Loss => -bet
  }

  /** The three payout rules for a positive bet, each keyed by the shape of
      the spin: three of a kind pays `3*bet`; exactly one matching pair pays
      `round(1.5*bet)`, which lies in `(bet, 2*bet]` (a bet of 1 wins 2);
      three different symbols lose the bet. */
  lemma DeltaByShape(t: Triple, bet: int)
    requires bet > 0
    ensures AllEqual(t) ==> Delta(t, bet) == 3 * bet
    ensures SomePairEqual(t) && !AllEqual(t) ==>
      Delta(t, bet) == (3 * bet + 1) / 2 && bet < Delta(t, bet) <= 2 * bet
    ensures PairwiseDistinct(t) ==> Delta(t, bet) == -bet
  {
    if SomePairEqual(t) && !AllEqual(t) {
      var r := Delta(t, bet);
      assert 2 * r == 3 * bet || 2 * r == 3 * bet + 1;
    }
  }

  /** For a positive bet the player loses chips exactly when the three
      symbols are pairwise distinct, and never comes out even. */
  lemma DeltaSign(t: Triple, bet: int)
    requires bet > 0
    ensures Delta(t, bet) < 0 <==> PairwiseDistinct(t)
    ensures Delta(t, bet) > 0 <==> SomePairEqual(t)
  {
    DeltaByShape(t, bet);
  }

  /** For a positive bet a jackpot pays strictly more than any pair, a pair
      pays something, and no spin loses more than the bet or wins more than
      three times it: `-bet <= delta <= 3*bet`. */
  lemma DeltaOrder(t: Triple, u: Triple, bet: int)
    requires bet > 0
    requires AllEqual(t) && SomePairEqual(u) && !AllEqual(u)
    ensures Delta(t, bet) > Delta(u, bet) > 0
    ensures forall v :: -bet <= Delta(v, bet) <= 3 * bet
  {
    DeltaByShape(t, bet);
    DeltaByShape(u, bet);
    forall v
      ensures -bet <= Delta(v, bet) <= 3 * bet
    {
      DeltaByShape(v, bet);
    }
  }
}
