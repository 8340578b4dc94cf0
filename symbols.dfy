/** The six reel symbols of the slot machine, the draw `randFruta` makes from
    one value of `Math.random()`, and the shape predicates on a three-reel spin. */
module Symbols {

  /** One reel symbol; the constructors follow the order of the `frutas` list. */
  datatype Fruit = Cherry | Lemon | Grape | Watermelon | Orange | Star

  /** The `frutas` list, in source order. */
  const Frutas: seq<Fruit> := [Cherry, Lemon, Grape, Watermelon, Orange, Star]

  /** A value `Math.random()` can return. */
  predicate IsUniform(u: real) { 0.0 <= u < 1.0 }

  /** The draw `u` lies in the `k`-th sixth of the unit interval, `[k/6, (k+1)/6)`. */
  predicate InSixth(u: real, k: int)
  {
    k as real / 6.0 <= u < (k + 1) as real / 6.0
  }

  /** `frutas[Math.floor(u * frutas.length)]`: the symbol picked by the draw
      `u`. Each symbol owns exactly one sixth of the unit interval: the draw
      picks `Frutas[k]` if and only if it lies in `[k/6, (k+1)/6)`. */
  function RandFruit(u: real): (f: Fruit)
    requires IsUniform(u)
    ensures forall k {:trigger InSixth(u, k)} :: 0 <= k < |Frutas| ==> (f == Frutas[k] <==> InSixth(u, k))
  {
    var j := (u * (|Frutas| as real)).Floor;
    FruitBands(u, j);
    Frutas[j]
  }

  /** The index `j = floor(6u)` is the one sixth of the unit interval that
      holds `u`, and the symbols of `Frutas` are pairwise different. */
  lemma FruitBands(u: real, j: int)
    requires IsUniform(u) && j == (u * 6.0).Floor
    ensures 0 <= j < |Frutas|
    ensures forall k :: 0 <= k < |Frutas| ==> (Frutas[j] == Frutas[k] <==> InSixth(u, k))
  {
    assert j as real <= u * 6.0 < j as real + 1.0;
    forall k | 0 <= k < |Frutas|
      ensures Frutas[j] == Frutas[k] <==> InSixth(u, k)
    {
      if InSixth(u, k) {
        assert j == k;
      } else {
        assert j != k;
      }
    }
  }

  /** Every symbol can come up: the draw `k/6` picks `Frutas[k]`. */
  lemma EverySymbolReachable(f: Fruit)
    ensures exists u :: IsUniform(u) && RandFruit(u) == f
  {
    var k: nat := match f
      case Cherry => 0 case Lemon => 1 case Grape => 2
      case Watermelon => 3 case Orange => 4 case Star => 5;
    var u := k as real / 6.0;
    assert RandFruit(u) == Frutas[k];
  }

  /** A spin: the three symbols shown on reels 1, 2 and 3. */
  datatype Triple = Triple(r1: Fruit, r2: Fruit, r3: Fruit)

  /** All three reels agree (the jackpot test). */
  predicate AllEqual(t: Triple) { t.r1 == t.r2 && t.r2 == t.r3 }

  /** Some two reels agree (the pair test). */
  predicate SomePairEqual(t: Triple) { t.r1 == t.r2 || t.r2 == t.r3 || t.r1 == t.r3 }

  /** No two reels agree (the losing shape). */
  predicate PairwiseDistinct(t: Triple) { t.r1 != t.r2 && t.r2 != t.r3 && t.r1 != t.r3 }

  /** Every spin has exactly one of the three shapes: all equal, exactly one
      pair, or pairwise distinct. */
  lemma ShapesPartition(t: Triple)
    ensures AllEqual(t) ==> SomePairEqual(t)
    ensures PairwiseDistinct(t) <==> !SomePairEqual(t)
  {
  }

  /** With six symbols a losing (pairwise-distinct) spin exists, so the loop
      that redraws until the reels differ can stop. */
  lemma DistinctSpinExists()
    ensures exists t :: PairwiseDistinct(t)
  {
    var t := Triple(Frutas[0], Frutas[1], Frutas[2]);
    assert PairwiseDistinct(t);
  }
}
