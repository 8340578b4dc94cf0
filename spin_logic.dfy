/** `generarTiradaLogica(modo)`: the spin the retention rules would produce
    for a play mode. One `Math.random()` draw picks a band (jackpot, pair or
    lose) by cut points that depend on the mode; further draws pick the
    symbols. The draws are given as the finite stream `rs` of the values
    `Math.random()` returns, consumed in order. */
module SpinLogic {
  import opened Symbols
  import opened Retention
  import opened Payout

  datatype Option<T> = None | Some(value: T)

  /** Which of the three branches the first draw selects. */
  datatype Band = JackpotBand | PairBand | LoseBand

  /** The draw below which a mode gives a jackpot. */
  function JackpotCut(m: Mode): (c: real)
    ensures 0.0 < c < 1.0
  {
    match m
    case Enganche => 0.05
    case Compensar => 0.15
    case Dificil => 0.01
    case Normal => 0.05
  }

  /** The draw below which (and at or above the jackpot cut) a mode gives a pair. */
  function PairCut(m: Mode): (c: real)
    ensures JackpotCut(m) < c < 1.0
  {
    match m
    case Enganche => 0.35
    case Compensar => 0.45
    case Dificil => 0.08
    case Normal => 0.20
  }

  /** The branch that the first draw `r` selects in mode `m`. */
  function BandOf(m: Mode, r: real): (b: Band)
    ensures b == JackpotBand <==> r < JackpotCut(m)
    ensures b == PairBand <==> JackpotCut(m) <= r < PairCut(m)
    ensures b == LoseBand <==> PairCut(m) <= r
  {
    if r < JackpotCut(m) then JackpotBand
    else if r < PairCut(m) then PairBand
    else LoseBand
  }

  /** Every mode can produce each of the three branches. */
  lemma EveryBandReachable(m: Mode, b: Band)
    ensures exists r :: IsUniform(r) && BandOf(m, r) == b
  {
    var r := match b
      case JackpotBand => 0.0
      case PairBand => JackpotCut(m)
      case LoseBand => PairCut(m);
    assert IsUniform(r) && BandOf(m, r) == b;
  }

  /** How generous a mode is: `dificil` least, then `normal`, `enganche`,
      and `compensar` most. */
  function Generosity(m: Mode): nat
  {
    match m
    case Dificil => 0
    case Normal => 1
    case Enganche => 2
    case Compensar => 3
  }

  /** For the same first draw, a more generous mode never does worse: a
      jackpot stays a jackpot, and a win (jackpot or pair) stays a win. */
  lemma GenerosityMonotone(m1: Mode, m2: Mode, r: real)
    requires Generosity(m1) <= Generosity(m2)
    ensures BandOf(m1, r) == JackpotBand ==> BandOf(m2, r) == JackpotBand
    ensures BandOf(m1, r) != LoseBand ==> BandOf(m2, r) != LoseBand
  {
    assert JackpotCut(m1) <= JackpotCut(m2) && PairCut(m1) <= PairCut(m2) by {
      match m1
      case Dificil =>
      case Normal => assert m2 != Dificil;
      case Enganche => assert m2 == Enganche || m2 == Compensar;
      case Compensar => assert m2 == Compensar;
    }
  }

  /** Every value of the stream is one `Math.random()` can return. */
  predicate AllUniform(rs: seq<real>)
  {
    forall i :: 0 <= i < |rs| ==> IsUniform(rs[i])
  }

  /** The three symbols drawn from `rs[p]`, `rs[p+1]` and `rs[p+2]`. */
  function TripleAt(rs: seq<real>, p: nat): Triple
    requires AllUniform(rs) && p + 3 <= |rs|
  {
    Triple(RandFruit(rs[p]), RandFruit(rs[p + 1]), RandFruit(rs[p + 2]))
  }

  /** Position `p` is where one attempt of the losing loop started `start` begins. */
  predicate IsAttempt(start: nat, p: nat)
  {
    start <= p && (p - start) % 3 == 0
  }

  /** The jackpot branch: `[f, f, f]` for one drawn symbol. */
  function JackpotSpin(u: real): (t: Triple)
    requires IsUniform(u)
    ensures AllEqual(t) && t.r1 == RandFruit(u)
  {
    var f := RandFruit(u);
    Triple(f, f, f)
  }

  /** The pair branch: `[f1, f1, f2]` for two drawn symbols. */
  function PairSpin(u1: real, u2: real): (t: Triple)
    requires IsUniform(u1) && IsUniform(u2)
    ensures t.r1 == t.r2 == RandFruit(u1) && t.r3 == RandFruit(u2)
  {
    var f1 := RandFruit(u1);
    var f2 := RandFruit(u2);
    Triple(f1, f1, f2)
  }

  /** The pair branch does not exclude a third match: it yields three of a
      kind exactly when its two draws fall in the same sixth of the unit
      interval, and then the spin is scored as a jackpot. */
  lemma PairSpinCanBeJackpot(u1: real, u2: real, k: nat)
    requires IsUniform(u1) && IsUniform(u2) && k < |Frutas|
    requires RandFruit(u1) == Frutas[k]
    ensures AllEqual(PairSpin(u1, u2)) <==> InSixth(u2, k)
    ensures Classify(PairSpin(u1, u2)) != Loss
  {
    if InSixth(u2, k) {
      assert RandFruit(u2) == Frutas[k];
    } else {
      assert RandFruit(u2) != Frutas[k];
    }
  }

  /** The losing loop: draw three symbols, and draw all three again while any
      two of them match. The stream may end before a distinct triple comes up;
      the result is then `None` (the program itself would keep drawing). The
      result is the first attempt, in stream order, with three different
      symbols. */
  method DrawLosing(rs: seq<real>, start: nat) returns (res: Option<Triple>)
    requires AllUniform(rs) && start <= |rs|
    ensures res.Some? ==> PairwiseDistinct(res.value)
    ensures res.Some? ==> exists p: nat :: (IsAttempt(start, p) && p + 3 <= |rs| && res.value == TripleAt(rs, p) &&
      forall q: nat :: IsAttempt(start, q) && q < p ==> SomePairEqual(TripleAt(rs, q)))
    ensures res.None? <==> forall p: nat :: IsAttempt(start, p) && p + 3 <= |rs| ==> SomePairEqual(TripleAt(rs, p))
  {
    if |rs| - start < 3 {
      return None;
    }
    var p := start;
    var t := TripleAt(rs, p);
    while t.r1 == t.r2 || t.r2 == t.r3 || t.r1 == t.r3
      invariant IsAttempt(start, p) && p + 3 <= |rs|
      invariant t == TripleAt(rs, p)
      invariant forall q: nat :: IsAttempt(start, q) && q < p ==> SomePairEqual(TripleAt(rs, q))
      decreases |rs| - p
    {
      if |rs| - p < 6 {
        assert forall q: nat :: IsAttempt(start, q) && q + 3 <= |rs| ==> q <= p;
        return None;
      }
      p := p + 3;
      t := TripleAt(rs, p);
    }
    return Some(t);
  }

  /** The losing loop can stop in every mode: there is a stream whose first
      draw selects the losing band and whose first attempt already shows three
      different symbols (there are six symbols to choose from). */
  lemma LosingSpinReachable(m: Mode)
    ensures exists rs: seq<real> :: (AllUniform(rs) && |rs| == 4 && BandOf(m, rs[0]) == LoseBand &&
      PairwiseDistinct(TripleAt(rs, 1)))
  {
    var rs := [PairCut(m), 0.0, 1.0 / 6.0, 2.0 / 6.0];
    assert RandFruit(rs[1]) == Frutas[0];
    assert RandFruit(rs[2]) == Frutas[1];
    assert RandFruit(rs[3]) == Frutas[2];
    assert AllUniform(rs) && PairwiseDistinct(TripleAt(rs, 1));
  }

  /** `generarTiradaLogica(mode)` on the draws `rs`: the first draw picks the
      band, the jackpot branch draws one symbol, the pair branch two, and the
      losing branch runs the losing loop from the second draw on. `None` means
      the stream ended before the spin was complete. A spin loses exactly when
      the losing band was drawn; the losing spin is the first attempt from the
      second draw on whose three symbols differ. */
  method GenerateSpin(mode: Mode, rs: seq<real>) returns (res: Option<Triple>)
    requires AllUniform(rs)
    ensures res.Some? ==> |rs| > 0 && (Classify(res.value) == Loss <==> BandOf(mode, rs[0]) == LoseBand)
    ensures |rs| > 0 && BandOf(mode, rs[0]) == JackpotBand ==>
      (res.Some? <==> |rs| >= 2) && (res.Some? ==> res.value == JackpotSpin(rs[1]))
    ensures |rs| > 0 && BandOf(mode, rs[0]) == PairBand ==>
      (res.Some? <==> |rs| >= 3) && (res.Some? ==> res.value == PairSpin(rs[1], rs[2]))
    ensures |rs| > 0 && BandOf(mode, rs[0]) == LoseBand ==>
      (res.Some? <==> exists p: nat :: IsAttempt(1, p) && p + 3 <= |rs| && PairwiseDistinct(TripleAt(rs, p))) &&
      (res.Some? ==> PairwiseDistinct(res.value)) &&
      (res.Some? ==> exists p: nat :: (IsAttempt(1, p) && p + 3 <= |rs| && res.value == TripleAt(rs, p) &&
        forall q: nat :: IsAttempt(1, q) && q < p ==> SomePairEqual(TripleAt(rs, q))))
  {
    if |rs| == 0 {
      return None;
    }
    var band := BandOf(mode, rs[0]);
    if band == JackpotBand {
      if |rs| < 2 { return None; }
      return Some(JackpotSpin(rs[1]));
    } else if band == PairBand {
      if |rs| < 3 { return None; }
      return Some(PairSpin(rs[1], rs[2]));
    }
    res := DrawLosing(rs, 1);
  }
}
