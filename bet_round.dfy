/** The click handler of the play button: read the bet from the text field,
    refuse it if it is not a positive number or exceeds the chips the page
    knows of, and otherwise spin three reels and score them. */
module BetRound {
  import opened Symbols
  import opened JsNumbers
  import opened Payout

  /** Why a bet is refused: not a positive number, or more than the chips held. */
  datatype Rejection = InvalidBet | NotEnoughChips

  /** The verdict on the text typed as a bet. */
  datatype BetCheck = Refused(reason: Rejection) | Accepted(bet: int)

  /** `parseInt` of the field, then the two guards in source order: NaN or
      `<= 0` is invalid; a bet above `chips` (the balance loaded with the
      page) is unaffordable. */
  function CheckBet(input: string, chips: int): (c: BetCheck)
    ensures c.Accepted? <==> ParseInt(input).Int? && 0 < ParseInt(input).v <= chips
    ensures c.Accepted? ==> ParseInt(input) == Int(c.bet)
    ensures c == Refused(InvalidBet) <==> !Greater(ParseInt(input), 0)
    ensures c == Refused(NotEnoughChips) <==> Greater(ParseInt(input), 0) && chips < ParseInt(input).v
  {
    var bet := ParseInt(input);
    if bet.NaN? || bet.v <= 0 then Refused(InvalidBet)
    else if chips < bet.v then Refused(NotEnoughChips)
    else Accepted(bet.v)
  }

  /** A bet typed as an integer, optionally followed by text that starts with
      neither a digit nor a letter (`"20"`, `"20.5"`, `"20 fichas"`), is
      accepted exactly when it is positive and covered by the chips. */
  lemma CheckTypedBet(n: int, rest: string, chips: int)
    requires rest == [] || DigitValue(rest[0]) == 36
    ensures CheckBet(ToStr(Int(n)) + rest, chips) ==
      if n <= 0 then Refused(InvalidBet)
      else if chips < n then Refused(NotEnoughChips)
      else Accepted(n)
  {
    ParseIntOfDecimal(n, rest);
  }

  /** An empty field is refused as invalid. */
  lemma CheckEmptyBet(chips: int)
    ensures CheckBet("", chips) == Refused(InvalidBet)
  {
    assert ParseInt("") == NaN;
  }

  /** What one click does: a refusal, or the spin shown and the change in chips. */
  datatype Round = Rejected(reason: Rejection) | Spun(spin: Triple, delta: int)

  /** One click, given the three `Math.random()` draws that pick the final
      reels. The reel animation before them only changes what is displayed.
      The click is refused exactly when the bet check refuses it, with the
      same reason; otherwise the bet is the number `parseInt` read, positive
      and covered by the chips, and the change in chips is the score of the
      three drawn symbols at that bet. */
  function Play(input: string, chips: int, u1: real, u2: real, u3: real): (r: Round)
    requires IsUniform(u1) && IsUniform(u2) && IsUniform(u3)
    ensures r.Rejected? <==> CheckBet(input, chips).Refused?
    ensures r.Rejected? ==> CheckBet(input, chips) == Refused(r.reason)
    ensures r.Spun? ==> (ParseInt(input).Int? && 0 < ParseInt(input).v <= chips &&
      r.spin == Triple(RandFruit(u1), RandFruit(u2), RandFruit(u3)) && r.delta == Delta(r.spin, ParseInt(input).v))
  {
    match CheckBet(input, chips)
    case Refused(why) => Rejected(why)
    case Accepted(bet) =>
      var t := Triple(RandFruit(u1), RandFruit(u2), RandFruit(u3));
      Spun(t, Delta(t, bet))
  }

  /** Both guards run before the reels: a refused click is refused whatever the
      draws would have been, and its verdict is that of `CheckBet`. */
  lemma RefusalPrecedesSpin(input: string, chips: int, u1: real, u2: real, u3: real,
                            v1: real, v2: real, v3: real)
    requires IsUniform(u1) && IsUniform(u2) && IsUniform(u3)
    requires IsUniform(v1) && IsUniform(v2) && IsUniform(v3)
    requires Play(input, chips, u1, u2, u3).Rejected?
    ensures Play(input, chips, v1, v2, v3) == Play(input, chips, u1, u2, u3)
    ensures CheckBet(input, chips) == Refused(Play(input, chips, u1, u2, u3).reason)
  {
  }

  /** A played round never costs more than the chips the page knows of, pays
      out exactly when two reels match, and scores the spin it shows. */
  lemma PlayedRoundIsCovered(input: string, chips: int, u1: real, u2: real, u3: real)
    requires IsUniform(u1) && IsUniform(u2) && IsUniform(u3)
    requires Play(input, chips, u1, u2, u3).Spun?
    ensures var r := Play(input, chips, u1, u2, u3);
      r.spin == Triple(RandFruit(u1), RandFruit(u2), RandFruit(u3)) &&
      chips + r.delta >= 0 &&
      (r.delta > 0 <==> SomePairEqual(r.spin)) &&
      (r.delta < 0 <==> PairwiseDistinct(r.spin))
  {
    var bet := CheckBet(input, chips).bet;
    var t := Triple(RandFruit(u1), RandFruit(u2), RandFruit(u3));
    DeltaByShape(t, bet);
    DeltaSign(t, bet);
  }
}
