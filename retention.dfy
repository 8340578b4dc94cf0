/** The retention rules of the slot machine: five counters kept in the
    browser's `localStorage` (plays, wins, losses, accumulated net result and
    last bet), the rule that picks a play mode from them, and the update that
    records one play. The store is a map from key to text, as `localStorage`
    is; every counter is read back through `parseInt`. */
module Retention {
  import opened JsNumbers

  /** The four play modes: `enganche` (hook a new player), `dificil` (hard),
      `compensar` (compensate a losing streak) and `normal`. */
  datatype Mode = Enganche | Dificil | Compensar | Normal

  const PlaysKey: string := "tragamonedas_jugadas"
  const WinsKey: string := "tragamonedas_ganadas"
  const LossesKey: string := "tragamonedas_perdidas"
  const AccumulatedKey: string := "tragamonedas_acumulado"
  const LastBetKey: string := "tragamonedas_ultima_apuesta"

  /** The five keys the retention rules own. */
  const CounterKeys: set<string> := {PlaysKey, WinsKey, LossesKey, AccumulatedKey, LastBetKey}

  /** The counters as read from the store. */
  datatype Stats = Stats(plays: Num, wins: Num, losses: Num, accumulated: Num, lastBet: Num)

  /** `parseInt(localStorage.getItem(key) || '0')`: a missing key and an empty
      text both read as 0; any other text goes through `parseInt`. */
  function ReadCounter(store: map<string, string>, key: string): (x: Num)
    ensures key !in store || store[key] == "" ==> x == Int(0)
    ensures key in store && store[key] != "" ==> x == ParseInt(store[key])
  {
    ParseIntToStr(Int(0));
    assert ToStr(Int(0)) == "0";
    ParseInt(if key in store && store[key] != "" then store[key] else "0")
  }

  /** All five counters of `store`. */
  function ReadStats(store: map<string, string>): Stats
  {
    Stats(ReadCounter(store, PlaysKey), ReadCounter(store, WinsKey), ReadCounter(store, LossesKey),
          ReadCounter(store, AccumulatedKey), ReadCounter(store, LastBetKey))
  }

  /** The counters of a store that holds none of them. */
  const Fresh: Stats := Stats(Int(0), Int(0), Int(0), Int(0), Int(0))

  /** The bet jump rule: `apuesta > ultimaApuesta * 2 && jugadas > 10`. */
  predicate BetJump(s: Stats, bet: int)
  {
    s.lastBet.Int? && bet > 2 * s.lastBet.v && Greater(s.plays, 10)
  }

  /** `getModoTragamonedas` on the counters `s`: the first ten plays hook the
      player; then a big jump in the bet makes the game hard; then five
      losses in a row compensate; then three wins or more than 100 chips
      ahead make it hard; otherwise normal. Comparisons with NaN are false. */
  function SelectMode(s: Stats, bet: int): (m: Mode)
    ensures m == Enganche <==> Less(s.plays, 10)
    ensures m == Compensar <==> !Less(s.plays, 10) && !BetJump(s, bet) && AtLeast(s.losses, 5)
    ensures m == Dificil <==> (!Less(s.plays, 10) &&
      (BetJump(s, bet) || (!AtLeast(s.losses, 5) && (AtLeast(s.wins, 3) || Greater(s.accumulated, 100)))))
    ensures m == Normal ==> !AtLeast(s.losses, 5) && !AtLeast(s.wins, 3) && !Greater(s.accumulated, 100)
  {
    if Less(s.plays, 10) then Enganche
    else if BetJump(s, bet) then Dificil
    else if AtLeast(s.losses, 5) then Compensar
    else if AtLeast(s.wins, 3) || Greater(s.accumulated, 100) then Dificil
    else Normal
  }

  /** The counters after `setEstadisticasTragamonedas(won, bet, prize)`:
      one more play; a win adds a win and clears the losing streak, a loss
      lengthens the streak and keeps the wins; the net result moves by what
      the play won or lost; the bet is remembered. A counter that reads as
      NaN stays NaN. */
  function NextStats(s: Stats, won: bool, bet: int, prize: int): (r: Stats)
    ensures r.plays == Add(s.plays, 1) && r.lastBet == Int(bet)
    ensures won ==> r.wins == Add(s.wins, 1) && r.losses == Int(0)
    ensures !won ==> r.wins == s.wins && r.losses == Add(s.losses, 1)
    ensures r.accumulated == Add(s.accumulated, if won then prize - bet else -bet)
    ensures r.plays.NaN? <==> s.plays.NaN?
  {
    if won then Stats(Add(s.plays, 1), Add(s.wins, 1), Int(0), Add(s.accumulated, prize - bet), Int(bet))
    else Stats(Add(s.plays, 1), s.wins, Add(s.losses, 1), Add(s.accumulated, -bet), Int(bet))
  }

  /** A store that holds none of the counters (or only empty texts) reads as
      all zeros, so its mode is always `enganche`. */
  lemma FreshStore(store: map<string, string>, bet: int)
    requires forall k :: k in CounterKeys && k in store ==> store[k] == ""
    ensures ReadStats(store) == Fresh
    ensures SelectMode(ReadStats(store), bet) == Enganche
  {
    ParseIntToStr(Int(0));
    assert ToStr(Int(0)) == "0";
  }

  /** The `localStorage` counters, kept in memory. */
  class CounterStore {
    /** The key/text pairs of `localStorage`; keys other than the five
        counters belong to the rest of the page. */
    var items: map<string, string>

    constructor (initial: map<string, string>)
      ensures items == initial
    {
      items := initial;
    }

    /** The counters as `getModoTragamonedas` reads them. */
    function Counters(): Stats
      reads this
    {
      ReadStats(items)
    }

    /** `getModoTragamonedas(bet)` on the stored counters: `enganche`
        exactly while the stored play count reads below ten, so a store
        without counters always hooks the player. */
    function Mode(bet: int): (m: Mode)
      reads this
      ensures m == Enganche <==> Less(ReadCounter(items, PlaysKey), 10)
      ensures PlaysKey !in items ==> m == Enganche
      ensures m == Compensar ==> AtLeast(ReadCounter(items, LossesKey), 5)
    {
      SelectMode(Counters(), bet)
    }

    /** `setEstadisticasTragamonedas(won, bet, prize)`: read four counters,
        update them, and write all five back as text. Reading the store again
        gives the updated counters; the other keys are untouched. */
    method Record(won: bool, bet: int, prize: int)
      modifies this
      ensures Counters() == NextStats(old(Counters()), won, bet, prize)
      ensures forall k :: k in items <==> k in old(items) || k in CounterKeys
      ensures forall k :: k in old(items) && k !in CounterKeys ==> items[k] == old(items)[k]
      ensures items[LastBetKey] == ToStr(Int(bet))
    {
      ghost var before := items;
      var plays := ReadCounter(items, PlaysKey);
      var wins := ReadCounter(items, WinsKey);
      var losses := ReadCounter(items, LossesKey);
      var accumulated := ReadCounter(items, AccumulatedKey);

      plays := Add(plays, 1);
      if won {
        wins := Add(wins, 1);
        losses := Int(0);
        accumulated := Add(accumulated, prize - bet);
      } else {
        losses := Add(losses, 1);
        accumulated := Add(accumulated, -bet);
      }

      items := items[PlaysKey := ToStr(plays)];
      items := items[WinsKey := ToStr(wins)];
      items := items[LossesKey := ToStr(losses)];
      items := items[AccumulatedKey := ToStr(accumulated)];
      items := items[LastBetKey := ToStr(Int(bet))];
      WrittenStore(before, items, Stats(plays, wins, losses, accumulated, Int(bet)));
    }
  }

  /** Writing the five counters of `s` as text, one key after the other,
      leaves a store that reads back as `s` and whose other keys are as before. */
  lemma WrittenStore(before: map<string, string>, after: map<string, string>, s: Stats)
    requires after == before[PlaysKey := ToStr(s.plays)][WinsKey := ToStr(s.wins)]
      [LossesKey := ToStr(s.losses)][AccumulatedKey := ToStr(s.accumulated)][LastBetKey := ToStr(s.lastBet)]
    ensures ReadStats(after) == s
    ensures forall k :: k in after <==> k in before || k in CounterKeys
    ensures forall k :: k in before && k !in CounterKeys ==> after[k] == before[k]
  {
    StoredStats(after, s);
  }

  /** A store holding the text of each of the five counters of `s` reads back as `s`. */
  lemma StoredStats(store: map<string, string>, s: Stats)
    requires PlaysKey in store && store[PlaysKey] == ToStr(s.plays)
    requires WinsKey in store && store[WinsKey] == ToStr(s.wins)
    requires LossesKey in store && store[LossesKey] == ToStr(s.losses)
    requires AccumulatedKey in store && store[AccumulatedKey] == ToStr(s.accumulated)
    requires LastBetKey in store && store[LastBetKey] == ToStr(s.lastBet)
    ensures ReadStats(store) == s
  {
    StoredCounter(store, PlaysKey, s.plays);
    StoredCounter(store, WinsKey, s.wins);
    StoredCounter(store, LossesKey, s.losses);
    StoredCounter(store, AccumulatedKey, s.accumulated);
    StoredCounter(store, LastBetKey, s.lastBet);
  }

  /** A counter written as `String(x)` reads back as `x`. */
  lemma StoredCounter(store: map<string, string>, key: string, x: Num)
    requires key in store && store[key] == ToStr(x)
    ensures ReadCounter(store, key) == x
  {
    ParseIntToStr(x);
    assert ToStr(x) != "" by {
      if x.Int? && x.v >= 0 { assert |DecimalDigits(x.v)| >= 1; }
    }
  }

  /** One recorded play: whether it won, the bet, and the prize. */
  datatype Play = Play(won: bool, bet: int, prize: int)

  /** The counters after recording the plays of `h`, in order, on a fresh store. */
  function Replay(h: seq<Play>): Stats
  {
    if h == [] then Fresh
    else
      var p := h[|h| - 1];
      NextStats(Replay(h[..|h| - 1]), p.won, p.bet, p.prize)
  }

  /** How many plays of `h` won. */
  function WinCount(h: seq<Play>): nat
  {
    if h == [] then 0 else WinCount(h[..|h| - 1]) + (if h[|h| - 1].won then 1 else 0)
  }

  /** How many plays at the end of `h` lost in a row. */
  function TrailingLosses(h: seq<Play>): nat
  {
    if h == [] || h[|h| - 1].won then 0 else TrailingLosses(h[..|h| - 1]) + 1
  }

  /** The net chips of `h`: a win adds `prize - bet`, a loss takes `bet`. */
  function Net(h: seq<Play>): int
  {
    if h == [] then 0
    else
      var p := h[|h| - 1];
      Net(h[..|h| - 1]) + (if p.won then p.prize - p.bet else -p.bet)
  }

  /** The bet of the last play of `h`, 0 before any play. */
  function LastBet(h: seq<Play>): int
  {
    if h == [] then 0 else h[|h| - 1].bet
  }

  /** Recording one more play adds one to the win count exactly when it won. */
  lemma WinCountSnoc(h: seq<Play>, p: Play)
    ensures WinCount(h + [p]) == WinCount(h) + (if p.won then 1 else 0)
  {
    assert (h + [p])[..|h|] == h;
  }

  /** What the counters mean after a history of plays: `jugadas` counts every
      play; `ganadas` counts every win and is never reset by a loss (so it is
      not a count of consecutive wins); `perdidas` counts the losses since the
      last win; `acumulado` is the net result; the last bet is remembered. */
  lemma {:induction false} ReplayCounts(h: seq<Play>)
    ensures Replay(h) == Stats(Int(|h|), Int(WinCount(h)), Int(TrailingLosses(h)), Int(Net(h)), Int(LastBet(h)))
  {
    if h != [] {
      ReplayCounts(h[..|h| - 1]);
    }
  }

  /** After fewer than ten plays the mode is always `enganche`, and from the
      tenth play on it never is. */
  lemma WarmUp(h: seq<Play>, bet: int)
    ensures SelectMode(Replay(h), bet) == Enganche <==> |h| < 10
  {
    ReplayCounts(h);
  }

  /** With exactly ten plays behind, raising the bet never triggers the bet
      jump rule (it needs more than ten plays). */
  lemma TenthPlaySkipsBetJump(h: seq<Play>, bet: int)
    requires |h| == 10
    ensures !BetJump(Replay(h), bet)
  {
    ReplayCounts(h);
  }

  /** Three wins spread over a history make the game hard even though no two
      of them are consecutive. */
  lemma ScatteredWinsMakeItHard(bet: int)
    ensures exists h: seq<Play> ::
      |h| == 10 &&
      (forall i :: 0 <= i < |h| - 1 ==> !(h[i].won && h[i + 1].won)) &&
      SelectMode(Replay(h), bet) == Dificil
  {
    var l := Play(false, 1, 0);
    var w := Play(true, 1, 2);
    var h := [l, l, l, l, l, w, l, w, l, w];
    var k := 0;
    var prefix: seq<Play> := [];
    while k < |h|
      invariant 0 <= k <= |h| && prefix == h[..k]
      invariant WinCount(prefix) == if k <= 5 then 0 else if k <= 7 then 1 else if k <= 9 then 2 else 3
    {
      WinCountSnoc(prefix, h[k]);
      assert h[..k + 1] == prefix + [h[k]];
      prefix := prefix + [h[k]];
      k := k + 1;
    }
    assert h[..10] == h;
    ReplayCounts(h);
    assert SelectMode(Replay(h), bet) == Dificil;
  }
}
