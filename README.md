# Slot machine rules of Juega Virtual Argentina

This project models the slot machine (`tragamonedas`) of the Juega Virtual
Argentina casino lobby in Dafny and proves properties of the model. It covers
these parts of the game:

- **The play button.** The click handler reads the bet from the text field
  with `parseInt`. It refuses a bet that is NaN or not positive, and a bet
  above the player's chips. Otherwise it spins three reels, each showing one
  of six fruit symbols, and scores the spin. A jackpot (three of a kind) pays
  `3*bet`. A pair pays `Math.round(1.5*bet)`. Three different symbols lose
  the bet.
- **The retention rules.** These are standalone functions that the click
  handler does not call.
  - `getModoTragamonedas` picks a play mode (`enganche`, `dificil`,
    `compensar`, `normal`) from five counters kept in `localStorage`.
  - `setEstadisticasTragamonedas` records one play in those counters.
  - `generarTiradaLogica` builds a spin for a mode. One random draw picks a
    band: jackpot, pair or lose. The losing branch redraws all three symbols
    until they are pairwise distinct.

Modules, one per concern of `juegos/tragamonedas/tragamonedas.js`:

- `Symbols` (symbols.dfy): the six symbols, `randFruta` as a function of one
  `Math.random()` value, and the shapes of a spin.
- `JsNumbers` (js_numbers.dfy): the JavaScript number behaviour the game
  relies on.
  - `parseInt` with no radix: white space, sign, `0x` prefix, NaN.
  - `String(n)`, which is what `localStorage.setItem` stores.
  - Comparisons and additions involving NaN.
- `Payout` (payout.dfy): scoring a spin as a signed change in chips.
- `BetRound` (bet_round.dfy): the click handler's bet check and one round of
  play.
- `Retention` (retention.dfy): mode selection, plus the class
  `CounterStore`.
  - `CounterStore` holds the `localStorage` key/text map.
  - Its method `Record` is `setEstadisticasTragamonedas`.
  - The module also gives the meaning of the counters after any history of
    plays.
- `SpinLogic` (spin_logic.dfy): `generarTiradaLogica`. The random source is
  an explicit, finite stream of `Math.random()` values, consumed in order.

Randomness is a parameter. A `Math.random()` value is a real in `[0, 1)`.
The caller supplies the draws, so every branch can be reached by choosing
them.

## Model

| member | source | states |
|---|---|---|
| `Symbols.RandFruit` | juegos/tragamonedas/tragamonedas.js:219-221 | draw `u` picks `frutas[k]` if and only if `k/6 <= u < (k+1)/6`, so each symbol owns one sixth of the draws |
| `Symbols.EverySymbolReachable` | juegos/tragamonedas/tragamonedas.js:219-221 | every symbol is picked by some draw |
| `Symbols.ShapesPartition` | juegos/tragamonedas/tragamonedas.js:85-93 | three of a kind is also a pair; a spin is pairwise distinct exactly when no pair matches |
| `Symbols.DistinctSpinExists` | juegos/tragamonedas/tragamonedas.js:5 | a spin of three different symbols exists, so the losing shape can occur |
| `JsNumbers.ParseInt` | juegos/tragamonedas/tragamonedas.js:55 | text whose first non-blank character is neither a sign nor a digit reads as NaN (so does blank text), and only a leading `-` gives a negative number |
| `JsNumbers.ToStr` | juegos/tragamonedas/tragamonedas.js:161-165 | `String(x)` is `"NaN"` for NaN; for an integer it is non-empty, starts with `-` exactly when the integer is negative, and is decimal digits after that |
| `JsNumbers.ParseIntOfDecimal` | juegos/tragamonedas/tragamonedas.js:55 | `parseInt` of an integer's decimal text, optionally followed by text starting with a non-alphanumeric character, gives that integer |
| `JsNumbers.ParseIntToStr` | juegos/tragamonedas/tragamonedas.js:146-165 | a counter written with `setItem` and read back with `parseInt` is unchanged, NaN included |
| `Payout.Classify` | juegos/tragamonedas/tragamonedas.js:85-93 | jackpot iff all three symbols are equal; pair iff some pair matches but not all three; loss iff pairwise distinct (so a triple never gets the pair prize) |
| `Payout.RoundHalf` | juegos/tragamonedas/tragamonedas.js:89 | the result is the integer nearest `n/2`, with halves rounded up, as `Math.round` does |
| `Payout.PairPrize` | juegos/tragamonedas/tragamonedas.js:89 | twice the pair prize is `3*bet` or `3*bet+1`, i.e. it is `Math.round(bet*1.5)` |
| `Payout.Delta` | juegos/tragamonedas/tragamonedas.js:83-93 | `fichasCambiadas` by the shape of the spin: three of a kind gives `3*bet`, exactly one pair gives the pair prize, three different symbols give `-bet` |
| `Payout.DeltaByShape` | juegos/tragamonedas/tragamonedas.js:83-93 | for a positive bet: a triple pays `3*bet`; a pair pays `(3*bet+1)/2`, which lies in `(bet, 2*bet]`; a distinct spin pays `-bet` |
| `Payout.DeltaSign` | juegos/tragamonedas/tragamonedas.js:83-93 | for a positive bet, the change is negative exactly for a pairwise-distinct spin and positive exactly when some pair matches |
| `Payout.DeltaOrder` | juegos/tragamonedas/tragamonedas.js:85-90 | for a positive bet, a jackpot pays strictly more than a pair, a pair more than 0, and every spin's change lies in `[-bet, 3*bet]` |
| `BetRound.CheckBet` | juegos/tragamonedas/tragamonedas.js:55-64 | accepted iff `parseInt` gives a number with `0 < bet <= chips`; NaN or `<= 0` is refused as invalid; a positive bet above the chips is refused as unaffordable |
| `BetRound.CheckTypedBet` | juegos/tragamonedas/tragamonedas.js:55-64 | a typed integer `n` is invalid if `n <= 0`, unaffordable if `n > chips`, and accepted as `n` otherwise |
| `BetRound.CheckEmptyBet` | juegos/tragamonedas/tragamonedas.js:55-58 | an empty field is refused as invalid |
| `BetRound.Play` | juegos/tragamonedas/tragamonedas.js:54-93 | a click is refused exactly when `CheckBet` refuses it, with the same reason; otherwise the bet is the positive, covered number `parseInt` read, the spin is the three drawn symbols and the change is `Delta` of that spin at that bet |
| `BetRound.RefusalPrecedesSpin` | juegos/tragamonedas/tragamonedas.js:55-77 | a refused click is refused whatever the reel draws are, with the reason `CheckBet` gives, so both guards run before any spin |
| `BetRound.PlayedRoundIsCovered` | juegos/tragamonedas/tragamonedas.js:61-93 | a played round shows the three drawn symbols; its loss never exceeds the chips; it pays exactly when two reels match and loses exactly when all differ |
| `Retention.SelectMode` | juegos/tragamonedas/tragamonedas.js:122-143 | `enganche` iff plays < 10; otherwise `dificil` on a bet above twice the last bet with plays > 10; else `compensar` iff losses >= 5; else `dificil` iff wins >= 3 or net > 100; else `normal` (comparisons with NaN are false) |
| `Retention.ReadCounter` | juegos/tragamonedas/tragamonedas.js:123-127 | a missing key or an empty text reads as 0; any other text is read with `parseInt` |
| `Retention.NextStats` | juegos/tragamonedas/tragamonedas.js:151-159 | one more play and the bet remembered; a win adds a win and clears the losses, a loss adds a loss and keeps the wins; the net moves by `prize - bet` or `-bet`; a NaN counter stays NaN |
| `Retention.CounterStore.Mode` | juegos/tragamonedas/tragamonedas.js:122-143 | on the stored counters, `enganche` exactly while the stored play count reads below ten (always without a play count); `compensar` only with at least five stored losses |
| `Retention.FreshStore` | juegos/tragamonedas/tragamonedas.js:123-130 | missing or empty counters read as 0, so a store without counters selects `enganche` |
| `Retention.CounterStore.Record` | juegos/tragamonedas/tragamonedas.js:145-166 | reading the store after the call gives the updated counters: plays + 1 and last bet = bet; on a win, wins + 1, losses = 0 and net += prize - bet; on a loss, losses + 1, net -= bet and wins unchanged. The five keys are written and no other key changes |
| `Retention.ReplayCounts` | juegos/tragamonedas/tragamonedas.js:145-166 | after any history of plays from a fresh store: plays = number of plays, wins = all wins (never reset), losses = losses since the last win, net = sum of results, last bet = bet of the last play |
| `Retention.WarmUp` | juegos/tragamonedas/tragamonedas.js:129-130 | after a history of plays, the mode is `enganche` exactly when fewer than ten plays were recorded |
| `Retention.TenthPlaySkipsBetJump` | juegos/tragamonedas/tragamonedas.js:133 | with exactly ten plays recorded, the bet-jump rule never fires |
| `Retention.ScatteredWinsMakeItHard` | juegos/tragamonedas/tragamonedas.js:138-139 | ten plays with no two consecutive wins can still select `dificil`: `ganadas` counts all wins, not consecutive ones |
| `SpinLogic.JackpotCut` | juegos/tragamonedas/tragamonedas.js:170-208 | each mode's jackpot cut point lies strictly between 0 and 1 |
| `SpinLogic.PairCut` | juegos/tragamonedas/tragamonedas.js:170-208 | each mode's pair cut point lies above its jackpot cut point and below 1 |
| `SpinLogic.BandOf` | juegos/tragamonedas/tragamonedas.js:170-210 | the first draw gives the jackpot branch below the jackpot cut, the pair branch from it up to the pair cut, and the lose branch from the pair cut on |
| `SpinLogic.EveryBandReachable` | juegos/tragamonedas/tragamonedas.js:170-210 | in every mode, some draw selects each of the jackpot, pair and lose branches |
| `SpinLogic.GenerosityMonotone` | juegos/tragamonedas/tragamonedas.js:170-208 | for the same draw, going from `dificil` to `normal` to `enganche` to `compensar` never turns a jackpot or a win into something worse |
| `SpinLogic.JackpotSpin` | juegos/tragamonedas/tragamonedas.js:173-175 | the jackpot branch returns `[f, f, f]` for the drawn symbol |
| `SpinLogic.PairSpin` | juegos/tragamonedas/tragamonedas.js:176-178 | the pair branch returns a spin whose first two symbols are the first drawn symbol and whose third is the second |
| `SpinLogic.PairSpinCanBeJackpot` | juegos/tragamonedas/tragamonedas.js:177-178 | the pair branch yields three of a kind exactly when its two draws fall in the same sixth, and its spin is never scored as a loss |
| `SpinLogic.DrawLosing` | juegos/tragamonedas/tragamonedas.js:211-216 | the losing loop returns the first three-draw attempt whose symbols are pairwise distinct; it returns nothing only when every attempt in the stream has a matching pair |
| `SpinLogic.LosingSpinReachable` | juegos/tragamonedas/tragamonedas.js:211-216 | in every mode, some stream selects the lose band and has a distinct first attempt, so the losing loop can stop |
| `SpinLogic.GenerateSpin` | juegos/tragamonedas/tragamonedas.js:168-217 | the jackpot band returns `[f,f,f]`, the pair band `[f1,f1,f2]`, and the lose band the first three-draw attempt from the second draw on whose symbols are pairwise distinct. A returned spin is scored as a loss exactly when the lose band was drawn |

## Left out

- The `registrar_resultado_tragamonedas` call (tragamonedas.js:106-119) is
  left out because it is a remote database procedure. It is the code that
  changes the balance. The model computes the change that the click handler
  sends to it. The model does not cover how the server applies that change.
- The realtime balance channel (tragamonedas.js:29-40) and page start-up
  (17-47) are left out because they are event relay and navigation.
- The reel animation and `sleep` (tragamonedas.js:66-80) are left out because
  they only change what is displayed. `BetRound.Play` takes only the three
  draws that pick the final reels.
- `BetRound.CheckBet` takes the player's chips as a parameter.
  - In the source, this value is `usuario.fichas` as loaded with the page.
  - The realtime handler updates only the displayed text, never
    `usuario.fichas`.
  - So the source compares the bet against the balance from page load, not
    the live balance.
  - Before `getUsuarioActual` has resolved, `usuario` is still `null`
    (tragamonedas.js:6), and a click throws a TypeError at `usuario.fichas`
    (tragamonedas.js:61). `BetRound.CheckBet` always has a balance, so the
    model does not capture that failed click.
- Floating point is not modelled.
  - `Math.random()` values are exact reals in `[0, 1)`.
  - The mode cut points (0.05, 0.35, ...) are exact decimals, not the nearest
    doubles.
  - `bet * 1.5` is exact.
  - Integers are unbounded: no loss of precision beyond 2^53, no
    exponent-notation output of `String` for magnitudes of 10^21 and above,
    and no rounding of long digit runs in `parseInt`.
- `JsNumbers.ParseInt` reads JavaScript's `-0` as 0. No comparison or
  addition in this code can tell the two apart.
- `SpinLogic.DrawLosing` and `SpinLogic.GenerateSpin` work on a finite stream
  of draws. They return `None` when the stream ends before the spin is
  complete, where the program itself would keep drawing. The model therefore
  does not capture that the loop ends with probability 1.
- The `modo` argument of `generarTiradaLogica` is a string in the source.
  Any string other than the four mode names takes the `normal` branch. The
  model's `Mode` has only the four names.
- `localStorage` failures (storage disabled, quota exceeded) are left out;
  the store is an in-memory map.
- The table, lobby, chat, history and login code is not part of this model.
  - js/mesas.js, js/mesa.js and js/lobby.js are single database inserts,
    selects and updates. For example, `unirseAMesa` inserts a seat with no
    balance or capacity check, and `enviarResultadoJugador` updates one row.
  - These files have no wagering, capacity, pot or settlement logic to
    verify.
  - js/chat.js, js/chatGlobal.js, js/historial.js, js/auth.js,
    js/session.js and js/util.js are database queries, rendering and session
    storage.
