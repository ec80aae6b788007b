# Spike-trading bot core in Dafny

This project models the decision core of a small crypto-futures bot that
trades price spikes:

- **`Strategy`** (`strategy.dfy`): the position-lifecycle state machine of
  `src/services/strategy.py`. A tick appends the sampled price to a history of
  at most twenty prices. While flat, the tick runs the entry gate (daily loss
  cap and post-loss cooldown, with a day reset) and enters on a long or short
  signal, placing an initial stop-loss a percentage away from the entry price.
  While in a position, the tick tracks the running extreme price and closes when
  the stop is hit, counting the close as a loss exactly when the profit is
  strictly negative. Otherwise it ratchets the stop to the most favourable of
  three candidates: breakeven, a trailing stop with a banded offset from the
  extreme, and a guaranteed-minimum lock. `GetStatus` reports the position and
  the gate.
- **`Analyzer`** (`analyzer.dfy`): `Analyzer.analyze` of
  `src/services/analyzer.py`. It classifies the change between the closes of
  the last two candles as a long spike, a short spike or no signal.
- **`Models`** (`models.dfy`): the `Signal`, `SignalType` and `Candle`
  records of `src/core/models.py`.
- **`Wrappers`** (`wrappers.dfy`): `Option` and `Result`.
- **`StrategyProofs`** (`strategy_proofs.dfy`): properties over single ticks
  and over whole runs of ticks (`Run`). These cover:
  - the state invariant `Valid`;
  - the bounded window of the last twenty prices;
  - the ratchet of the extreme price and the stop;
  - the breakeven and guaranteed-minimum floors;
  - the gate scenarios (cooldown, daily reset, the overnight-loss behaviour);
  - dry-run equivalence.

Modelling choices:

- The strategy is a set of pure functions over an immutable `StrategyConfig`
  and `TradeState`. Each transition returns the new state, the tick's result
  (its action and price) and the list of `Command`s it would send to the
  trade-execution collaborator.
- The collaborator calls (`enter_long`, `enter_short`, `set_stop_loss`,
  `close`) become `Command`s. In dry-run mode the list is empty.
- Prices and percentages are mathematical reals.
- The wall clock becomes two parameters: `now`, in whole seconds, and
  `today`, an integer calendar day. `last_loss_date` starts as `""` in the
  source and is `None` here.
- The entry signal is an explicit parameter of `Tick`/`CheckEntry`. The
  source imports and builds an `AnalyzerConfig` (src/services/strategy.py:5, 86)
  and calls `analyzer.check_entry(...)` (src/services/strategy.py:149), but
  `src/services/analyzer.py` defines neither; its only classifier is
  `analyze`, modelled separately.
- Python's truthiness tests are kept:
  - `if guaranteed_sl:` drops a guaranteed price of exactly 0 (`GuaranteedKept`);
  - `if self.state.last_loss_time:` is true for any recorded time (`Some`).
- The source's side is a string. Its `else` branches (minimum tracking,
  `entry - price` profit, `min` of the candidates) also run for the empty side;
  `Side.Unset` follows the same branches.
- `Analyzer.analyze` raises `ZeroDivisionError` when the previous close is 0.
  This is the `Failure(ZeroPreviousClose)` result, not a precondition.
- The daily loss counter is modelled exactly as written. The gate overwrites
  `last_loss_date` on every check, and a losing close increments the counter
  without a date check. A loss taken after midnight on a position entered the
  day before is therefore wiped by the next gate check
  (`StrategyProofs.OvernightLossForgotten`).

## Model

| member | source | states |
|---|---|---|
| `Analyzer.Analyze` | src/services/analyzer.py:14-61 | Fewer than two candles gives NONE at price 0 for the given symbol. A zero previous close is the only failure. Otherwise the symbol is passed through, the price is the last close, and the kind is LONG iff the change is at least the threshold, SHORT iff it is below the threshold and at most minus the threshold, NONE iff it is strictly between. |
| `Analyzer.AnalyzeDependsOnlyOnLastTwoCloses` | src/services/analyzer.py:34-38 | Two candle lists with the same last two closes give the same result, whatever their other candles and fields. |
| `Analyzer.SpikeDirectionsExclusive` | src/services/analyzer.py:41-54 | With a positive threshold a change cannot be both a rise and a fall spike, and the result is SHORT exactly when the change is at most minus the threshold. |
| `Analyzer.AnalyzeScaleInvariant` | src/services/analyzer.py:38-61 | Multiplying every close by the same positive factor keeps the analysis successful and does not change the signal's kind: the classifier reads relative change only. |
| `Strategy.AppendHistory` | src/services/strategy.py:105-108 | The new price is last. The length grows by one unless that would exceed 20, in which case only the oldest price is dropped. From a history of at most 20 the result is the last 20 of history-plus-price. |
| `Strategy.IsBlocked` | src/services/strategy.py:115-136 | Leaves `lastLossDate == today` and resets the loss count to 0 iff the recorded day differed, changing nothing else. The gate reports the daily cap iff the (reset) count reaches the maximum, and the cooldown iff the cap is not reached, a loss time exists and `now` is before loss time plus cooldown. |
| `Strategy.Trail` | src/services/strategy.py:199-204 | The price `pct` percent from a base: strictly below a positive base for long and strictly above it otherwise when `pct > 0`, and the base itself when `pct == 0`. |
| `Strategy.EnterPosition` | src/services/strategy.py:176-208 | Sets in-position, side, and entry and extreme to the price, touching no other field. The stop is `price - price*initialSl/100` for long and `price + …` otherwise, so strictly on the losing side for a positive price and percent. Live mode sends the side's order and then the stop; dry run sends nothing. |
| `Strategy.CheckEntry` | src/services/strategy.py:138-174 | Runs the gate first and keeps its day reset. When blocked it returns "blocked", changes no position and issues no call. A LONG or SHORT signal enters on that side. No signal returns "none". A position is open afterwards iff the gate was clear and there was a signal. |
| `Strategy.ProfitSign` | src/services/strategy.py:270-278 | Profit is 0 for a zero entry price. For a positive entry it is negative exactly on the losing side of the entry (below for long, above otherwise) and zero exactly at the entry. |
| `Strategy.GetTrailingOffset` | src/services/strategy.py:280-289 | The offset is one of the four configured bands: tight below 2 % peak profit, medium in [2,5), normal in [5,10), loose from 10 % on. |
| `Strategy.StopCandidates` | src/services/strategy.py:301-331 | The candidate list is breakeven (the entry price), then the trailing price, then the guaranteed level exactly when it is armed and non-zero. |
| `Strategy.CalcTrailingSl` | src/services/strategy.py:291-332 | Below the breakeven trigger the current stop is kept. Otherwise the result is one of the candidates: at least every candidate for long and at most every candidate otherwise, so it is the max or min of the list. |
| `Strategy.TrackExtreme` | src/services/strategy.py:215-221 | The new extreme is the old extreme or the price: the larger of the two for long, the smaller otherwise. |
| `Strategy.ClosePosition` | src/services/strategy.py:334-355 | Resets the position fields to their defaults. A loss bumps the day count by one and records the loss time; a win changes neither. History and `lastLossDate` are untouched. Live mode sends one close call. |
| `Strategy.ManagePosition` | src/services/strategy.py:213-268 | Closes iff the stop is hit (long `price <= sl`, short `price >= sl`), counting a loss iff the profit is negative. Otherwise only the extreme and the stop change: the extreme moves favourably and the stop never loosens. It reports "update_sl" iff the stop moved, strictly favourably, to the freshly computed trailing stop, sending that stop in live mode; a strictly more favourable trailing stop is always taken. "none" issues no call. |
| `Strategy.Tick` | src/services/strategy.py:91-113 | The price joins the history. A flat state yields an entry-check action and records today's date; an open position yields a management action and keeps the date. |
| `Strategy.GetStatus` | src/services/strategy.py:357-369 | Reports blocked iff the gate blocks, and the position fields, the maximum and the reset day count. It leaves behind exactly the gate's state, so its day reset persists. |
| `StrategyProofs.Run` | src/services/strategy.py:105-108 | Over any run of ticks from a history of at most 20, the final history is the last 20 of the old history followed by the run's prices, with one result per tick. |
| `StrategyProofs.InitialStateValid` | src/services/strategy.py:44-59 | The default `TradeState` is flat, has an empty history and satisfies the state invariant. |
| `StrategyProofs.TickPreservesValid` | src/services/strategy.py:91-113 | Every tick preserves the invariant: history of at most 20, a side exactly while in position, zeroed position fields while flat, extreme on the favourable side of the entry, non-negative loss count. |
| `StrategyProofs.RunPreservesValid` | src/services/strategy.py:91-113 | Every run of ticks preserves the state invariant. |
| `StrategyProofs.TrailingSlIgnoresDryRun` | src/services/strategy.py:291-332 | The stop computation gives the same stop with dry run on or off. |
| `StrategyProofs.ManageDryRunEquivalence` | src/services/strategy.py:250-254 | Position management changes the state and reports the action identically with dry run on or off, and in dry run issues no call. |
| `StrategyProofs.EntryDryRunEquivalence` | src/services/strategy.py:179-208 | The entry check changes the state and reports the action identically with dry run on or off, and in dry run issues no call. |
| `StrategyProofs.TickDryRunEquivalence` | src/services/strategy.py:110-113 | One tick changes the state and reports the action identically with dry run on or off, and in dry run issues no call. |
| `StrategyProofs.DryRunEquivalence` | src/services/strategy.py:337-338 | Over any run, dry run and live give the same final state and the same sequence of results; the dry run issues no collaborator call at all. |
| `StrategyProofs.LongRunRatchets` | src/services/strategy.py:216-251 | While a long position stays open over a run, side and entry are kept, the extreme never decreases and the stop never decreases. |
| `StrategyProofs.ShortRunRatchets` | src/services/strategy.py:219-251 | While a short position stays open over a run, side and entry are kept, the extreme never increases and the stop never increases. |
| `StrategyProofs.ManageStopWithinBound` | src/services/strategy.py:241-251 | A bound reached by the freshly computed trailing stop is kept by the stop a non-closing tick leaves. |
| `StrategyProofs.BreakevenFloor` | src/services/strategy.py:297-327 | Once the current profit reaches the breakeven trigger, a non-closing tick leaves the stop at or beyond the entry price. |
| `StrategyProofs.GuaranteedFloor` | src/services/strategy.py:313-331 | Once the peak profit reaches the guaranteed trigger and the current profit the breakeven trigger, a non-closing tick leaves the stop at or beyond `entry*(1 ± guaranteedMin/100)`, whenever that level is non-zero (a zero level is dropped by the truthiness test). |
| `StrategyProofs.GuaranteedLevelPositive` | src/services/strategy.py:316-320 | For a positive entry and `|guaranteedMin| < 100` the guaranteed level is a positive price. |
| `StrategyProofs.GuaranteedPriceKept` | src/services/strategy.py:325-331 | Under the same conditions an armed guaranteed price survives the truthiness test and joins the candidates. |
| `StrategyProofs.CloseIsLossIffBelowEntry` | src/services/strategy.py:224-238 | On an open position with a positive entry, a tick closes iff the price reaches the stop. The close is a loss (count +1, loss time recorded) iff the price is strictly on the losing side of the entry. A close at the entry is not a loss. The day stays as it was. |
| `StrategyProofs.IsBlockedIdempotent` | src/services/strategy.py:120-136 | A second gate check at the same instant changes nothing and gives the same verdict. |
| `StrategyProofs.StatusAgreesWithTick` | src/services/strategy.py:357-367 | For a flat state, the status reports blocked exactly when a tick at the same instant is blocked, both before and after the status call's own day reset. |
| `StrategyProofs.CooldownAfterLoss` | src/services/strategy.py:129-134 | After a losing close at `t`, an entry attempt before `t + cooldown` is blocked. At or after it, with the cap not reached, the gate is clear and the tick acts on the signal. |
| `StrategyProofs.DailyResetThenLoss` | src/services/strategy.py:120-123 | A long entered on a new day (any earlier loss's cooldown over) and stopped out at a loss that day leaves exactly one loss for the day, whatever the previous day's count. |
| `StrategyProofs.OvernightLossForgotten` | src/services/strategy.py:343-345 | A losing close on a position entered the day before bumps the old day's count, and the next gate check on the new day resets it to zero. |
| `StrategyProofs.TrailingOffsetNarrows` | src/services/strategy.py:280-289 | With bands ordered tight ≥ medium ≥ normal ≥ loose, a larger peak profit never gets a wider offset. |
| `StrategyProofs.DefaultBandsOrdered` | src/services/strategy.py:23-41 | The default configuration orders its bands from tight to loose, has positive offsets and starts in dry run. |

## Left out

- Log messages, and the human-readable `details` and `reason` texts. This includes the remaining-minutes text of the cooldown message. Only action kinds, prices and signal kinds are modelled.
- The Russian block reasons of `_is_blocked` and `get_status`'s `block_reason`. `Gate` carries the reason's kind instead.
- The `check_entry` method and `AnalyzerConfig` that `Strategy` uses. The analyzer source defines neither, so the entry signal is a parameter.
- `Analyzer.__init__` only stores the threshold (default 0.5), and `analyze` defaults `symbol` to "BTCUSDT". `Analyze` takes both as parameters and models no defaults.
- Failing collaborator calls. Every trader call is taken to succeed and the transition always completes. In the source a raising call aborts part-way: `enter_long`/`enter_short` before the entry's state update (src/services/strategy.py:179-204), `close` before the loss counting and reset (337-355), and `set_stop_loss` after `current_sl` is already assigned (251-254). Dry-run equivalence (`StrategyProofs.DryRunEquivalence`) holds under this assumption only.
- The price fetch (`fetcher.get_current_price`) is the `price` parameter of `Tick`. `datetime.now()` becomes `now` and `today`, with time in whole seconds and days as integers.
- Trader, fetcher, exchange clients, `main.py`, configuration and logger modules are collaborators without decision logic. Trader calls are returned as `Command`s.
- `Candle.from_bybit` parses an API payload: float and timestamp conversion.
- `Ticker`, `Order` and `Position` in `src/core/models.py` are not used by the modelled core.
- Floating-point rounding is not modelled, because prices are exact reals.
