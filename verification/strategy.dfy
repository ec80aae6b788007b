/**
 The position-lifecycle state machine of `Strategy` (src/services/strategy.py).

 One `Tick` appends the sampled price to a bounded history and then either
 checks the entry gate and the entry signal (while flat) or manages the open
 position: it tracks the running extreme price, closes when the stop-loss is
 hit and otherwise ratchets the stop-loss.

 Everything the source reads from the outside world is a parameter: the
 sampled `price`, the clock `now` (whole seconds), the calendar day `today`
 and the entry signal. The calls the source makes on its `Trader` are
 returned as a list of `Command`s instead of being performed.
 */
module Strategy {
  import opened Wrappers
  import Models

  /** Capacity of the price history. */
  const HistoryLimit: nat := 20

  /** Seconds in one minute, for the cooldown. */
  const SecondsPerMinute: int := 60

  /** Position side; `Unset` is the source's empty string. */
  datatype Side = Unset | Long | Short

  /** `StrategyConfig`: immutable settings of one strategy instance. */
  datatype StrategyConfig = StrategyConfig(
    symbol: string,
    amountUsdt: real,
    leverage: int,
    entrySpikePercent: real,
    spikesToEnter: int,
    initialSlPercent: real,
    breakevenTrigger: real,
    trailingTight: real,
    trailingMedium: real,
    trailingNormal: real,
    trailingLoose: real,
    guaranteedTrigger: real,
    guaranteedMin: real,
    cooldownMinutes: int,
    maxLossesPerDay: int,
    dryRun: bool
  )

  /** The defaults of `StrategyConfig`. */
  function DefaultConfig(): StrategyConfig
  {
    StrategyConfig(
      symbol := "BTCUSDT",
      amountUsdt := 100.0,
      leverage := 1,
      entrySpikePercent := 0.5,
      spikesToEnter := 2,
      initialSlPercent := 0.3,
      breakevenTrigger := 0.3,
      trailingTight := 0.30,
      trailingMedium := 0.28,
      trailingNormal := 0.25,
      trailingLoose := 0.20,
      guaranteedTrigger := 10.0,
      guaranteedMin := 5.0,
      cooldownMinutes := 15,
      maxLossesPerDay := 3,
      dryRun := true
    )
  }

  /**
   `TradeState`: the open position (meaningful while `inPosition`), the price
   history, and the loss-gate counters. `lastLossTime` is a clock reading in
   seconds; `lastLossDate` is a calendar day, `None` being the initial "".
   */
  datatype TradeState = TradeState(
    inPosition: bool,
    side: Side,
    entryPrice: real,
    maxPrice: real,
    currentSl: real,
    priceHistory: seq<real>,
    lastLossTime: Option<int>,
    lossesToday: int,
    lastLossDate: Option<int>
  )

  /** The state a fresh `Strategy` starts in. */
  function InitialState(): TradeState
  {
    TradeState(false, Unset, 0.0, 0.0, 0.0, [], None, 0, None)
  }

  /** A call on the trade-execution collaborator. */
  datatype Command =
    | EnterLongOrder(symbol: string, amountUsdt: real, leverage: int)
    | EnterShortOrder(symbol: string, amountUsdt: real, leverage: int)
    | SetStopLoss(symbol: string, price: real)
    | CloseOrder(symbol: string)

  /** The `action` of a tick's result. */
  datatype Action = NoAction | Blocked | EnterLong | EnterShort | UpdateSl | Close

  /** The dictionary a tick returns, without its `details` text. */
  datatype TickResult = TickResult(action: Action, price: real)

  /** One transition: the new state, the tick's result and the collaborator calls issued. */
  datatype Step = Step(state: TradeState, result: TickResult, calls: seq<Command>)

  /** A position change without a tick result (entry or close). */
  datatype Change = Change(state: TradeState, calls: seq<Command>)

  /** Outcome of the entry gate. */
  datatype Gate = Clear | DailyLimitReached | CoolingDown {
    predicate IsBlocked() { !Clear? }
  }

  /** The gate's verdict together with the state the check leaves behind. */
  datatype GateCheck = GateCheck(verdict: Gate, state: TradeState)

  /** The last (at most) `n` elements of `s`: the reference meaning of a bounded window. */
  function LastN<T>(s: seq<T>, n: nat): (r: seq<T>)
    ensures |r| == if |s| <= n then |s| else n
    ensures r == s[|s| - |r|..]
  {
    if |s| <= n then s else s[|s| - n..]
  }

  /**
   Appending a price to the history: the price becomes the last element and
   the oldest element is dropped only when the length would exceed the limit.
   */
  function AppendHistory(h: seq<real>, p: real): (r: seq<real>)
    ensures |r| > 0 && r[|r| - 1] == p
    ensures |r| == if |h| + 1 > HistoryLimit then |h| else |h| + 1
    ensures r == (h + [p])[|h| + 1 - |r|..]
    ensures |h| <= HistoryLimit ==> |r| <= HistoryLimit && r == LastN(h + [p], HistoryLimit)
  {
    var a := h + [p];
    if |a| > HistoryLimit then a[1..] else a
  }

  /**
   `_is_blocked`: the day check overwrites `lastLossDate` on every call and
   resets the loss counter when the day differs; then the daily cap is
   checked, then the cooldown after the last loss.
   */
  function IsBlocked(cfg: StrategyConfig, st: TradeState, now: int, today: int): (g: GateCheck)
    // only the two day-tracking fields change
    ensures g.state.lastLossDate == Some(today)
    ensures g.state.lossesToday == (if st.lastLossDate == Some(today) then st.lossesToday else 0)
    ensures g.state == st.(lossesToday := g.state.lossesToday, lastLossDate := Some(today))
    // the verdict
    ensures g.verdict == DailyLimitReached <==> g.state.lossesToday >= cfg.maxLossesPerDay
    ensures g.verdict == CoolingDown <==>
      && g.state.lossesToday < cfg.maxLossesPerDay
      && st.lastLossTime.Some?
      && now < st.lastLossTime.value + cfg.cooldownMinutes * SecondsPerMinute
  {
    var losses := if st.lastLossDate != Some(today) then 0 else st.lossesToday;
    var st1 := st.(lossesToday := losses, lastLossDate := Some(today));
    if st1.lossesToday >= cfg.maxLossesPerDay then
      GateCheck(DailyLimitReached, st1)
    else if st1.lastLossTime.Some? && now < st1.lastLossTime.value + cfg.cooldownMinutes * SecondsPerMinute then
      GateCheck(CoolingDown, st1)
    else
      GateCheck(Clear, st1)
  }

  /** A price `pct` percent away from `base`: below it for long, above it otherwise. */
  function Trail(side: Side, base: real, pct: real): (r: real)
    ensures base > 0.0 && pct > 0.0 ==> (side == Long ==> r < base) && (side != Long ==> r > base)
    ensures pct == 0.0 ==> r == base
  {
    var offset := base * (pct / 100.0);
    if side == Long then base - offset else base + offset
  }

  /** The stop-loss placed on entry at `price`. */
  function InitialStopLoss(cfg: StrategyConfig, price: real, side: Side): real
  {
    Trail(side, price, cfg.initialSlPercent)
  }

  /** `_enter_position`: opens a position at `price` and places the initial stop-loss. */
  function EnterPosition(cfg: StrategyConfig, st: TradeState, price: real, side: Side): (c: Change)
    ensures c.state == st.(inPosition := true, side := side, entryPrice := price, maxPrice := price,
                           currentSl := c.state.currentSl)
    // the stop sits initialSlPercent below (long) or above (short) the entry price
    ensures side == Long ==> c.state.currentSl == price - price * cfg.initialSlPercent / 100.0
    ensures side != Long ==> c.state.currentSl == price + price * cfg.initialSlPercent / 100.0
    ensures price > 0.0 && cfg.initialSlPercent > 0.0 ==>
      (side == Long ==> c.state.currentSl < price) && (side != Long ==> c.state.currentSl > price)
    // the order, then the stop, are sent unless dry-running
    ensures cfg.dryRun ==> c.calls == []
    ensures !cfg.dryRun ==>
      c.calls == [if side == Long then EnterLongOrder(cfg.symbol, cfg.amountUsdt, cfg.leverage)
                  else EnterShortOrder(cfg.symbol, cfg.amountUsdt, cfg.leverage),
                  SetStopLoss(cfg.symbol, c.state.currentSl)]
  {
    var sl := InitialStopLoss(cfg, price, side);
    var order := if side == Long then EnterLongOrder(cfg.symbol, cfg.amountUsdt, cfg.leverage)
                 else EnterShortOrder(cfg.symbol, cfg.amountUsdt, cfg.leverage);
    var calls := if cfg.dryRun then [] else [order, SetStopLoss(cfg.symbol, sl)];
    Change(st.(inPosition := true, side := side, entryPrice := price, maxPrice := price, currentSl := sl), calls)
  }

  /**
   `_check_entry`, called on the state whose history already holds the price:
   the gate first (its day reset is kept even when blocked), then the signal.
   */
  function CheckEntry(cfg: StrategyConfig, st: TradeState, price: real, now: int, today: int,
                      signal: Models.SignalType): (r: Step)
    ensures r.result.price == price
    ensures r.state.priceHistory == st.priceHistory
    ensures var g := IsBlocked(cfg, st, now, today);
      && (g.verdict.IsBlocked() ==> r == Step(g.state, TickResult(Blocked, price), []))
      && (!g.verdict.IsBlocked() && signal.Long? ==>
            r.result.action == EnterLong && Change(r.state, r.calls) == EnterPosition(cfg, g.state, price, Long))
      && (!g.verdict.IsBlocked() && signal.Short? ==>
            r.result.action == EnterShort && Change(r.state, r.calls) == EnterPosition(cfg, g.state, price, Short))
      && (!g.verdict.IsBlocked() && signal.NoSignal? ==> r == Step(g.state, TickResult(NoAction, price), []))
    // a position is opened exactly when the gate is clear and there is a signal
    ensures r.state.inPosition <==> st.inPosition || (!IsBlocked(cfg, st, now, today).verdict.IsBlocked() && !signal.NoSignal?)
  {
    var g := IsBlocked(cfg, st, now, today);
    if g.verdict.IsBlocked() then
      Step(g.state, TickResult(Blocked, price), [])
    else if signal.Long? then
      var c := EnterPosition(cfg, g.state, price, Long);
      Step(c.state, TickResult(EnterLong, price), c.calls)
    else if signal.Short? then
      var c := EnterPosition(cfg, g.state, price, Short);
      Step(c.state, TickResult(EnterShort, price), c.calls)
    else
      Step(g.state, TickResult(NoAction, price), [])
  }

  /**
   `_calc_profit`: profit at `price` of a position with the given side and
   entry price, in percent of the entry price (0 when the entry price is 0).
   */
  function CalcProfit(side: Side, entry: real, price: real): real
  {
    if entry == 0.0 then 0.0
    else if side == Long then (price - entry) / entry * 100.0
    else (entry - price) / entry * 100.0
  }

  /**
   The sign of the profit: for a positive entry price it is negative exactly
   on the losing side of the entry (below it for long, above it otherwise)
   and zero exactly at the entry.
   */
  lemma ProfitSign(side: Side, entry: real, price: real)
    ensures entry == 0.0 ==> CalcProfit(side, entry, price) == 0.0
    ensures entry > 0.0 && side == Long ==>
      (CalcProfit(side, entry, price) < 0.0 <==> price < entry) && (CalcProfit(side, entry, price) == 0.0 <==> price == entry)
    ensures entry > 0.0 && side != Long ==>
      (CalcProfit(side, entry, price) < 0.0 <==> price > entry) && (CalcProfit(side, entry, price) == 0.0 <==> price == entry)
  {
  }

  /** `_get_trailing_offset`: the trailing offset (percent) for a peak profit, by band. */
  function GetTrailingOffset(cfg: StrategyConfig, profit: real): (r: real)
    ensures r in {cfg.trailingTight, cfg.trailingMedium, cfg.trailingNormal, cfg.trailingLoose}
    ensures profit < 2.0 ==> r == cfg.trailingTight
    ensures 2.0 <= profit < 5.0 ==> r == cfg.trailingMedium
    ensures 5.0 <= profit < 10.0 ==> r == cfg.trailingNormal
    ensures 10.0 <= profit ==> r == cfg.trailingLoose
  {
    if profit < 2.0 then cfg.trailingTight
    else if profit < 5.0 then cfg.trailingMedium
    else if profit < 10.0 then cfg.trailingNormal
    else cfg.trailingLoose
  }

  /** Stop trailing `max_price` by the banded offset. */
  function TrailingPrice(cfg: StrategyConfig, st: TradeState): real
  {
    Trail(st.side, st.maxPrice, GetTrailingOffset(cfg, CalcProfit(st.side, st.entryPrice, st.maxPrice)))
  }

  /** Whether the peak profit has reached the guaranteed-minimum trigger. */
  predicate GuaranteedArmed(cfg: StrategyConfig, st: TradeState)
  {
    CalcProfit(st.side, st.entryPrice, st.maxPrice) >= cfg.guaranteedTrigger
  }

  /** The guaranteed-minimum stop: `minPct` percent of the entry price into profit. */
  function GuaranteedLevel(side: Side, entry: real, minPct: real): real
  {
    var gOffset := entry * (minPct / 100.0);
    if side == Long then entry + gOffset else entry - gOffset
  }

  /**
   Whether the guaranteed-minimum stop takes part: it is only computed once
   armed, and Python's truthiness test then drops a level of exactly 0.
   */
  predicate GuaranteedKept(cfg: StrategyConfig, st: TradeState)
  {
    GuaranteedArmed(cfg, st) && GuaranteedLevel(st.side, st.entryPrice, cfg.guaranteedMin) != 0.0
  }

  /** The list of stop candidates: breakeven, trailing, then the guaranteed price when kept. */
  function StopCandidates(cfg: StrategyConfig, st: TradeState): (cs: seq<real>)
    ensures 2 <= |cs| <= 3 && cs[0] == st.entryPrice && cs[1] == TrailingPrice(cfg, st)
    ensures |cs| == 3 <==> GuaranteedKept(cfg, st)
    ensures |cs| == 3 ==> cs[2] == GuaranteedLevel(st.side, st.entryPrice, cfg.guaranteedMin)
  {
    [st.entryPrice, TrailingPrice(cfg, st)] + (if GuaranteedKept(cfg, st) then [GuaranteedLevel(st.side, st.entryPrice, cfg.guaranteedMin)] else [])
  }

  /** Python's `max` over a non-empty list. */
  function MaxOf(s: seq<real>): (m: real)
    requires |s| > 0
    ensures m in s
    ensures forall i :: 0 <= i < |s| ==> s[i] <= m
  {
    if |s| == 1 then s[0]
    else
      var rest := MaxOf(s[1..]);
      if s[0] >= rest then s[0] else rest
  }

  /** Python's `min` over a non-empty list. */
  function MinOf(s: seq<real>): (m: real)
    requires |s| > 0
    ensures m in s
    ensures forall i :: 0 <= i < |s| ==> m <= s[i]
  {
    if |s| == 1 then s[0]
    else
      var rest := MinOf(s[1..]);
      if s[0] <= rest then s[0] else rest
  }

  /**
   `_calc_trailing_sl`: below the breakeven trigger the stop is kept;
   otherwise the most favourable candidate (highest for long, lowest for
   short) among breakeven, trailing and guaranteed-minimum.
   */
  function CalcTrailingSl(cfg: StrategyConfig, st: TradeState, price: real): (r: real)
    ensures CalcProfit(st.side, st.entryPrice, price) < cfg.breakevenTrigger ==> r == st.currentSl
    ensures CalcProfit(st.side, st.entryPrice, price) >= cfg.breakevenTrigger ==>
      var trailing, kept := TrailingPrice(cfg, st), GuaranteedKept(cfg, st);
      // one of the candidates is chosen ...
      && (r == st.entryPrice || r == trailing || (kept && r == GuaranteedLevel(st.side, st.entryPrice, cfg.guaranteedMin)))
      // ... the highest for long: at least breakeven, trailing and the kept guaranteed price
      && (st.side == Long ==>
            r >= st.entryPrice && r >= trailing && (kept ==> r >= GuaranteedLevel(st.side, st.entryPrice, cfg.guaranteedMin)))
      // ... and the lowest otherwise
      && (st.side != Long ==>
            r <= st.entryPrice && r <= trailing && (kept ==> r <= GuaranteedLevel(st.side, st.entryPrice, cfg.guaranteedMin)))
  {
    if CalcProfit(st.side, st.entryPrice, price) < cfg.breakevenTrigger then st.currentSl
    else if st.side == Long then MaxOf(StopCandidates(cfg, st))
    else MinOf(StopCandidates(cfg, st))
  }

  /** The running extreme price after seeing `price`: max for long, min otherwise. */
  function TrackExtreme(st: TradeState, price: real): (m: real)
    ensures st.side == Long ==> m >= st.maxPrice && m >= price && (m == st.maxPrice || m == price)
    ensures st.side != Long ==> m <= st.maxPrice && m <= price && (m == st.maxPrice || m == price)
  {
    if st.side == Long then (if price > st.maxPrice then price else st.maxPrice)
    else (if price < st.maxPrice then price else st.maxPrice)
  }

  /** Whether `price` reaches the stop-loss of the position. */
  predicate StopHit(st: TradeState, price: real)
  {
    (st.side == Long && price <= st.currentSl) || (st.side == Short && price >= st.currentSl)
  }

  /** The state after the position fields are reset by a close. */
  function Flattened(st: TradeState): TradeState
  {
    st.(inPosition := false, side := Unset, entryPrice := 0.0, maxPrice := 0.0, currentSl := 0.0)
  }

  /**
   `_close_position`: a losing close bumps the daily counter (without any
   date check) and records the loss time; the position fields are reset.
   */
  function ClosePosition(cfg: StrategyConfig, st: TradeState, isLoss: bool, now: int): (c: Change)
    ensures !c.state.inPosition && c.state.side == Unset
    ensures c.state.entryPrice == 0.0 && c.state.maxPrice == 0.0 && c.state.currentSl == 0.0
    ensures c.state.priceHistory == st.priceHistory && c.state.lastLossDate == st.lastLossDate
    ensures isLoss ==> c.state.lossesToday == st.lossesToday + 1 && c.state.lastLossTime == Some(now)
    ensures !isLoss ==> c.state.lossesToday == st.lossesToday && c.state.lastLossTime == st.lastLossTime
    ensures c.calls == if cfg.dryRun then [] else [CloseOrder(cfg.symbol)]
  {
    var calls := if cfg.dryRun then [] else [CloseOrder(cfg.symbol)];
    var st1 := if isLoss then st.(lossesToday := st.lossesToday + 1, lastLossTime := Some(now)) else st;
    Change(Flattened(st1), calls)
  }

  /**
   `_manage_position`: track the extreme, close on a stop hit, otherwise move
   the stop to the trailing value when that is strictly more favourable.
   */
  function ManagePosition(cfg: StrategyConfig, st: TradeState, price: real, now: int): (r: Step)
    ensures r.result.price == price
    ensures r.state.priceHistory == st.priceHistory && r.state.lastLossDate == st.lastLossDate
    // a close happens exactly on a stop hit, judged against the updated extreme's state
    ensures r.result.action == Close <==> StopHit(st, price)
    ensures r.result.action in {Close, UpdateSl, NoAction}
    ensures r.result.action == Close ==>
      var isLoss := CalcProfit(st.side, st.entryPrice, price) < 0.0;
      && r.state == Flattened(r.state)
      && !r.state.inPosition
      && (isLoss ==> r.state.lossesToday == st.lossesToday + 1 && r.state.lastLossTime == Some(now))
      && (!isLoss ==> r.state.lossesToday == st.lossesToday && r.state.lastLossTime == st.lastLossTime)
      && r.calls == (if cfg.dryRun then [] else [CloseOrder(cfg.symbol)])
    // while open: the extreme only moves favourably and the stop never loosens
    ensures r.result.action != Close ==>
      && r.state == st.(maxPrice := r.state.maxPrice, currentSl := r.state.currentSl)
      && (st.side == Long ==> r.state.maxPrice >= st.maxPrice && r.state.maxPrice >= price)
      && (st.side != Long ==> r.state.maxPrice <= st.maxPrice && r.state.maxPrice <= price)
      && (st.side == Long ==> r.state.currentSl >= st.currentSl)
      && (st.side == Short ==> r.state.currentSl <= st.currentSl)
    ensures r.result.action != Close ==> r.state.maxPrice == TrackExtreme(st, price)
    ensures r.result.action == UpdateSl <==> r.result.action != Close && r.state.currentSl != st.currentSl
    // ... and a strictly more favourable trailing stop is always taken
    ensures !StopHit(st, price) && st.side == Long
            && CalcTrailingSl(cfg, st.(maxPrice := TrackExtreme(st, price)), price) > st.currentSl
            ==> r.result.action == UpdateSl
    ensures !StopHit(st, price) && st.side == Short
            && CalcTrailingSl(cfg, st.(maxPrice := TrackExtreme(st, price)), price) < st.currentSl
            ==> r.result.action == UpdateSl
    ensures r.result.action == UpdateSl ==>
      r.state.currentSl == CalcTrailingSl(cfg, st.(maxPrice := TrackExtreme(st, price)), price)
    ensures r.result.action == UpdateSl ==>
      && (st.side == Long || st.side == Short)
      && (st.side == Long ==> r.state.currentSl > st.currentSl)
      && (st.side == Short ==> r.state.currentSl < st.currentSl)
      && r.calls == (if cfg.dryRun then [] else [SetStopLoss(cfg.symbol, r.state.currentSl)])
    ensures r.result.action == NoAction ==> r.calls == []
  {
    var st1 := st.(maxPrice := TrackExtreme(st, price));
    if StopHit(st1, price) then
      var c := ClosePosition(cfg, st1, CalcProfit(st1.side, st1.entryPrice, price) < 0.0, now);
      Step(c.state, TickResult(Close, price), c.calls)
    else
      var newSl := CalcTrailingSl(cfg, st1, price);
      var shouldUpdate := (st1.side == Long && newSl > st1.currentSl) || (st1.side == Short && newSl < st1.currentSl);
      if shouldUpdate then
        Step(st1.(currentSl := newSl), TickResult(UpdateSl, price),
             if cfg.dryRun then [] else [SetStopLoss(cfg.symbol, newSl)])
      else
        Step(st1, TickResult(NoAction, price), [])
  }

  /**
   `tick`: the price joins the history, then the flat state goes through the
   entry check and an open position through position management.
   */
  function Tick(cfg: StrategyConfig, st: TradeState, price: real, now: int, today: int,
                signal: Models.SignalType): (r: Step)
    ensures r.result.price == price
    ensures r.state.priceHistory == AppendHistory(st.priceHistory, price)
    ensures !st.inPosition ==> r.result.action in {Blocked, EnterLong, EnterShort, NoAction}
    ensures st.inPosition ==> r.result.action in {Close, UpdateSl, NoAction}
    ensures st.inPosition ==> r.state.lastLossDate == st.lastLossDate
    ensures !st.inPosition ==> r.state.lastLossDate == Some(today)
  {
    var st1 := st.(priceHistory := AppendHistory(st.priceHistory, price));
    if !st1.inPosition then CheckEntry(cfg, st1, price, now, today, signal)
    else ManagePosition(cfg, st1, price, now)
  }

  /** `get_status` without the reason text. */
  datatype Status = Status(
    inPosition: bool,
    side: Side,
    entryPrice: real,
    currentSl: real,
    lossesToday: int,
    maxLosses: int,
    blocked: bool
  )

  /** A status report together with the state it leaves behind. */
  datatype StatusReport = StatusReport(status: Status, state: TradeState)

  /**
   `get_status`: runs the entry gate (and so its day reset, which persists)
   and reports the position and counters.
   */
  function GetStatus(cfg: StrategyConfig, st: TradeState, now: int, today: int): (r: StatusReport)
    ensures r.state == IsBlocked(cfg, st, now, today).state
    ensures r.status.blocked <==> IsBlocked(cfg, st, now, today).verdict.IsBlocked()
    ensures r.status.lossesToday == (if st.lastLossDate == Some(today) then st.lossesToday else 0)
    ensures r.status.inPosition == st.inPosition && r.status.side == st.side
    ensures r.status.entryPrice == st.entryPrice && r.status.currentSl == st.currentSl
    ensures r.status.maxLosses == cfg.maxLossesPerDay
  {
    var g := IsBlocked(cfg, st, now, today);
    var s := g.state;
    StatusReport(Status(s.inPosition, s.side, s.entryPrice, s.currentSl, s.lossesToday,
                        cfg.maxLossesPerDay, g.verdict.IsBlocked()), s)
  }
}
