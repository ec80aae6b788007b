/**
 Properties of the `Strategy` state machine over single ticks and over whole
 runs of ticks: the state invariant, the bounded price window, the stop-loss
 ratchet and its floors, the entry gate scenarios, and dry-run equivalence.
 */
module StrategyProofs {
  import opened Wrappers
  import Models
  import opened Strategy

  /** What the outside world supplies to one tick. */
  datatype TickInput = TickInput(price: real, now: int, today: int, signal: Models.SignalType)

  /** The outcome of a run: final state, every tick's result and every collaborator call, in order. */
  datatype Trace = Trace(state: TradeState, results: seq<TickResult>, calls: seq<Command>)

  /**
   Repeated `tick` calls, as the scheduler in front of the strategy performs
   them. From a history that fits, the final history holds exactly the last
   (at most twenty) prices seen: the old history followed by the run's
   prices, truncated from the front.
   */
  function Run(cfg: StrategyConfig, st: TradeState, inputs: seq<TickInput>): (t: Trace)
    ensures |t.results| == |inputs|
    ensures |st.priceHistory| <= HistoryLimit ==>
      t.state.priceHistory == LastN(st.priceHistory + Prices(inputs), HistoryLimit)
    decreases |inputs|
  {
    if inputs == [] then
      assert st.priceHistory + Prices(inputs) == st.priceHistory;
      Trace(st, [], [])
    else
      var i := inputs[0];
      var s := Tick(cfg, st, i.price, i.now, i.today, i.signal);
      var rest := Run(cfg, s.state, inputs[1..]);
      WindowAfterFirstPrice(st.priceHistory, inputs);
      Trace(rest.state, [s.result] + rest.results, s.calls + rest.calls)
  }

  /** The prices of a run, in order. */
  function Prices(inputs: seq<TickInput>): (ps: seq<real>)
    ensures |ps| == |inputs|
    ensures forall i :: 0 <= i < |inputs| ==> ps[i] == inputs[i].price
  {
    if inputs == [] then [] else [inputs[0].price] + Prices(inputs[1..])
  }

  /**
   The state invariant: a bounded history, a side exactly while in position,
   zeroed position fields while flat, and an extreme price on the favourable
   side of the entry price.
   */
  predicate Valid(st: TradeState)
  {
    && |st.priceHistory| <= HistoryLimit
    && (st.inPosition <==> st.side != Unset)
    && (!st.inPosition ==> st.entryPrice == 0.0 && st.maxPrice == 0.0 && st.currentSl == 0.0)
    && (st.side == Long ==> st.maxPrice >= st.entryPrice)
    && (st.side == Short ==> st.maxPrice <= st.entryPrice)
    && st.lossesToday >= 0
  }

  lemma InitialStateValid()
    ensures Valid(InitialState())
    ensures InitialState().priceHistory == [] && !InitialState().inPosition
  {
  }

  /** Every tick preserves the state invariant. */
  lemma TickPreservesValid(cfg: StrategyConfig, st: TradeState, price: real, now: int, today: int,
                           signal: Models.SignalType)
    requires Valid(st)
    ensures Valid(Tick(cfg, st, price, now, today, signal).state)
  {
  }

  /** Every run preserves the state invariant. */
  lemma {:induction false} RunPreservesValid(cfg: StrategyConfig, st: TradeState, inputs: seq<TickInput>)
    requires Valid(st)
    ensures Valid(Run(cfg, st, inputs).state)
    decreases |inputs|
  {
    if inputs != [] {
      var i := inputs[0];
      TickPreservesValid(cfg, st, i.price, i.now, i.today, i.signal);
      RunPreservesValid(cfg, Tick(cfg, st, i.price, i.now, i.today, i.signal).state, inputs[1..]);
    }
  }

  /** The window after the first price of a run, extended by the remaining prices, is the window of them all. */
  lemma WindowAfterFirstPrice(h: seq<real>, inputs: seq<TickInput>)
    requires inputs != []
    ensures LastN(LastN(h + [inputs[0].price], HistoryLimit) + Prices(inputs[1..]), HistoryLimit)
         == LastN(h + Prices(inputs), HistoryLimit)
  {
    var p, rest := inputs[0].price, Prices(inputs[1..]);
    assert h + Prices(inputs) == (h + [p]) + rest by {
      assert Prices(inputs) == [p] + rest;
    }
    LastNOfLastN(h + [p], rest, HistoryLimit);
  }

  /** Taking the last `n` twice, around an append, is the same as taking them once. */
  lemma LastNOfLastN<T>(a: seq<T>, b: seq<T>, n: nat)
    ensures LastN(LastN(a, n) + b, n) == LastN(a + b, n)
  {
    var la := LastN(a, n);
    assert a == a[..|a| - |la|] + la;
    assert a + b == a[..|a| - |la|] + (la + b);
  }

  /** The trailing candidate reads no collaborator setting. */
  lemma TrailingPriceIgnoresDryRun(cfg: StrategyConfig, st: TradeState, b: bool)
    ensures TrailingPrice(cfg.(dryRun := b), st) == TrailingPrice(cfg, st)
  {
  }

  /** The guaranteed-minimum candidate reads no collaborator setting. */
  lemma GuaranteedIgnoresDryRun(cfg: StrategyConfig, st: TradeState, b: bool)
    ensures GuaranteedKept(cfg.(dryRun := b), st) == GuaranteedKept(cfg, st)
  {
  }

  /** The stop computation reads no collaborator setting. */
  lemma TrailingSlIgnoresDryRun(cfg: StrategyConfig, st: TradeState, price: real, b: bool)
    ensures CalcTrailingSl(cfg.(dryRun := b), st, price) == CalcTrailingSl(cfg, st, price)
  {
    var c := cfg.(dryRun := b);
    assert StopCandidates(c, st) == StopCandidates(cfg, st) by {
      TrailingPriceIgnoresDryRun(cfg, st, b);
      GuaranteedIgnoresDryRun(cfg, st, b);
    }
  }

  /** Position management in dry-run mode changes the state exactly as live, and issues no call. */
  lemma ManageDryRunEquivalence(cfg: StrategyConfig, st: TradeState, price: real, now: int)
    ensures var dry := ManagePosition(cfg.(dryRun := true), st, price, now);
            var live := ManagePosition(cfg.(dryRun := false), st, price, now);
            dry.state == live.state && dry.result == live.result && dry.calls == []
  {
    var st1 := st.(maxPrice := TrackExtreme(st, price));
    TrailingSlIgnoresDryRun(cfg, st1, price, true);
    TrailingSlIgnoresDryRun(cfg, st1, price, false);
  }

  /** The entry check in dry-run mode changes the state exactly as live, and issues no call. */
  lemma EntryDryRunEquivalence(cfg: StrategyConfig, st: TradeState, price: real, now: int, today: int,
                               signal: Models.SignalType)
    ensures var dry := CheckEntry(cfg.(dryRun := true), st, price, now, today, signal);
            var live := CheckEntry(cfg.(dryRun := false), st, price, now, today, signal);
            dry.state == live.state && dry.result == live.result && dry.calls == []
  {
  }

  /** A single tick in dry-run mode changes the state exactly as a live tick, and issues no call. */
  lemma TickDryRunEquivalence(cfg: StrategyConfig, st: TradeState, price: real, now: int, today: int,
                              signal: Models.SignalType)
    ensures var dry := Tick(cfg.(dryRun := true), st, price, now, today, signal);
            var live := Tick(cfg.(dryRun := false), st, price, now, today, signal);
            dry.state == live.state && dry.result == live.result && dry.calls == []
  {
    var st1 := st.(priceHistory := AppendHistory(st.priceHistory, price));
    if st1.inPosition {
      ManageDryRunEquivalence(cfg, st1, price, now);
    } else {
      EntryDryRunEquivalence(cfg, st1, price, now, today, signal);
    }
  }

  /**
   Dry-run equivalence over whole runs: the same inputs give the same state
   trajectory and the same results with `dryRun` on or off; only the live
   run issues collaborator calls. Every collaborator call is taken to
   succeed: in the source a raising call aborts the transition part-way
   (before the entry's state update, before the close's counter update and
   reset, after the stop has been assigned), which a dry run never does.
   */
  lemma {:induction false} DryRunEquivalence(cfg: StrategyConfig, st: TradeState, inputs: seq<TickInput>)
    ensures var dry := Run(cfg.(dryRun := true), st, inputs);
            var live := Run(cfg.(dryRun := false), st, inputs);
            dry.state == live.state && dry.results == live.results && dry.calls == []
    decreases |inputs|
  {
    if inputs != [] {
      var i := inputs[0];
      TickDryRunEquivalence(cfg, st, i.price, i.now, i.today, i.signal);
      var s := Tick(cfg.(dryRun := false), st, i.price, i.now, i.today, i.signal);
      DryRunEquivalence(cfg, s.state, inputs[1..]);
    }
  }

  /** No result of the run is a close. */
  predicate NoClose(results: seq<TickResult>)
  {
    forall k :: 0 <= k < |results| ==> results[k].action != Close
  }

  /**
   While a long position stays open over a run, its extreme price never
   decreases and its stop-loss never loosens; entry price and side are kept.
   */
  lemma {:induction false} LongRunRatchets(cfg: StrategyConfig, st: TradeState, inputs: seq<TickInput>)
    requires st.inPosition && st.side == Long
    requires NoClose(Run(cfg, st, inputs).results)
    ensures var e := Run(cfg, st, inputs).state;
      && e.inPosition && e.side == Long && e.entryPrice == st.entryPrice
      && e.maxPrice >= st.maxPrice && e.currentSl >= st.currentSl
    decreases |inputs|
  {
    if inputs != [] {
      var i := inputs[0];
      var s := Tick(cfg, st, i.price, i.now, i.today, i.signal);
      var rest := Run(cfg, s.state, inputs[1..]);
      assert Run(cfg, st, inputs).results == [s.result] + rest.results;
      assert s.result.action != Close by {
        assert Run(cfg, st, inputs).results[0] == s.result;
      }
      assert NoClose(rest.results) by {
        forall k | 0 <= k < |rest.results|
          ensures rest.results[k].action != Close
        {
          assert rest.results[k] == Run(cfg, st, inputs).results[k + 1];
        }
      }
      LongRunRatchets(cfg, s.state, inputs[1..]);
    }
  }

  /** The mirror image for a short position: the extreme never rises and the stop never loosens. */
  lemma {:induction false} ShortRunRatchets(cfg: StrategyConfig, st: TradeState, inputs: seq<TickInput>)
    requires st.inPosition && st.side == Short
    requires NoClose(Run(cfg, st, inputs).results)
    ensures var e := Run(cfg, st, inputs).state;
      && e.inPosition && e.side == Short && e.entryPrice == st.entryPrice
      && e.maxPrice <= st.maxPrice && e.currentSl <= st.currentSl
    decreases |inputs|
  {
    if inputs != [] {
      var i := inputs[0];
      var s := Tick(cfg, st, i.price, i.now, i.today, i.signal);
      var rest := Run(cfg, s.state, inputs[1..]);
      assert Run(cfg, st, inputs).results == [s.result] + rest.results;
      assert s.result.action != Close by {
        assert Run(cfg, st, inputs).results[0] == s.result;
      }
      assert NoClose(rest.results) by {
        forall k | 0 <= k < |rest.results|
          ensures rest.results[k].action != Close
        {
          assert rest.results[k] == Run(cfg, st, inputs).results[k + 1];
        }
      }
      ShortRunRatchets(cfg, s.state, inputs[1..]);
    }
  }

  /**
   A tick that keeps the position open leaves a stop at least as favourable
   as any bound the freshly computed trailing stop reaches.
   */
  lemma ManageStopWithinBound(cfg: StrategyConfig, st: TradeState, price: real, now: int, bound: real)
    requires !StopHit(st, price)
    requires var newSl := CalcTrailingSl(cfg, st.(maxPrice := TrackExtreme(st, price)), price);
      (st.side == Long && newSl >= bound) || (st.side == Short && newSl <= bound)
    ensures st.side == Long ==> ManagePosition(cfg, st, price, now).state.currentSl >= bound
    ensures st.side == Short ==> ManagePosition(cfg, st, price, now).state.currentSl <= bound
  {
  }

  /**
   Breakeven floor: once the profit at the current price reaches the
   breakeven trigger, a tick that keeps the position open leaves the stop at
   or beyond the entry price (above for long, below for short).
   */
  lemma BreakevenFloor(cfg: StrategyConfig, st: TradeState, price: real, now: int)
    requires st.inPosition && (st.side == Long || st.side == Short)
    requires CalcProfit(st.side, st.entryPrice, price) >= cfg.breakevenTrigger
    requires !StopHit(st, price)
    ensures var e := ManagePosition(cfg, st, price, now).state;
      && (st.side == Long ==> e.currentSl >= st.entryPrice)
      && (st.side == Short ==> e.currentSl <= st.entryPrice)
  {
  }

  /**
   Guaranteed-minimum floor: once the peak profit reaches the guaranteed
   trigger (and the current profit the breakeven trigger), a tick that keeps
   the position open leaves the stop locking in at least `guaranteedMin`
   percent of profit, provided that level is non-zero (Python's truthiness
   test drops a level of exactly 0; `GuaranteedPriceKept` gives a simple
   sufficient condition).
   */
  lemma GuaranteedFloor(cfg: StrategyConfig, st: TradeState, price: real, now: int)
    requires st.inPosition && (st.side == Long || st.side == Short)
    requires GuaranteedLevel(st.side, st.entryPrice, cfg.guaranteedMin) != 0.0
    requires CalcProfit(st.side, st.entryPrice, price) >= cfg.breakevenTrigger
    requires CalcProfit(st.side, st.entryPrice, TrackExtreme(st, price)) >= cfg.guaranteedTrigger
    requires !StopHit(st, price)
    ensures var e := ManagePosition(cfg, st, price, now).state;
      && (st.side == Long ==> e.currentSl >= GuaranteedLevel(Long, st.entryPrice, cfg.guaranteedMin))
      && (st.side == Short ==> e.currentSl <= GuaranteedLevel(Short, st.entryPrice, cfg.guaranteedMin))
  {
    var g := GuaranteedLevel(st.side, st.entryPrice, cfg.guaranteedMin);
    ManageStopWithinBound(cfg, st, price, now, g);
  }

  /** For a positive entry and |minPct| below 100 the guaranteed level is a positive price. */
  lemma GuaranteedLevelPositive(side: Side, entry: real, minPct: real)
    requires entry > 0.0 && -100.0 < minPct < 100.0
    ensures GuaranteedLevel(side, entry, minPct) > 0.0
  {
  }

  /** With a positive entry and |guaranteedMin| below 100, an armed guaranteed price is non-zero and kept. */
  lemma GuaranteedPriceKept(cfg: StrategyConfig, st: TradeState)
    requires st.entryPrice > 0.0 && -100.0 < cfg.guaranteedMin < 100.0
    requires CalcProfit(st.side, st.entryPrice, st.maxPrice) >= cfg.guaranteedTrigger
    ensures GuaranteedKept(cfg, st)
  {
    GuaranteedLevelPositive(st.side, st.entryPrice, cfg.guaranteedMin);
  }

  /**
   Stop hits and loss classification: a tick on an open position closes it
   exactly when the price reaches the stop, and the close counts as a loss
   exactly when the price is on the losing side of the entry (a close at the
   entry price is not a loss).
   */
  lemma CloseIsLossIffBelowEntry(cfg: StrategyConfig, st: TradeState, price: real, now: int, today: int,
                                 signal: Models.SignalType)
    requires Valid(st) && st.inPosition && st.entryPrice > 0.0
    ensures var r := Tick(cfg, st, price, now, today, signal);
      && (r.result.action == Close <==>
            (st.side == Long && price <= st.currentSl) || (st.side == Short && price >= st.currentSl))
      && (r.result.action == Close ==>
            var loss := if st.side == Long then price < st.entryPrice else price > st.entryPrice;
            && (loss ==> r.state.lossesToday == st.lossesToday + 1 && r.state.lastLossTime == Some(now))
            && (!loss ==> r.state.lossesToday == st.lossesToday && r.state.lastLossTime == st.lastLossTime)
            && !r.state.inPosition && r.state.lastLossDate == st.lastLossDate)
  {
  }

  /** `_is_blocked` is idempotent: a second check with the same clock changes nothing and agrees. */
  lemma IsBlockedIdempotent(cfg: StrategyConfig, st: TradeState, now: int, today: int)
    ensures var g := IsBlocked(cfg, st, now, today);
            IsBlocked(cfg, g.state, now, today) == g
  {
  }

  /**
   `get_status` reports "blocked" exactly when a flat tick at the same
   instant would be blocked, even though its own check already ran the day reset.
   */
  lemma StatusAgreesWithTick(cfg: StrategyConfig, st: TradeState, price: real, now: int, today: int,
                             signal: Models.SignalType)
    requires !st.inPosition
    ensures var rep := GetStatus(cfg, st, now, today);
      && (rep.status.blocked <==> Tick(cfg, st, price, now, today, signal).result.action == Blocked)
      && (rep.status.blocked <==> Tick(cfg, rep.state, price, now, today, signal).result.action == Blocked)
  {
  }

  /**
   Cooldown: after a losing close at `t`, an entry attempt strictly before
   `t + cooldown` is blocked, and one at or after it is not, as long as the
   daily cap is not reached.
   */
  lemma CooldownAfterLoss(cfg: StrategyConfig, st: TradeState, price: real, t: int, now: int, today: int,
                          signal: Models.SignalType)
    requires st.inPosition
    ensures var closed := ClosePosition(cfg, st, true, t).state;
            var g := IsBlocked(cfg, closed, now, today);
      && (now < t + cfg.cooldownMinutes * SecondsPerMinute ==> g.verdict.IsBlocked())
      && (now >= t + cfg.cooldownMinutes * SecondsPerMinute && g.state.lossesToday < cfg.maxLossesPerDay ==>
            g.verdict == Clear
            && Tick(cfg, closed, price, now, today, signal).result.action
               == (match signal case Long => EnterLong case Short => EnterShort case NoSignal => NoAction))
  {
  }

  /**
   Daily reset: a position entered on a new day (the gate runs and zeroes
   the counter) and closed at a loss the same day leaves exactly one loss
   for that day, whatever yesterday's count was.
   */
  lemma DailyResetThenLoss(cfg: StrategyConfig, st: TradeState, entryPrice: real, exitPrice: real,
                           t0: int, t1: int, today: int)
    requires !st.inPosition && st.lastLossDate == Some(today - 1)
    requires st.lastLossTime.Some? ==> st.lastLossTime.value + cfg.cooldownMinutes * SecondsPerMinute <= t0
    requires cfg.maxLossesPerDay > 0
    requires entryPrice > 0.0 && 0.0 < cfg.initialSlPercent < 100.0
    requires exitPrice <= InitialStopLoss(cfg, entryPrice, Long)
    ensures var entered := Tick(cfg, st, entryPrice, t0, today, Models.Long);
            var exited := Tick(cfg, entered.state, exitPrice, t1, today, Models.NoSignal);
      && entered.result.action == EnterLong
      && exited.result.action == Close
      && exited.state.lossesToday == 1
      && exited.state.lastLossDate == Some(today)
      && exited.state.lastLossTime == Some(t1)
  {
  }

  /**
   The day counter as written: a losing close is counted on the day the
   position was entered, without a date check, and the next gate check on a
   later day wipes it. A loss taken just after midnight on a position opened
   the day before is therefore not counted against the new day.
   */
  lemma OvernightLossForgotten(cfg: StrategyConfig, st: TradeState, exitPrice: real, t: int, day: int)
    requires Valid(st) && st.inPosition && st.side == Long && st.entryPrice > 0.0
    requires st.lastLossDate == Some(day - 1)
    requires exitPrice <= st.currentSl && exitPrice < st.entryPrice
    ensures var closed := Tick(cfg, st, exitPrice, t, day, Models.NoSignal);
            var g := IsBlocked(cfg, closed.state, t, day);
      && closed.result.action == Close
      && closed.state.lossesToday == st.lossesToday + 1
      && g.state.lossesToday == 0
  {
  }

  /**
   With bands configured from tight to loose (as the defaults are), the
   trailing offset never widens as the peak profit grows.
   */
  lemma TrailingOffsetNarrows(cfg: StrategyConfig, p: real, q: real)
    requires cfg.trailingTight >= cfg.trailingMedium >= cfg.trailingNormal >= cfg.trailingLoose
    requires p <= q
    ensures GetTrailingOffset(cfg, q) <= GetTrailingOffset(cfg, p)
  {
  }

  /** The default configuration has its bands ordered from tight to loose and trails by a positive offset. */
  lemma DefaultBandsOrdered()
    ensures var c := DefaultConfig();
      && c.trailingTight >= c.trailingMedium >= c.trailingNormal >= c.trailingLoose > 0.0
      && c.initialSlPercent > 0.0 && c.dryRun
  {
  }
}
