/**
 The single-spike classifier `Analyzer.analyze` (src/services/analyzer.py):
 it compares the closes of the last two candles and reports a long signal on
 a rise of at least `threshold` percent, a short signal on a fall of at least
 `threshold` percent, and no signal otherwise.
 */
module Analyzer {
  import opened Wrappers
  import opened Models

  /** The only failure of `analyze`: Python raises ZeroDivisionError when the previous close is 0. */
  datatype AnalyzeError = ZeroPreviousClose

  /** Percentage change from `prev` to `last`. */
  function PriceChange(prev: real, last: real): real
    requires prev != 0.0
  {
    (last - prev) / prev * 100.0
  }

  /** Close of the candle before the last one. */
  function PrevClose(candles: seq<Candle>): real
    requires |candles| >= 2
  {
    candles[|candles| - 2].close
  }

  /** Close of the last candle. */
  function LastClose(candles: seq<Candle>): real
    requires |candles| >= 2
  {
    candles[|candles| - 1].close
  }

  /** `Analyzer.analyze(candles, symbol)` with `spike_threshold == threshold`. */
  function Analyze(threshold: real, candles: seq<Candle>, symbol: string): (r: Result<Signal, AnalyzeError>)
    // too little data is an ordinary "no signal" at price 0
    ensures |candles| < 2 ==> r == Success(Signal(NoSignal, symbol, 0.0))
    // the only error is a zero previous close
    ensures r.Failure? <==> |candles| >= 2 && PrevClose(candles) == 0.0
    // the pair is passed through, and the price is the last close
    ensures r.Success? ==> r.value.symbol == symbol
    ensures r.Success? && |candles| >= 2 ==> r.value.price == LastClose(candles)
    // classification of the spike; a rise is checked first
    ensures r.Success? && |candles| >= 2 ==>
      var change := PriceChange(PrevClose(candles), LastClose(candles));
      && (r.value.kind == Long <==> change >= threshold)
      && (r.value.kind == Short <==> change < threshold && change <= -threshold)
      && (r.value.kind == NoSignal <==> -threshold < change < threshold)
  {
    if |candles| < 2 then
      Success(Signal(NoSignal, symbol, 0.0))
    else
      var last := candles[|candles| - 1];
      var prev := candles[|candles| - 2];
      if prev.close == 0.0 then
        Failure(ZeroPreviousClose)
      else
        var change := PriceChange(prev.close, last.close);
        if change >= threshold then
          Success(Signal(Long, symbol, last.close))
        else if change <= -threshold then
          Success(Signal(Short, symbol, last.close))
        else
          Success(Signal(NoSignal, symbol, last.close))
  }

  /** Only the closes of the last two candles matter: all other candles and fields are ignored. */
  lemma AnalyzeDependsOnlyOnLastTwoCloses(threshold: real, a: seq<Candle>, b: seq<Candle>, symbol: string)
    requires |a| >= 2 && |b| >= 2
    requires PrevClose(a) == PrevClose(b) && LastClose(a) == LastClose(b)
    ensures Analyze(threshold, a, symbol) == Analyze(threshold, b, symbol)
  {
  }

  /**
   With a positive threshold the two spike directions are exclusive and a fall
   of at least `threshold` percent is always reported as short.
   */
  lemma SpikeDirectionsExclusive(threshold: real, candles: seq<Candle>, symbol: string)
    requires threshold > 0.0
    requires |candles| >= 2 && PrevClose(candles) != 0.0
    ensures var change := PriceChange(PrevClose(candles), LastClose(candles));
      && !(change >= threshold && change <= -threshold)
      && (Analyze(threshold, candles, symbol).value.kind == Short <==> change <= -threshold)
  {
  }

  /** `(a*f)/(b*f) == a/b` for non-zero `b` and `f`. */
  lemma CancelCommonFactor(a: real, b: real, f: real)
    requires b != 0.0 && f != 0.0
    ensures (a * f) / (b * f) == a / b
  {
    var q := a / b;
    assert a == q * b;
    assert a * f == q * (b * f);
  }

  /** The candles with every close multiplied by `factor`. */
  function ScaleCloses(candles: seq<Candle>, factor: real): (r: seq<Candle>)
    ensures |r| == |candles|
    ensures forall i :: 0 <= i < |r| ==> r[i].close == candles[i].close * factor
  {
    seq(|candles|, i requires 0 <= i < |candles| => candles[i].(close := candles[i].close * factor))
  }

  /**
   The classifier works on relative change: re-quoting every close in a
   different positive unit does not change the direction of the signal.
   */
  lemma AnalyzeScaleInvariant(threshold: real, candles: seq<Candle>, symbol: string, factor: real)
    requires factor > 0.0
    requires Analyze(threshold, candles, symbol).Success?
    ensures Analyze(threshold, ScaleCloses(candles, factor), symbol).Success?
    ensures Analyze(threshold, ScaleCloses(candles, factor), symbol).value.kind
         == Analyze(threshold, candles, symbol).value.kind
  {
    var scaled := ScaleCloses(candles, factor);
    if |candles| >= 2 {
      var p, l := PrevClose(candles), LastClose(candles);
      assert PrevClose(scaled) == p * factor;
      assert LastClose(scaled) == l * factor;
      assert l * factor - p * factor == (l - p) * factor;
      CancelCommonFactor(l - p, p, factor);
      assert PriceChange(p * factor, l * factor) == PriceChange(p, l);
    }
  }
}
