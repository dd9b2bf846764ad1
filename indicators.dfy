/** Streaming indicators, each a small state machine fed one value or bar at a
    time: EMA, SMA over a bounded window, ATR (an EMA of true ranges with a
    warm-up counter) and ATRCandle (a counter of oversized candle bodies).
    Every class keeps a ghost history of what it was fed, and its invariant
    ties its fields to pure functions of that history. */
module Indicators {
  import opened Prelude
  import opened Types

  // ---------------------------------------------------------------------------
  // Exponential moving average

  /** The smoothing factor 2/(period+1). */
  function Alpha(period: int): real
    requires period != -1
  {
    2.0 / (period + 1) as real
  }

  /** For a period of at least 1 the smoothing factor lies in (0, 1]. */
  lemma AlphaInUnitInterval(period: int)
    requires period >= 1
    ensures 0.0 < Alpha(period) <= 1.0
  {
    var d := (period + 1) as real;
    assert d >= 2.0;
    assert Alpha(period) * d == 2.0;
  }

  /** The EMA after being fed `prices`: the first price seeds the value, every
      later one is blended in with weight alpha; 0 before any update. */
  function EmaOf(prices: seq<real>, alpha: real): real
  {
    if |prices| == 0 then 0.0
    else if |prices| == 1 then prices[0]
    else prices[|prices| - 1] * alpha + EmaOf(prices[..|prices| - 1], alpha) * (1.0 - alpha)
  }

  /** A blend with a weight in [0, 1] of two values at least lo is at least lo. */
  lemma BlendAtLeast(x: real, y: real, alpha: real, lo: real)
    requires lo <= x && lo <= y && 0.0 <= alpha <= 1.0
    ensures lo <= x * alpha + y * (1.0 - alpha)
  {
    var beta := 1.0 - alpha;
    assert (x - lo) * alpha >= 0.0;
    assert (y - lo) * beta >= 0.0;
    assert x * alpha + y * beta - lo == (x - lo) * alpha + (y - lo) * beta;
  }

  /** A blend with a weight in [0, 1] of two values at most hi is at most hi. */
  lemma BlendAtMost(x: real, y: real, alpha: real, hi: real)
    requires x <= hi && y <= hi && 0.0 <= alpha <= 1.0
    ensures x * alpha + y * (1.0 - alpha) <= hi
  {
    var beta := 1.0 - alpha;
    assert (hi - x) * alpha >= 0.0;
    assert (hi - y) * beta >= 0.0;
    assert hi - (x * alpha + y * beta) == (hi - x) * alpha + (hi - y) * beta;
  }

  /** With a weight in [0, 1] the EMA never drops below a lower bound of its inputs. */
  lemma {:induction false} EmaAtLeast(prices: seq<real>, alpha: real, lo: real)
    requires |prices| > 0 && 0.0 <= alpha <= 1.0
    requires forall i :: 0 <= i < |prices| ==> lo <= prices[i]
    ensures lo <= EmaOf(prices, alpha)
  {
    if |prices| > 1 {
      var init := prices[..|prices| - 1];
      assert forall i :: 0 <= i < |init| ==> init[i] == prices[i];
      EmaAtLeast(init, alpha, lo);
      BlendAtLeast(prices[|prices| - 1], EmaOf(init, alpha), alpha, lo);
    } else {
      assert lo <= prices[0];
    }
  }

  /** With a weight in [0, 1] the EMA never exceeds an upper bound of its inputs. */
  lemma {:induction false} EmaAtMost(prices: seq<real>, alpha: real, hi: real)
    requires |prices| > 0 && 0.0 <= alpha <= 1.0
    requires forall i :: 0 <= i < |prices| ==> prices[i] <= hi
    ensures EmaOf(prices, alpha) <= hi
  {
    if |prices| > 1 {
      var init := prices[..|prices| - 1];
      assert forall i :: 0 <= i < |init| ==> init[i] == prices[i];
      EmaAtMost(init, alpha, hi);
      BlendAtMost(prices[|prices| - 1], EmaOf(init, alpha), alpha, hi);
    } else {
      assert prices[0] <= hi;
    }
  }

  /** Period 3 gives alpha 0.5, so seeding with 10 and then feeding 20 gives 15. */
  lemma EmaScenario()
    ensures Alpha(3) == 0.5
    ensures EmaOf([10.0, 20.0], Alpha(3)) == 15.0
  {
    assert [10.0, 20.0][..1] == [10.0];
  }

  class EMA {
    const period: int
    const alpha: real
    var value: real
    var init: bool
    ghost var history: seq<real>

    ghost predicate Valid()
      reads this
    {
      && period != -1
      && alpha == Alpha(period)
      && init == (|history| > 0)
      && value == EmaOf(history, alpha)
    }

    constructor (period: int)
      requires period != -1
      ensures Valid()
      ensures this.period == period && history == []
    {
      this.period := period;
      alpha := 2.0 / (period + 1) as real;
      value := 0.0;
      init := false;
      history := [];
    }

    method Update(price: real)
      requires Valid()
      modifies this
      ensures Valid()
      ensures history == old(history) + [price]
      ensures value == if old(init) then price * alpha + old(value) * (1.0 - alpha) else price
    {
      if !init {
        value := price;
        init := true;
      } else {
        value := price * alpha + value * (1.0 - alpha);
      }
      history := history + [price];
      assert history[..|history| - 1] == old(history);
    }

    function Value(): (v: real)
      reads this
      requires Valid()
      ensures v == EmaOf(history, alpha)
    {
      value
    }

    /** Ready exactly when at least one price has been fed. */
    function Ready(): (r: bool)
      reads this
      requires Valid()
      ensures r <==> |history| > 0
    {
      init
    }
  }

  // ---------------------------------------------------------------------------
  // Simple moving average

  /** The last `period` items of `history` (all of it while shorter), in arrival order. */
  function Window(history: seq<real>, period: nat): (w: seq<real>)
    ensures |w| == if |history| < period then |history| else period
    ensures w == history[|history| - |w|..]
  {
    if |history| <= period then history else history[|history| - period..]
  }

  /** Feeding one price appends it to the window and drops the oldest item
      once the window would exceed the period. */
  lemma WindowSnoc(history: seq<real>, period: nat, price: real)
    ensures var w := Window(history, period) + [price];
            Window(history + [price], period) == if |w| > period then w[1..] else w
  {
    var h := history + [price];
    var w := Window(history, period) + [price];
    if |history| < period {
      assert Window(h, period) == h;
    } else {
      assert w == h[|h| - period - 1..];
      assert Window(h, period) == h[|h| - period..];
    }
  }

  function Sum(s: seq<real>): real
  {
    if |s| == 0 then 0.0 else Sum(s[..|s| - 1]) + s[|s| - 1]
  }

  /** The arithmetic mean, 0 for an empty sequence. */
  function Mean(s: seq<real>): real
  {
    if |s| == 0 then 0.0 else Sum(s) / |s| as real
  }

  lemma {:induction false} SumBounds(s: seq<real>, lo: real, hi: real)
    requires forall i :: 0 <= i < |s| ==> lo <= s[i] <= hi
    ensures |s| as real * lo <= Sum(s) <= |s| as real * hi
  {
    if |s| > 0 {
      SumBounds(s[..|s| - 1], lo, hi);
    }
  }

  /** The mean of a non-empty window lies between any bounds of its items. */
  lemma MeanBounds(s: seq<real>, lo: real, hi: real)
    requires |s| > 0
    requires forall i :: 0 <= i < |s| ==> lo <= s[i] <= hi
    ensures lo <= Mean(s) <= hi
  {
    SumBounds(s, lo, hi);
    var n := |s| as real;
    var m := Mean(s);
    assert m * n == Sum(s);
  }

  /** Period 2 fed 1, 2, 3 averages the last two prices, 2.5; it is full only
      from the second update on. */
  lemma SmaScenario()
    ensures |Window([1.0], 2)| < 2 && |Window([1.0, 2.0], 2)| >= 2
    ensures Mean(Window([1.0, 2.0, 3.0], 2)) == 2.5
  {
    assert Window([1.0, 2.0, 3.0], 2) == [2.0, 3.0];
    assert [2.0, 3.0][..1] == [2.0];
    assert [2.0][..0] == [];
    assert Sum([2.0, 3.0]) == 5.0;
  }

  class SMA {
    const period: int
    var values: seq<real>
    ghost var history: seq<real>

    ghost predicate Valid()
      reads this
    {
      period >= 0 && values == Window(history, period)
    }

    /** A negative period makes the source's slice allocation fail, so it is excluded. */
    constructor (period: int)
      requires period >= 0
      ensures Valid()
      ensures this.period == period && history == []
    {
      this.period := period;
      values := [];
      history := [];
    }

    method Update(price: real)
      requires Valid()
      modifies this
      ensures Valid()
      ensures history == old(history) + [price]
      ensures values == Window(old(history) + [price], period)
    {
      WindowSnoc(history, period, price);
      values := values + [price];
      if |values| > period {
        values := values[1..];
      }
      history := history + [price];
    }

    method Value() returns (v: real)
      requires Valid()
      ensures v == Mean(values)
      ensures v == Mean(Window(history, period))
    {
      if |values| == 0 {
        return 0.0;
      }
      var sum := 0.0;
      for i := 0 to |values|
        invariant sum == Sum(values[..i])
      {
        assert values[..i + 1][..i] == values[..i];
        sum := sum + values[i];
      }
      assert values[..|values|] == values;
      v := sum / |values| as real;
    }

    /** Ready exactly when at least `period` prices have been fed. */
    function Ready(): (r: bool)
      reads this
      requires Valid()
      ensures r <==> |history| >= period
    {
      |values| >= period
    }
  }

  // ---------------------------------------------------------------------------
  // Average true range

  function TrueRange(prevClose: real, bar: Bar): (tr: real)
  {
    Max(bar.high - bar.low, Max(Abs(bar.high - prevClose), Abs(bar.low - prevClose)))
  }

  /** The true range is the largest of its three candidates: never negative,
      at least each of them, and equal to one of them. */
  lemma TrueRangeBounds(prevClose: real, bar: Bar)
    ensures var tr := TrueRange(prevClose, bar);
            && tr >= 0.0
            && tr >= bar.high - bar.low && tr >= Abs(bar.high - prevClose) && tr >= Abs(bar.low - prevClose)
            && (tr == bar.high - bar.low || tr == Abs(bar.high - prevClose) || tr == Abs(bar.low - prevClose))
  {
  }

  /** The true ranges an ATR feeds its EMA: one per bar after the first. */
  function TrueRanges(bars: seq<Bar>): (trs: seq<real>)
    ensures |trs| == if |bars| == 0 then 0 else |bars| - 1
  {
    if |bars| <= 1 then []
    else TrueRanges(bars[..|bars| - 1]) + [TrueRange(bars[|bars| - 2].close, bars[|bars| - 1])]
  }

  /** The i-th true range compares bar i+1 with the close of bar i. */
  lemma {:induction false} TrueRangesAt(bars: seq<Bar>)
    ensures forall i :: 0 <= i < |TrueRanges(bars)| ==>
              TrueRanges(bars)[i] == TrueRange(bars[i].close, bars[i + 1])
  {
    if |bars| > 1 {
      var init := bars[..|bars| - 1];
      TrueRangesAt(init);
      assert forall i :: 0 <= i < |init| ==> init[i] == bars[i];
    }
  }

  lemma TrueRangesSnoc(bars: seq<Bar>, bar: Bar)
    requires |bars| > 0
    ensures TrueRanges(bars + [bar]) == TrueRanges(bars) + [TrueRange(bars[|bars| - 1].close, bar)]
  {
    var h := bars + [bar];
    assert h[..|h| - 1] == bars;
  }

  function LastBar(bars: seq<Bar>): Option<Bar>
  {
    if |bars| == 0 then None else Some(bars[|bars| - 1])
  }

  /** ATR readiness: at least `period` true ranges, and at least one. */
  predicate AtrReady(bars: seq<Bar>, period: int)
  {
    |bars| >= 2 && |bars| - 1 >= period
  }

  function AtrValue(bars: seq<Bar>, period: int): real
    requires period != -1
  {
    EmaOf(TrueRanges(bars), Alpha(period))
  }

  /** With a period of at least 1 the ATR is never negative. */
  lemma AtrValueNonNegative(bars: seq<Bar>, period: int)
    requires period >= 1
    ensures AtrValue(bars, period) >= 0.0
  {
    var trs := TrueRanges(bars);
    TrueRangesAt(bars);
    if |trs| > 0 {
      AlphaInUnitInterval(period);
      forall i | 0 <= i < |trs| ensures 0.0 <= trs[i] {
        TrueRangeBounds(bars[i].close, bars[i + 1]);
      }
      EmaAtLeast(trs, Alpha(period), 0.0);
    }
  }

  class ATR {
    const period: int
    const ema: EMA
    var prevBar: Option<Bar>
    var ready: bool
    var warmup: int
    ghost var history: seq<Bar>

    ghost predicate Valid()
      reads this, ema
    {
      && ema.Valid()
      && ema.period == period
      && ema.history == TrueRanges(history)
      && prevBar == LastBar(history)
      && warmup == (if |history| == 0 then 0 else |history| - 1)
      && ready == AtrReady(history, period)
    }

    constructor (period: int)
      requires period != -1
      ensures Valid()
      ensures this.period == period && history == []
    {
      this.period := period;
      ema := new EMA(period);
      prevBar := None;
      ready := false;
      warmup := 0;
      history := [];
    }

    method Update(bar: Bar)
      requires Valid()
      modifies this, ema
      ensures Valid()
      ensures history == old(history) + [bar]
      ensures old(prevBar).None? ==> ema.history == old(ema.history) && warmup == 0 && !ready
      ensures old(prevBar).Some? ==> warmup == old(warmup) + 1
      ensures old(ready) ==> ready
    {
      if prevBar.None? {
        prevBar := Some(bar);
        history := history + [bar];
        return;
      }
      Advance(bar);
    }

    /** Update once a previous bar exists: feed the true range to the EMA. */
    method Advance(bar: Bar)
      requires Valid() && prevBar.Some?
      modifies this, ema
      ensures Valid()
      ensures history == old(history) + [bar]
    {
      var tr := TrueRange(prevBar.value.close, bar);
      ghost var h := history + [bar];
      TrueRangesSnoc(history, bar);
      ema.Update(tr);
      prevBar := Some(bar);
      warmup := warmup + 1;
      if warmup >= period {
        ready := true;
      }
      history := h;
    }

    function Value(): (v: real)
      reads this, ema
      requires Valid()
      ensures v == AtrValue(history, period)
    {
      ema.Value()
    }

    function Ready(): (r: bool)
      reads this, ema
      requires Valid()
      ensures r <==> AtrReady(history, period)
      ensures r ==> |history| >= 2
    {
      ready
    }
  }

  // ---------------------------------------------------------------------------
  // ATR candle: counts consecutive candles whose body exceeds the ATR band

  datatype CandleConfig = CandleConfig(atrPeriod: int, atrMultiplier: real,
                                       withRelativeSize: bool, relativeSize: real)

  /** A candle body larger than atrValue*multiplier, strictly; in relative-size mode
      and with a previous bar, also strictly larger than relativeSize times the
      previous body. */
  predicate Violates(bar: Bar, atrValue: real, prev: Option<Bar>, c: CandleConfig)
    ensures Violates(bar, atrValue, prev, c) <==>
              && Abs(bar.close - bar.open) > atrValue * c.atrMultiplier
              && (c.withRelativeSize && prev.Some? ==>
                    Abs(bar.close - bar.open) > Abs(prev.value.close - prev.value.open) * c.relativeSize)
  {
    var body := Abs(bar.close - bar.open);
    var beyondAtr := body > atrValue * c.atrMultiplier;
    if prev.None? || !c.withRelativeSize then beyondAtr
    else beyondAtr && body > Abs(prev.value.close - prev.value.open) * c.relativeSize
  }

  /** Whether the last bar of `bars` is a violation, judged against the ATR of all of them. */
  predicate IsViolation(bars: seq<Bar>, c: CandleConfig)
    requires |bars| >= 1 && c.atrPeriod != -1
  {
    Violates(bars[|bars| - 1], AtrValue(bars, c.atrPeriod), LastBar(bars[..|bars| - 1]), c)
  }

  /** The violation counter after `bars`: bumped by a violating bar once the ATR is
      ready, reset by a non-violating ready bar, untouched while the ATR warms up. */
  function ViolationCount(bars: seq<Bar>, c: CandleConfig): (n: int)
    requires c.atrPeriod != -1
    ensures n >= 0
    ensures n > 0 ==> exists k :: 1 <= k <= |bars| && AtrReady(bars[..k], c.atrPeriod) && IsViolation(bars[..k], c)
  {
    if |bars| == 0 then 0
    else
      var prev := ViolationCount(bars[..|bars| - 1], c);
      if AtrReady(bars, c.atrPeriod) then
        (if IsViolation(bars, c) then
           assert bars[..|bars|] == bars;
           prev + 1
         else 0)
      else
        assert forall k :: 1 <= k <= |bars| - 1 ==> bars[..|bars| - 1][..k] == bars[..k];
        prev
  }

  /** One more bar: the counter as the source's update leaves it. */
  lemma ViolationCountSnoc(bars: seq<Bar>, bar: Bar, c: CandleConfig)
    requires c.atrPeriod != -1
    ensures var h := bars + [bar];
            && h[..|h| - 1] == bars
            && ViolationCount(h, c) ==
                 if !AtrReady(h, c.atrPeriod) then ViolationCount(bars, c)
                 else if IsViolation(h, c) then ViolationCount(bars, c) + 1
                 else 0
  {
    var h := bars + [bar];
    assert h[..|h| - 1] == bars;
  }

  /** Once the ATR is ready, the counter is positive exactly when the latest bar violated. */
  lemma CounterTracksLastBar(bars: seq<Bar>, c: CandleConfig)
    requires c.atrPeriod != -1 && AtrReady(bars, c.atrPeriod)
    ensures ViolationCount(bars, c) > 0 <==> IsViolation(bars, c)
  {
  }

  class ATRCandle {
    const atrPeriod: int
    const atrMultiplier: real
    const withRelativeSize: bool
    const relativeSize: real
    const atr: ATR
    var prevBar: Option<Bar>
    var violationCount: int
    ghost var history: seq<Bar>

    function Config(): CandleConfig
    {
      CandleConfig(atrPeriod, atrMultiplier, withRelativeSize, relativeSize)
    }

    ghost predicate Valid()
      reads this, atr, atr.ema
    {
      && atr.Valid()
      && atr.period == atrPeriod
      && atr.history == history
      && prevBar == LastBar(history)
      && violationCount == ViolationCount(history, Config())
    }

    constructor (atrPeriod: int, atrMultiplier: real, relativeSize: real, withRelativeSize: bool)
      requires atrPeriod != -1
      ensures Valid()
      ensures Config() == CandleConfig(atrPeriod, atrMultiplier, withRelativeSize, relativeSize)
      ensures history == []
    {
      this.atrPeriod := atrPeriod;
      this.atrMultiplier := atrMultiplier;
      this.withRelativeSize := withRelativeSize;
      this.relativeSize := relativeSize;
      atr := new ATR(atrPeriod);
      prevBar := None;
      violationCount := 0;
      history := [];
    }

    method Update(bar: Bar)
      requires Valid()
      modifies this, atr, atr.ema
      ensures Valid()
      ensures history == old(history) + [bar]
      ensures prevBar == Some(bar)
      ensures !atr.ready ==> violationCount == old(violationCount)
      ensures atr.ready ==>
                violationCount == if IsViolation(history, Config()) then old(violationCount) + 1 else 0
    {
      atr.Update(bar);
      ghost var h := history + [bar];
      ViolationCountSnoc(history, bar, Config());
      if atr.Ready() {
        // ATR readiness takes two bars, so a previous bar is always recorded here
        // and the nil-previous-bar branch of CheckViolation is never taken.
        assert prevBar.Some?;
        var violation := CheckViolation(bar);
        assert violation == IsViolation(h, Config());
        if violation {
          violationCount := violationCount + 1;
        } else {
          violationCount := 0;
        }
      }
      prevBar := Some(bar);
      history := h;
    }

    /** Whether `bar` violates, judged against the current ATR and the previous bar. */
    function CheckViolation(bar: Bar): (v: bool)
      reads this, atr, atr.ema
      requires atr.Valid() && atrPeriod != -1
      ensures v == Violates(bar, AtrValue(atr.history, atr.period), prevBar, Config())
    {
      Violates(bar, atr.Value(), prevBar, Config())
    }

    /** 1 if the counter is positive (the last ready bar violated), else 0. */
    function Value(): (v: real)
      reads this
      ensures v == 0.0 || v == 1.0
      ensures v == 1.0 <==> violationCount > 0
    {
      if violationCount > 0 then 1.0 else 0.0
    }

    function Ready(): (r: bool)
      reads this, atr, atr.ema
      requires Valid()
      ensures r <==> AtrReady(history, atrPeriod)
    {
      atr.Ready() && prevBar.Some?
    }
  }
}
