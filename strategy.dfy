/** Helpers shared by strategies: readiness of a group of indicators, pip
    arithmetic, risk-based position sizing and the construction of long and
    short entry signals. None of them changes the account: the functions that
    take one only read its balance. */
module Strategy {
  import opened Types
  import opened Accounts
  import opened Indicators

  /** The one instrument whose pip size is known. */
  const NAS100: string := "NAS100_USD"

  /** What a strategy exposes through its getters (the fields of its Base). */
  datatype StrategyConfig = StrategyConfig(symbol: string, period: string, riskPercentage: real,
                                           riskRatio: real, balanceToRisk: real, stopLossPips: int)

  function Abs(x: real): (r: real)
    ensures r >= 0.0
    ensures x >= 0.0 ==> r == x
    ensures x < 0.0 ==> r == -x
  {
    if x < 0.0 then -x else x
  }

  // ---------------------------------------------------------------------------
  // Indicator readiness

  /** Any of the streaming indicators a strategy may hold. */
  datatype Indicator = EmaIndicator(ema: EMA) | SmaIndicator(sma: SMA)
                     | AtrIndicator(atr: ATR) | CandleIndicator(candle: ATRCandle)
  {
    function Footprint(): set<object>
    {
      match this
      case EmaIndicator(e) => {e}
      case SmaIndicator(s) => {s}
      case AtrIndicator(a) => {a, a.ema}
      case CandleIndicator(c) => {c, c.atr, c.atr.ema}
    }

    ghost predicate Valid()
      reads Footprint()
    {
      match this
      case EmaIndicator(e) => e.Valid()
      case SmaIndicator(s) => s.Valid()
      case AtrIndicator(a) => a.Valid()
      case CandleIndicator(c) => c.Valid()
    }

    predicate Ready()
      reads Footprint()
      requires Valid()
    {
      match this
      case EmaIndicator(e) => e.Ready()
      case SmaIndicator(s) => s.Ready()
      case AtrIndicator(a) => a.Ready()
      case CandleIndicator(c) => c.Ready()
    }
  }

  /** True exactly when every indicator is ready; true for none at all. */
  method IndicatorsReady(indicators: seq<Indicator>) returns (ready: bool)
    requires forall i :: 0 <= i < |indicators| ==> indicators[i].Valid()
    ensures ready <==> forall i :: 0 <= i < |indicators| ==> indicators[i].Valid() && indicators[i].Ready()
  {
    for i := 0 to |indicators|
      invariant forall j :: 0 <= j < i ==> indicators[j].Ready()
    {
      if !indicators[i].Ready() {
        return false;
      }
    }
    return true;
  }

  // ---------------------------------------------------------------------------
  // Pips and position sizing

  /** The pip size of an instrument; any other instrument than NAS100_USD is a
      fatal configuration error in the source. */
  function GetPipsFromInstr(ins: string): (pip: real)
    requires ins == NAS100
    ensures pip == 0.1
  {
    0.1
  }

  /** A pip count as a price distance; dividing by the pip size gives the count back. */
  function PipsToPrice(pips: int, pipSize: real): (d: real)
    ensures pipSize != 0.0 ==> d / pipSize == pips as real
  {
    pips as real * pipSize
  }

  /** The price distance between entry and stop-loss that the configuration asks for. */
  function StopDistance(s: StrategyConfig): (d: real)
    requires s.symbol == NAS100
    ensures d == s.stopLossPips as real / 10.0
  {
    PipsToPrice(s.stopLossPips, GetPipsFromInstr(s.symbol))
  }

  /** The money put at risk per trade: the static balance to risk if set, else
      the account balance, times the risk percentage. */
  function RiskAmount(s: StrategyConfig, balance: real): real
  {
    (if s.balanceToRisk == 0.0 then balance else s.balanceToRisk) * (s.riskPercentage / 100.0)
  }

  /** The size at which hitting the stop costs exactly the risk amount. */
  function CalculatePositionSize(s: StrategyConfig, acc: Account, entryPrice: real, stopLoss: real): (size: real)
    reads acc
    requires entryPrice != stopLoss
    ensures s.balanceToRisk != 0.0 ==>
              size * Abs(entryPrice - stopLoss) == s.balanceToRisk * (s.riskPercentage / 100.0)
    ensures s.balanceToRisk == 0.0 ==>
              size * Abs(entryPrice - stopLoss) == acc.balance * (s.riskPercentage / 100.0)
  {
    var balanceToUse := if s.balanceToRisk == 0.0 then acc.balance else s.balanceToRisk;
    var riskAmount := balanceToUse * (s.riskPercentage / 100.0);
    var stopDistance := Abs(entryPrice - stopLoss);
    riskAmount / stopDistance
  }

  // ---------------------------------------------------------------------------
  // Entry signals

  function OpenLong(s: StrategyConfig, bar: Bar, acc: Account): (sig: Signal)
    reads acc
    requires s.symbol == NAS100 && s.stopLossPips != 0
    ensures sig.signalType == OPEN && sig.action == BUY && sig.price == bar.close
    ensures sig.sl == bar.close - StopDistance(s)
    ensures sig.tp == bar.close + StopDistance(s) * s.riskRatio
    ensures sig.size * Abs(sig.price - sig.sl) == RiskAmount(s, acc.balance)
  {
    var entryPrice := bar.close;
    var stopLoss := entryPrice - PipsToPrice(s.stopLossPips, GetPipsFromInstr(s.symbol));
    var takeProfit := entryPrice + PipsToPrice(s.stopLossPips, GetPipsFromInstr(s.symbol)) * s.riskRatio;
    var size := CalculatePositionSize(s, acc, entryPrice, stopLoss);
    Signal(OPEN, BUY, entryPrice, takeProfit, stopLoss, size)
  }

  function OpenShort(s: StrategyConfig, bar: Bar, acc: Account): (sig: Signal)
    reads acc
    requires s.symbol == NAS100 && s.stopLossPips != 0
    ensures sig.signalType == OPEN && sig.action == SELL && sig.price == bar.close
    ensures sig.sl == bar.close + StopDistance(s)
    ensures sig.tp == bar.close - StopDistance(s) * s.riskRatio
    ensures sig.size * Abs(sig.price - sig.sl) == RiskAmount(s, acc.balance)
  {
    var entryPrice := bar.close;
    var stopLoss := entryPrice + PipsToPrice(s.stopLossPips, GetPipsFromInstr(s.symbol));
    var takeProfit := entryPrice - PipsToPrice(s.stopLossPips, GetPipsFromInstr(s.symbol)) * s.riskRatio;
    var size := CalculatePositionSize(s, acc, entryPrice, stopLoss);
    Signal(OPEN, SELL, entryPrice, takeProfit, stopLoss, size)
  }

  /** A long opened from OpenLong with a positive stop distance loses exactly
      the risk amount when it is stopped out. */
  lemma LongStopLossLosesRiskAmount(s: StrategyConfig, bar: Bar, acc: Account, id: int, timestamp: int)
    requires s.symbol == NAS100 && s.stopLossPips > 0
    ensures var p := PositionFromSignal(id, OpenLong(s, bar, acc), timestamp);
            p.direction == Long && PnL(p, p.stopLoss) == -RiskAmount(s, acc.balance)
  {
    var sig := OpenLong(s, bar, acc);
    var d := StopDistance(s);
    assert d > 0.0;
    assert sig.price - sig.sl == d;
    assert sig.size * d == RiskAmount(s, acc.balance);
    assert (sig.sl - sig.price) * sig.size == -(sig.size * d);
  }

  /** A short opened from OpenShort with a positive stop distance loses exactly
      the risk amount when it is stopped out. */
  lemma ShortStopLossLosesRiskAmount(s: StrategyConfig, bar: Bar, acc: Account, id: int, timestamp: int)
    requires s.symbol == NAS100 && s.stopLossPips > 0
    ensures var p := PositionFromSignal(id, OpenShort(s, bar, acc), timestamp);
            p.direction == Short && PnL(p, p.stopLoss) == -RiskAmount(s, acc.balance)
  {
    var sig := OpenShort(s, bar, acc);
    var d := StopDistance(s);
    assert d > 0.0;
    assert sig.sl - sig.price == d;
    assert sig.size * d == RiskAmount(s, acc.balance);
    assert (sig.price - sig.sl) * sig.size == -(sig.size * d);
  }
}
