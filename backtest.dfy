/** The backtest engine: one pass over the bars that settles exits, asks the
    strategy for signals, opens the requested positions, and closes whatever is
    left at the last bar. */
module Backtest {
  import opened Prelude
  import opened Types
  import opened Accounts
  import opened Stats

  /** A strategy decides, at index i of the bar series and given the account as
      it stands after that bar's exits, which signals to emit. */
  type Strategy = (seq<Bar>, int, AccountState) -> seq<Signal>

  // ---------------------------------------------------------------------------
  // Specification of a run

  /** The account after opening, in order, every signal of type OPEN_TRADE:
      the balance is untouched and each such signal takes one identifier and
      adds one position. */
  function OpenSignals(st: AccountState, signals: seq<Signal>, timestamp: int): (r: AccountState)
    ensures r.balance == st.balance
    ensures r.nextId == st.nextId + OpenCount(signals)
    ensures |r.open| == |st.open| + OpenCount(signals)
  {
    if |signals| == 0 then st
    else
      var before := OpenSignals(st, signals[..|signals| - 1], timestamp);
      var s := signals[|signals| - 1];
      if s.signalType == OPEN then OpenStep(before, s, timestamp) else before
  }

  function OpenCount(signals: seq<Signal>): nat
  {
    if |signals| == 0 then 0
    else OpenCount(signals[..|signals| - 1]) + (if signals[|signals| - 1].signalType == OPEN then 1 else 0)
  }

  /** The OPEN_TRADE signals, in the order they were emitted. */
  function OpenOnly(signals: seq<Signal>): (opens: seq<Signal>)
    ensures |opens| == OpenCount(signals)
    ensures forall k :: 0 <= k < |opens| ==> opens[k].signalType == OPEN && opens[k] in signals
  {
    if |signals| == 0 then []
    else
      var last := signals[|signals| - 1];
      OpenOnly(signals[..|signals| - 1]) + (if last.signalType == OPEN then [last] else [])
  }

  /** The account, the trades reported so far, and the closes that moved the
      balance without being reported (a stop-loss superseded by a take-profit
      on the same bar). */
  datatype SimState = SimState(acc: AccountState, trades: seq<Trade>, discarded: seq<Trade>)

  /** One bar: exits first, then the strategy's openings. Whatever the strategy
      asks for, the balance after the bar is the one its exits leave, no
      identifier is reused, and earlier reports stay as they were. */
  function StepBar(bars: seq<Bar>, i: int, strategy: Strategy, s: SimState): (r: SimState)
    requires 0 <= i < |bars|
    ensures r.acc.balance == ExitStep(s.acc, bars[i]).balance
    ensures r.acc.nextId >= s.acc.nextId
  {
    var bar := bars[i];
    var afterExits := ExitStep(s.acc, bar);
    var signals := strategy(bars, i, afterExits);
    SimState(OpenSignals(afterExits, signals, bar.timestamp),
             s.trades + ExitTrades(s.acc.open, bar),
             s.discarded + DiscardedTrades(s.acc.open, bar))
  }

  /** The state after the first n bars. */
  function RunBars(bars: seq<Bar>, n: nat, strategy: Strategy, initialBalance: real): SimState
    requires n <= |bars|
  {
    if n == 0 then SimState(NewAccountState(initialBalance), [], [])
    else StepBar(bars, n - 1, strategy, RunBars(bars, n - 1, strategy, initialBalance))
  }

  /** The whole run: every bar, then everything still open closed at the last bar. */
  function Simulate(bars: seq<Bar>, strategy: Strategy, initialBalance: real): (r: SimState)
    ensures |bars| > 0 ==> r.acc.open == []
    ensures |bars| == 0 ==> r.acc.balance == initialBalance && r.trades == []
  {
    var s := RunBars(bars, |bars|, strategy, initialBalance);
    if |bars| == 0 then s
    else
      var last := bars[|bars| - 1];
      SimState(CloseAllStep(s.acc, last), s.trades + CloseAllTrades(s.acc.open, last), s.discarded)
  }

  /** The identifiers handed out so far are exactly those open plus those reported. */
  ghost predicate IdsAccounted(s: SimState)
  {
    multiset(Ids(s.acc.open)) + multiset(TradeIds(s.trades)) == multiset(Range(1, s.acc.nextId))
  }

  /** The identifier invariant of a run's state. */
  ghost predicate Accounted(s: SimState)
  {
    WellFormed(s.acc) && IdsAccounted(s)
  }

  /** The balance of a run's state is the initial one plus every close made,
      reported or superseded. */
  ghost predicate Balanced(s: SimState, initialBalance: real)
  {
    s.acc.balance == initialBalance + SumPnL(s.trades) + SumPnL(s.discarded)
  }

  // ---------------------------------------------------------------------------
  // Lemmas about opening signals

  /** Only OPEN_TRADE signals open positions: the balance is untouched, one
      position and one identifier per OPEN_TRADE signal, appended in order,
      the k-th new position built from the k-th OPEN_TRADE signal with the
      k-th new identifier. */
  lemma {:induction false} OpenSignalsEffect(st: AccountState, signals: seq<Signal>, timestamp: int)
    ensures var r := OpenSignals(st, signals, timestamp);
            && r.balance == st.balance
            && r.nextId == st.nextId + OpenCount(signals)
            && |r.open| == |st.open| + OpenCount(signals)
            && r.open[..|st.open|] == st.open
            && Ids(r.open) == Ids(st.open) + Range(st.nextId, r.nextId)
            && (forall k :: |st.open| <= k < |r.open| ==> r.open[k].openTime == timestamp)
            && (forall k :: 0 <= k < OpenCount(signals) ==>
                  r.open[|st.open| + k] == PositionFromSignal(st.nextId + k, OpenOnly(signals)[k], timestamp))
  {
    if |signals| > 0 {
      var init := signals[..|signals| - 1];
      OpenSignalsEffect(st, init, timestamp);
      var before := OpenSignals(st, init, timestamp);
      if signals[|signals| - 1].signalType == OPEN {
        var r := OpenStep(before, signals[|signals| - 1], timestamp);
        assert r.open[..|st.open|] == before.open[..|st.open|];
        assert Ids(r.open) == Ids(before.open) + [before.nextId];
        assert Range(st.nextId, r.nextId) == Range(st.nextId, before.nextId) + [before.nextId];
        assert OpenOnly(signals) == OpenOnly(init) + [signals[|signals| - 1]];
      } else {
        assert OpenOnly(signals) == OpenOnly(init);
      }
    } else {
      assert st.open[..|st.open|] == st.open;
      assert Ids(st.open) + Range(st.nextId, st.nextId) == Ids(st.open);
    }
  }

  lemma {:induction false} OpenSignalsWellFormed(st: AccountState, signals: seq<Signal>, timestamp: int)
    requires WellFormed(st)
    ensures WellFormed(OpenSignals(st, signals, timestamp))
  {
    if |signals| > 0 {
      OpenSignalsWellFormed(st, signals[..|signals| - 1], timestamp);
      if signals[|signals| - 1].signalType == OPEN {
        OpenStepWellFormed(OpenSignals(st, signals[..|signals| - 1], timestamp), signals[|signals| - 1], timestamp);
      }
    }
  }

  // ---------------------------------------------------------------------------
  // Lemmas about a run

  lemma RangeSplit(lo: int, mid: int, hi: int)
    requires lo <= mid <= hi
    ensures Range(lo, hi) == Range(lo, mid) + Range(mid, hi)
  {
  }

  /** Exits keep the identifier partition: a position leaves the open list
      exactly when its trade joins the reported list. */
  lemma StepKeepsIds(bars: seq<Bar>, i: int, strategy: Strategy, s: SimState, t: SimState)
    requires 0 <= i < |bars| && WellFormed(s.acc) && IdsAccounted(s)
    requires t == StepBar(bars, i, strategy, s)
    ensures WellFormed(t.acc) && IdsAccounted(t)
  {
    var bar := bars[i];
    var afterExits := ExitStep(s.acc, bar);
    ExitStepWellFormed(s.acc, bar);
    ExitIds(s.acc.open, bar);
    var signals := strategy(bars, i, afterExits);
    var r := OpenSignals(afterExits, signals, bar.timestamp);
    OpenSignalsWellFormed(afterExits, signals, bar.timestamp);
    OpenSignalsEffect(afterExits, signals, bar.timestamp);
    var exits := ExitTrades(s.acc.open, bar);
    TradeIdsAppend(s.trades, exits);
    var before := multiset(Ids(afterExits.open)) + multiset(TradeIds(s.trades + exits));
    assert before == multiset(Range(1, s.acc.nextId));
    RangeSplit(1, s.acc.nextId, r.nextId);
    assert multiset(Ids(r.open)) == multiset(Ids(afterExits.open)) + multiset(Range(s.acc.nextId, r.nextId));
    assert StepBar(bars, i, strategy, s) == SimState(r, s.trades + exits, s.discarded + DiscardedTrades(s.acc.open, bar));
  }

  /** One bar moves the balance by every close it made, reported or superseded. */
  lemma StepBalance(bars: seq<Bar>, i: int, strategy: Strategy, s: SimState, r: SimState)
    requires 0 <= i < |bars|
    requires r == StepBar(bars, i, strategy, s)
    ensures r.acc.balance - SumPnL(r.trades) - SumPnL(r.discarded)
            == s.acc.balance - SumPnL(s.trades) - SumPnL(s.discarded)
  {
    var bar := bars[i];
    var afterExits := ExitStep(s.acc, bar);
    OpenSignalsEffect(afterExits, strategy(bars, i, afterExits), bar.timestamp);
    ExitBalance(s.acc.open, bar);
    SumPnLAppend(s.trades, ExitTrades(s.acc.open, bar));
    SumPnLAppend(s.discarded, DiscardedTrades(s.acc.open, bar));
  }

  /** Within a bar, exits are settled before the strategy runs and positions
      open: every trade reported at bar i belongs to a position opened before
      bar i, and every position opened at bar i carries that bar's timestamp
      and an identifier no earlier position had, so it is first checked for
      exits on bar i+1. */
  lemma ExitsBeforeOpens(bars: seq<Bar>, i: int, strategy: Strategy, s: SimState)
    requires 0 <= i < |bars| && WellFormed(s.acc)
    ensures var r := StepBar(bars, i, strategy, s);
            var kept := |Remaining(s.acc.open, bars[i])|;
            && r.trades == s.trades + ExitTrades(s.acc.open, bars[i])
            && (forall t :: t in ExitTrades(s.acc.open, bars[i]) ==> t.id < s.acc.nextId)
            && kept <= |r.acc.open| && r.acc.open[..kept] == Remaining(s.acc.open, bars[i])
            && (forall k :: kept <= k < |r.acc.open| ==>
                  r.acc.open[k].openTime == bars[i].timestamp && r.acc.open[k].id >= s.acc.nextId)
  {
    var bar := bars[i];
    var afterExits := ExitStep(s.acc, bar);
    var r := StepBar(bars, i, strategy, s);
    ExitTradesExact(s.acc.open, bar);
    forall t | t in ExitTrades(s.acc.open, bar)
      ensures t.id < s.acc.nextId
    {
      var p :| p in s.acc.open && Triggered(p, bar) && t == ReportedTrade(p, bar);
      var j :| 0 <= j < |s.acc.open| && s.acc.open[j] == p;
    }
    OpenSignalsEffect(afterExits, strategy(bars, i, afterExits), bar.timestamp);
    var kept := |afterExits.open|;
    forall k | kept <= k < |r.acc.open|
      ensures r.acc.open[k].id >= s.acc.nextId
    {
      assert r.acc.open[k].id == Ids(r.acc.open)[k];
    }
  }

  /** Before the first bar no identifier has been handed out. */
  lemma StartIds(initialBalance: real)
    ensures WellFormed(NewAccountState(initialBalance))
    ensures IdsAccounted(SimState(NewAccountState(initialBalance), [], []))
  {
    NewAccountWellFormed(initialBalance);
    assert Range(1, 1) == [];
  }

  /** After any number of bars the account is well formed and every identifier
      handed out is either open or reported. */
  lemma {:induction false} RunBarsIds(bars: seq<Bar>, n: nat, strategy: Strategy, initialBalance: real)
    requires n <= |bars|
    ensures Accounted(RunBars(bars, n, strategy, initialBalance))
  {
    if n == 0 {
      StartIds(initialBalance);
    } else {
      RunBarsIds(bars, n - 1, strategy, initialBalance);
      RunStepKeepsIds(bars, n, strategy, initialBalance,
                      RunBars(bars, n - 1, strategy, initialBalance), RunBars(bars, n, strategy, initialBalance));
    }
  }

  /** StepKeepsIds, stated for the states after n - 1 and n bars. */
  lemma RunStepKeepsIds(bars: seq<Bar>, n: nat, strategy: Strategy, initialBalance: real, prev: SimState, cur: SimState)
    requires 0 < n <= |bars|
    requires prev == RunBars(bars, n - 1, strategy, initialBalance)
    requires cur == RunBars(bars, n, strategy, initialBalance)
    requires Accounted(prev)
    ensures Accounted(cur)
  {
    assert cur == StepBar(bars, n - 1, strategy, prev);
    StepKeepsIds(bars, n - 1, strategy, prev, cur);
  }

  /** After any number of bars the balance is the initial one plus every close,
      reported or superseded. */
  lemma {:induction false} RunBarsBalance(bars: seq<Bar>, n: nat, strategy: Strategy, initialBalance: real)
    requires n <= |bars|
    ensures Balanced(RunBars(bars, n, strategy, initialBalance), initialBalance)
  {
    if n > 0 {
      RunBarsBalance(bars, n - 1, strategy, initialBalance);
      RunStepBalance(bars, n, strategy, initialBalance,
                     RunBars(bars, n - 1, strategy, initialBalance), RunBars(bars, n, strategy, initialBalance));
    }
  }

  /** StepBalance, stated for the states after n - 1 and n bars. */
  lemma RunStepBalance(bars: seq<Bar>, n: nat, strategy: Strategy, initialBalance: real, prev: SimState, cur: SimState)
    requires 0 < n <= |bars|
    requires prev == RunBars(bars, n - 1, strategy, initialBalance)
    requires cur == RunBars(bars, n, strategy, initialBalance)
    requires Balanced(prev, initialBalance)
    ensures Balanced(cur, initialBalance)
  {
    assert cur == StepBar(bars, n - 1, strategy, prev);
    StepBalance(bars, n - 1, strategy, prev, cur);
  }

  /** An empty bar series is a valid run: no trades, the balance unchanged. */
  lemma EmptyRun(strategy: Strategy, initialBalance: real)
    ensures Simulate([], strategy, initialBalance) == SimState(NewAccountState(initialBalance), [], [])
  {
  }

  lemma TradeIdsAppend(a: seq<Trade>, b: seq<Trade>)
    ensures TradeIds(a + b) == TradeIds(a) + TradeIds(b)
  {
  }

  lemma CloseAllIds(open: seq<Position>, lastBar: Bar)
    ensures TradeIds(CloseAllTrades(open, lastBar)) == Ids(open)
  {
  }

  /** At the end of a non-empty run nothing is open and every identifier handed
      out belongs to exactly one reported trade. */
  lemma SimulateIds(bars: seq<Bar>, strategy: Strategy, initialBalance: real)
    requires |bars| > 0
    ensures var s := Simulate(bars, strategy, initialBalance);
            && s.acc.open == [] && s.acc.nextId >= 1
            && multiset(TradeIds(s.trades)) == multiset(Range(1, s.acc.nextId))
  {
    var r := RunBars(bars, |bars|, strategy, initialBalance);
    var last := bars[|bars| - 1];
    RunBarsIds(bars, |bars|, strategy, initialBalance);
    var closing := CloseAllTrades(r.acc.open, last);
    CloseAllIds(r.acc.open, last);
    TradeIdsAppend(r.trades, closing);
    assert IdsAccounted(r);
    assert multiset(TradeIds(r.trades + closing)) == multiset(TradeIds(r.trades)) + multiset(Ids(r.acc.open));
  }

  /** The final balance of a non-empty run is the initial one plus every close;
      when no bar hit a stop and a target together, that is the sum of the
      reported trades. */
  lemma SimulateBalance(bars: seq<Bar>, strategy: Strategy, initialBalance: real)
    requires |bars| > 0
    ensures var s := Simulate(bars, strategy, initialBalance);
            && s.acc.balance == initialBalance + SumPnL(s.trades) + SumPnL(s.discarded)
            && (s.discarded == [] ==> s.acc.balance == initialBalance + SumPnL(s.trades))
  {
    var r := RunBars(bars, |bars|, strategy, initialBalance);
    RunBarsBalance(bars, |bars|, strategy, initialBalance);
    SumPnLAppend(r.trades, CloseAllTrades(r.acc.open, bars[|bars| - 1]));
  }

  // ---------------------------------------------------------------------------
  // Statistics of a run

  /** The statistics of a run measured against the balance the run started
      with, which is what the reported initial balance is meant to be. */
  function RunStats(bars: seq<Bar>, strategy: Strategy, initialBalance: real): Statistics
  {
    var s := Simulate(bars, strategy, initialBalance);
    StatsOf(initialBalance, s.acc.balance, s.trades)
  }

  /** Measured from the true initial balance, the total PnL is the PnL of the
      reported trades whenever no close was superseded. */
  lemma RunStatsTotalPnL(bars: seq<Bar>, strategy: Strategy, initialBalance: real)
    requires Simulate(bars, strategy, initialBalance).discarded == []
    ensures RunStats(bars, strategy, initialBalance).totalPnL == SumPnL(Simulate(bars, strategy, initialBalance).trades)
  {
    if |bars| > 0 {
      SimulateBalance(bars, strategy, initialBalance);
    }
  }

  // ---------------------------------------------------------------------------
  // The engine test: a long closed by its target, a short closed at the end

  /** The engine test's first bar, 2024-01-01T00:00:00Z, in Unix nanoseconds,
      and its bar spacing of fifteen minutes in nanoseconds. */
  const TestStart: int := 1_704_067_200_000_000_000
  const QuarterHour: int := 900_000_000_000

  function TestBars(): seq<Bar>
  {
    [Bar(TestStart, 100.0, 100.0, 100.0, 100.0, 1000.0),
     Bar(TestStart + QuarterHour, 100.0, 105.0, 105.0, 105.0, 1200.0),
     Bar(TestStart + 2 * QuarterHour, 99.5, 110.0, 110.0, 110.0, 1100.0),
     Bar(TestStart + 3 * QuarterHour, 101.0, 120.0, 120.0, 120.0, 1300.0)]
  }

  /** Buys on the first bar with a target 5 above, sells on the second with a
      stop 100 above; neither far level is ever reached. */
  function TestStrategy(bars: seq<Bar>, i: int, acc: AccountState): seq<Signal>
  {
    if i == 0 && |bars| > 0 then
      [Signal(OPEN, BUY, bars[0].close, bars[0].close + 5.0, bars[0].close - 50.0, 1.0)]
    else if i == 1 && |bars| > 1 then
      [Signal(OPEN, SELL, bars[1].close, bars[1].close - 50.0, bars[1].close + 100.0, 1.0)]
    else []
  }

  lemma SingleExit(p: Position, bar: Bar)
    ensures ExitTrades([p], bar) == (if Triggered(p, bar) then [ReportedTrade(p, bar)] else [])
    ensures Remaining([p], bar) == (if Triggered(p, bar) then [] else [p])
    ensures AllClosures([p], bar) == Closures(p, bar)
    ensures DiscardedTrades([p], bar) == DiscardedOf(p, bar)
  {
    assert [p][..0] == [];
  }

  /** A bar that reaches no open position's levels and on which the strategy
      asks for nothing leaves the run's state unchanged. */
  lemma QuietBar(bars: seq<Bar>, i: int, strategy: Strategy, s: SimState)
    requires 0 <= i < |bars|
    requires forall k :: 0 <= k < |s.acc.open| ==> !Triggered(s.acc.open[k], bars[i])
    requires strategy(bars, i, s.acc) == []
    ensures StepBar(bars, i, strategy, s) == s
  {
    QuietExits(s.acc.open, bars[i]);
    assert ExitStep(s.acc, bars[i]) == s.acc;
  }

  /** The first bar opens the test strategy's long with ID 1. */
  lemma TestRunOpeningBar(initialBalance: real)
    ensures RunBars(TestBars(), 1, TestStrategy, initialBalance) ==
              SimState(AccountState(initialBalance, [Position(1, TestStart, Long, 100.0, 1.0, 50.0, 105.0)], 2), [], [])
  {
    var bars := TestBars();
    var s0 := RunBars(bars, 0, TestStrategy, initialBalance);
    assert ExitStep(s0.acc, bars[0]) == s0.acc;
    var sigA := Signal(OPEN, BUY, 100.0, 105.0, 50.0, 1.0);
    assert TestStrategy(bars, 0, s0.acc) == [sigA];
    assert OpenSignals(s0.acc, [sigA], TestStart) == OpenStep(s0.acc, sigA, TestStart) by { assert [sigA][..0] == []; }
  }

  /** The second bar reaches the long's target, and only that: +5, one reported trade. */
  lemma TestSecondBarExits(initialBalance: real)
    ensures var pa := Position(1, TestStart, Long, 100.0, 1.0, 50.0, 105.0);
            var bar := TestBars()[1];
            && ExitStep(AccountState(initialBalance, [pa], 2), bar) == AccountState(initialBalance + 5.0, [], 2)
            && ExitTrades([pa], bar) == [CloseTrade(pa, 105.0, TestStart + QuarterHour, TakeProfit)]
            && DiscardedTrades([pa], bar) == []
  {
    var pa := Position(1, TestStart, Long, 100.0, 1.0, 50.0, 105.0);
    var bar := TestBars()[1];
    SingleExit(pa, bar);
    var ta := CloseTrade(pa, 105.0, TestStart + QuarterHour, TakeProfit);
    assert Closures(pa, bar) == [ta];
    assert SumPnL([ta]) == 5.0 by { assert [ta][..0] == []; }
  }

  /** The second bar reaches the long's target (+5) and opens the short with ID 2. */
  lemma TestRunFirstBars(initialBalance: real)
    ensures var s := RunBars(TestBars(), 2, TestStrategy, initialBalance);
            && s.acc == AccountState(initialBalance + 5.0, [Position(2, TestStart + QuarterHour, Short, 105.0, 1.0, 205.0, 55.0)], 3)
            && s.trades == [CloseTrade(Position(1, TestStart, Long, 100.0, 1.0, 50.0, 105.0), 105.0, TestStart + QuarterHour, TakeProfit)]
            && s.discarded == []
  {
    var bars := TestBars();
    TestRunOpeningBar(initialBalance);
    TestSecondBarExits(initialBalance);
    var afterExits := AccountState(initialBalance + 5.0, [], 2);
    var sigB := Signal(OPEN, SELL, 105.0, 55.0, 205.0, 1.0);
    assert TestStrategy(bars, 1, afterExits) == [sigB];
    assert OpenSignals(afterExits, [sigB], TestStart + QuarterHour) == OpenStep(afterExits, sigB, TestStart + QuarterHour) by { assert [sigB][..0] == []; }
  }

  lemma TestRunLastBars(initialBalance: real)
    ensures var s := RunBars(TestBars(), 4, TestStrategy, initialBalance);
            && s.acc == AccountState(initialBalance + 5.0, [Position(2, TestStart + QuarterHour, Short, 105.0, 1.0, 205.0, 55.0)], 3)
            && s.trades == [CloseTrade(Position(1, TestStart, Long, 100.0, 1.0, 50.0, 105.0), 105.0, TestStart + QuarterHour, TakeProfit)]
            && s.discarded == []
  {
    var bars := TestBars();
    var pb := Position(2, TestStart + QuarterHour, Short, 105.0, 1.0, 205.0, 55.0);
    TestRunFirstBars(initialBalance);
    var s2 := RunBars(bars, 2, TestStrategy, initialBalance);
    assert !Triggered(pb, bars[2]) && !Triggered(pb, bars[3]);
    QuietBar(bars, 2, TestStrategy, s2);
    assert RunBars(bars, 3, TestStrategy, initialBalance) == s2;
    QuietBar(bars, 3, TestStrategy, s2);
  }

  /** The engine test: the long gains 5 at its target on the second bar, the
      short loses 15 when closed at the last bar's close, and nothing else happens. */
  lemma EngineScenario(initialBalance: real)
    ensures var s := Simulate(TestBars(), TestStrategy, initialBalance);
            && |s.trades| == 2 && s.discarded == [] && s.acc.open == []
            && s.trades[0].entryPrice == 100.0 && s.trades[0].exitPrice == 105.0 && s.trades[0].pnl == 5.0
            && s.trades[1].entryPrice == 105.0 && s.trades[1].exitPrice == 120.0 && s.trades[1].pnl == -15.0
            && s.acc.balance == initialBalance - 10.0
  {
    TestRunLastBars(initialBalance);
    var bars := TestBars();
    var pb := Position(2, TestStart + QuarterHour, Short, 105.0, 1.0, 205.0, 55.0);
    var tb := CloseTrade(pb, 120.0, TestStart + 3 * QuarterHour, EndOfBacktest);
    assert CloseAllTrades([pb], bars[3]) == [tb];
    assert SumPnL([tb]) == -15.0 by { assert [tb][..0] == []; }
  }

  /** The reported initial balance is fixed at 10000: a run of the engine test
      started from 5000 loses 10 in its trades but reports a loss of 5010. */
  lemma HardCodedInitialBalanceMisreports()
    ensures var s := Simulate(TestBars(), TestStrategy, 5000.0);
            && SumPnL(s.trades) == -10.0
            && StatsOf(10000.0, s.acc.balance, s.trades).totalPnL == -5010.0
            && RunStats(TestBars(), TestStrategy, 5000.0).totalPnL == -10.0
  {
    EngineScenario(5000.0);
    RunStatsTotalPnL(TestBars(), TestStrategy, 5000.0);
  }

  // ---------------------------------------------------------------------------
  // The engine object

  /** Opens, in order, every OPEN_TRADE signal at the bar's timestamp and
      ignores the others. */
  method OpenRequested(acc: Account, signals: seq<Signal>, timestamp: int)
    requires acc.Valid()
    modifies acc
    ensures acc.Valid() && acc.State() == OpenSignals(old(acc.State()), signals, timestamp)
  {
    for j := 0 to |signals|
      invariant acc.Valid() && acc.State() == OpenSignals(old(acc.State()), signals[..j], timestamp)
    {
      assert signals[..j + 1][..j] == signals[..j];
      if signals[j].signalType == OPEN {
        var pos := acc.OpenTrade(signals[j], timestamp);
      }
    }
    assert signals[..|signals|] == signals;
  }

  /** One iteration of the engine's loop: settle the bar's exits, ask the
      strategy, open what it requests. Returns the trades the exits reported. */
  method ProcessBar(acc: Account, bars: seq<Bar>, i: int, strategy: Strategy, ghost s: SimState)
    returns (closedTrades: seq<Trade>)
    requires 0 <= i < |bars| && acc.Valid() && s.acc == acc.State()
    modifies acc
    ensures acc.Valid()
    ensures StepBar(bars, i, strategy, s).acc == acc.State()
    ensures StepBar(bars, i, strategy, s).trades == s.trades + closedTrades
  {
    var bar := bars[i];
    closedTrades := acc.CheckExits(bar);
    var signals := strategy(bars, i, acc.State());
    OpenRequested(acc, signals, bar.timestamp);
  }

  /** The engine's loop over every bar, appending the reported trades to the results. */
  method RunAllBars(acc: Account, results: Results, bars: seq<Bar>, strategy: Strategy, ghost initialBalance: real)
    requires acc.Valid() && acc.State() == NewAccountState(initialBalance) && results.trades == []
    modifies acc, results`trades
    ensures acc.Valid()
    ensures var s := RunBars(bars, |bars|, strategy, initialBalance);
            acc.State() == s.acc && results.trades == s.trades
  {
    ghost var st := RunBars(bars, 0, strategy, initialBalance);
    for i := 0 to |bars|
      invariant acc.Valid()
      invariant st == RunBars(bars, i, strategy, initialBalance)
      invariant st.acc == acc.State() && st.trades == results.trades
    {
      var closedTrades := ProcessBar(acc, bars, i, strategy, st);
      results.trades := results.trades + closedTrades;
      st := StepBar(bars, i, strategy, st);
    }
  }

  class Engine {
    const bars: seq<Bar>
    const initialBalance: real

    constructor (bars: seq<Bar>, initialBalance: real)
      ensures this.bars == bars && this.initialBalance == initialBalance
    {
      this.bars := bars;
      this.initialBalance := initialBalance;
    }

    /** Runs the strategy over the bars. The results report an initial balance
        of 10000 whatever the engine was built with. */
    method Run(strategy: Strategy) returns (results: Results)
      ensures fresh(results)
      ensures results.initialBalance == 10000.0
      ensures results.trades == Simulate(bars, strategy, initialBalance).trades
      ensures results.finalBalance == Simulate(bars, strategy, initialBalance).acc.balance
      ensures results.stats == None
    {
      var acc := new Account(initialBalance);
      results := new Results(10000.0, 0.0, []);
      RunAllBars(acc, results, bars, strategy, initialBalance);

      if |bars| > 0 {
        var lastBar := bars[|bars| - 1];
        var remainingTrades := acc.CloseAll(lastBar);
        results.trades := results.trades + remainingTrades;
      }
      results.finalBalance := acc.balance;
    }
  }
}
