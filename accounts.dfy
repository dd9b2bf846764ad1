/** The account: a cash balance, the ordered list of open positions and the
    counter that hands out position IDs. Positions become trades when a bar
    reaches their stop-loss or take-profit level, or when the backtest ends. */
module Accounts {
  import opened Prelude
  import opened Types

  /** Side of a position: "LONG", "SHORT", or the empty direction the account
      leaves when a signal's action is neither BUY nor SELL. */
  datatype Direction = Long | Short | Unset

  /** Why a position was closed: "STOP_LOSS", "TAKE_PROFIT" or "END_OF_BACKTEST". */
  datatype ExitReason = StopLoss | TakeProfit | EndOfBacktest

  datatype Position = Position(id: int, openTime: int, direction: Direction,
                               entryPrice: real, size: real, stopLoss: real, takeProfit: real)

  datatype Trade = Trade(id: int, entryTime: int, exitTime: int, direction: Direction,
                         entryPrice: real, exitPrice: real, size: real, stopLoss: real,
                         takeProfit: real, pnl: real, pnlPercent: real, exitReason: ExitReason)

  /** The whole state of an account as a value. */
  datatype AccountState = AccountState(balance: real, open: seq<Position>, nextId: int)

  // ---------------------------------------------------------------------------
  // Opening and closing a single position

  function DirectionOf(action: string): (d: Direction)
    ensures d == Long <==> action == BUY
    ensures d == Short <==> action == SELL
    ensures d == Unset <==> action != BUY && action != SELL
  {
    if action == BUY then Long else if action == SELL then Short else Unset
  }

  /** The position OpenTrade builds from a signal, given the ID it assigns. */
  function PositionFromSignal(id: int, signal: Signal, timestamp: int): Position
  {
    Position(id, timestamp, DirectionOf(signal.action), signal.price, signal.size, signal.sl, signal.tp)
  }

  /** The sign of a product with a positive factor is the sign of the other factor. */
  lemma SignOfScaled(d: real, size: real)
    ensures size > 0.0 ==> (d * size > 0.0 <==> d > 0.0) && (d * size == 0.0 <==> d == 0.0)
  {
    if size > 0.0 {
      if d > 0.0 {
        assert d * size > 0.0;
      } else if d < 0.0 {
        assert (-d) * size > 0.0;
      }
    }
  }

  /** Realized profit of closing p at exitPrice; every position that is not
      LONG is settled as a short. With a positive size, a long gains exactly
      when the exit is above the entry, any other position exactly when the
      exit is below it, and the PnL is zero exactly at the entry price. */
  function PnL(p: Position, exitPrice: real): (pnl: real)
    ensures p.size > 0.0 ==>
              (pnl > 0.0 <==> (if p.direction == Long then exitPrice > p.entryPrice else exitPrice < p.entryPrice))
    ensures p.size > 0.0 ==> (pnl == 0.0 <==> exitPrice == p.entryPrice)
  {
    var move := if p.direction == Long then exitPrice - p.entryPrice else p.entryPrice - exitPrice;
    SignOfScaled(move, p.size);
    move * p.size
  }

  /** With a positive size, closing further in the position's favour earns more:
      higher prices for a long, lower prices for any other position. */
  lemma PnLOrder(p: Position, x: real, y: real)
    ensures p.size > 0.0 ==>
              (PnL(p, x) <= PnL(p, y) <==> if p.direction == Long then x <= y else x >= y)
  {
    var d := if p.direction == Long then y - x else x - y;
    assert PnL(p, y) - PnL(p, x) == d * p.size;
    SignOfScaled(d, p.size);
  }

  /** PnL as a percentage of the entry price (zero for a zero entry price). */
  function PnLPercent(pnl: real, entryPrice: real): (pct: real)
    ensures entryPrice != 0.0 ==> pct * entryPrice == pnl * 100.0
  {
    if entryPrice == 0.0 then 0.0 else pnl / entryPrice * 100.0
  }

  /** The trade that closing p at exitPrice produces. */
  function CloseTrade(p: Position, exitPrice: real, exitTime: int, reason: ExitReason): Trade
  {
    var pnl := PnL(p, exitPrice);
    Trade(p.id, p.openTime, exitTime, p.direction, p.entryPrice, exitPrice, p.size,
          p.stopLoss, p.takeProfit, pnl, PnLPercent(pnl, p.entryPrice), reason)
  }

  // ---------------------------------------------------------------------------
  // Exit rules for one position against one bar

  /** The bar's worst price for the position: the low for a long, the high otherwise. */
  function AdversePrice(p: Position, bar: Bar): real
  {
    if p.direction == Long then bar.low else bar.high
  }

  /** The bar's best price for the position: the high for a long, the low otherwise. */
  function FavourablePrice(p: Position, bar: Bar): real
  {
    if p.direction == Long then bar.high else bar.low
  }

  /** A long's stop fires when the bar's low reaches it, a short's when the high does:
      with a positive size, exactly when closing at the bar's worst price would
      lose at least as much as closing at the stop. */
  predicate HitsStopLoss(p: Position, bar: Bar)
    ensures p.size > 0.0 ==>
              (HitsStopLoss(p, bar) <==> PnL(p, AdversePrice(p, bar)) <= PnL(p, p.stopLoss))
  {
    PnLOrder(p, AdversePrice(p, bar), p.stopLoss);
    if p.direction == Long then bar.low <= p.stopLoss else bar.high >= p.stopLoss
  }

  /** A long's target fires when the bar's high reaches it, a short's when the low does:
      with a positive size, exactly when closing at the bar's best price would
      earn at least as much as closing at the target. */
  predicate HitsTakeProfit(p: Position, bar: Bar)
    ensures p.size > 0.0 ==>
              (HitsTakeProfit(p, bar) <==> PnL(p, FavourablePrice(p, bar)) >= PnL(p, p.takeProfit))
  {
    PnLOrder(p, p.takeProfit, FavourablePrice(p, bar));
    if p.direction == Long then bar.high >= p.takeProfit else bar.low <= p.takeProfit
  }

  predicate Triggered(p: Position, bar: Bar)
  {
    HitsStopLoss(p, bar) || HitsTakeProfit(p, bar)
  }

  /** Every close CheckExits performs on p for bar, in order: the stop, then the target.
      Both are checked independently, so both can happen. */
  function Closures(p: Position, bar: Bar): seq<Trade>
  {
    (if HitsStopLoss(p, bar) then [CloseTrade(p, p.stopLoss, bar.timestamp, StopLoss)] else [])
    + (if HitsTakeProfit(p, bar) then [CloseTrade(p, p.takeProfit, bar.timestamp, TakeProfit)] else [])
  }

  /** The one trade CheckExits returns for a triggered position: the last close it performed. */
  function ReportedTrade(p: Position, bar: Bar): (t: Trade)
    requires Triggered(p, bar)
    ensures t.id == p.id
    ensures t.exitReason == (if HitsTakeProfit(p, bar) then TakeProfit else StopLoss)
    ensures t.exitPrice == (if HitsTakeProfit(p, bar) then p.takeProfit else p.stopLoss)
  {
    var cs := Closures(p, bar);
    cs[|cs| - 1]
  }

  /** The close whose balance effect lands but whose trade is dropped: the stop-loss
      close of a position whose stop and target both fire on the same bar. */
  function DiscardedOf(p: Position, bar: Bar): seq<Trade>
  {
    if HitsStopLoss(p, bar) && HitsTakeProfit(p, bar)
    then [CloseTrade(p, p.stopLoss, bar.timestamp, StopLoss)] else []
  }

  // ---------------------------------------------------------------------------
  // The same rules folded over the list of open positions, in list order

  function ExitTrades(open: seq<Position>, bar: Bar): seq<Trade>
  {
    if |open| == 0 then []
    else
      var p := open[|open| - 1];
      ExitTrades(open[..|open| - 1], bar) + (if Triggered(p, bar) then [ReportedTrade(p, bar)] else [])
  }

  function Remaining(open: seq<Position>, bar: Bar): seq<Position>
  {
    if |open| == 0 then []
    else
      var p := open[|open| - 1];
      Remaining(open[..|open| - 1], bar) + (if Triggered(p, bar) then [] else [p])
  }

  function AllClosures(open: seq<Position>, bar: Bar): seq<Trade>
  {
    if |open| == 0 then [] else AllClosures(open[..|open| - 1], bar) + Closures(open[|open| - 1], bar)
  }

  function DiscardedTrades(open: seq<Position>, bar: Bar): seq<Trade>
  {
    if |open| == 0 then [] else DiscardedTrades(open[..|open| - 1], bar) + DiscardedOf(open[|open| - 1], bar)
  }

  /** The END_OF_BACKTEST trades CloseAll produces, one per open position, in order. */
  function CloseAllTrades(open: seq<Position>, lastBar: Bar): (ts: seq<Trade>)
    ensures |ts| == |open|
    ensures forall i :: 0 <= i < |open| ==>
              ts[i] == CloseTrade(open[i], lastBar.close, lastBar.timestamp, EndOfBacktest)
  {
    seq(|open|, i requires 0 <= i < |open| => CloseTrade(open[i], lastBar.close, lastBar.timestamp, EndOfBacktest))
  }

  function SumPnL(ts: seq<Trade>): real
  {
    if |ts| == 0 then 0.0 else SumPnL(ts[..|ts| - 1]) + ts[|ts| - 1].pnl
  }

  /** The identifiers of a list of positions, in list order; specification only. */
  function Ids(ps: seq<Position>): (ids: seq<int>)
    ensures |ids| == |ps| && forall i :: 0 <= i < |ps| ==> ids[i] == ps[i].id
  {
    seq(|ps|, i requires 0 <= i < |ps| => ps[i].id)
  }

  /** Ids for reported trades, which carry their position's identifier. */
  function TradeIds(ts: seq<Trade>): (ids: seq<int>)
    ensures |ids| == |ts| && forall i :: 0 <= i < |ts| ==> ids[i] == ts[i].id
  {
    seq(|ts|, i requires 0 <= i < |ts| => ts[i].id)
  }

  /** The integers lo, lo+1, ..., hi-1. */
  function Range(lo: int, hi: int): (r: seq<int>)
    ensures |r| == (if hi > lo then hi - lo else 0)
    ensures forall i :: 0 <= i < |r| ==> r[i] == lo + i
  {
    seq(if hi > lo then hi - lo else 0, i => lo + i)
  }

  ghost predicate StrictlyIncreasing(s: seq<int>)
  {
    forall i, j :: 0 <= i < j < |s| ==> s[i] < s[j]
  }

  // ---------------------------------------------------------------------------
  // The account as a state machine over AccountState values

  /** Open IDs are positive, strictly increasing in list order and below the counter. */
  ghost predicate WellFormed(st: AccountState)
  {
    && st.nextId >= 1
    && (forall i :: 0 <= i < |st.open| ==> 1 <= st.open[i].id < st.nextId)
    && StrictlyIncreasing(Ids(st.open))
  }

  function NewAccountState(initialBalance: real): AccountState
  {
    AccountState(initialBalance, [], 1)
  }

  function OpenStep(st: AccountState, signal: Signal, timestamp: int): AccountState
  {
    st.(open := st.open + [PositionFromSignal(st.nextId, signal, timestamp)], nextId := st.nextId + 1)
  }

  function ExitStep(st: AccountState, bar: Bar): AccountState
  {
    st.(balance := st.balance + SumPnL(AllClosures(st.open, bar)), open := Remaining(st.open, bar))
  }

  function CloseAllStep(st: AccountState, lastBar: Bar): AccountState
  {
    st.(balance := st.balance + SumPnL(CloseAllTrades(st.open, lastBar)), open := [])
  }

  // ---------------------------------------------------------------------------
  // Lemmas about the exit rules

  lemma {:induction false} SumPnLAppend(a: seq<Trade>, b: seq<Trade>)
    ensures SumPnL(a + b) == SumPnL(a) + SumPnL(b)
    decreases |b|
  {
    if |b| > 0 {
      assert (a + b)[..|a + b| - 1] == a + b[..|b| - 1];
      SumPnLAppend(a, b[..|b| - 1]);
    } else {
      assert a + b == a;
    }
  }

  /** When stop and target both fire, the balance moves by both closes' PnL but
      only the TAKE_PROFIT trade is reported. */
  lemma DoubleCloseQuirk(p: Position, bar: Bar)
    requires HitsStopLoss(p, bar) && HitsTakeProfit(p, bar)
    ensures ExitTrades([p], bar) == [CloseTrade(p, p.takeProfit, bar.timestamp, TakeProfit)]
    ensures SumPnL(AllClosures([p], bar)) == PnL(p, p.stopLoss) + PnL(p, p.takeProfit)
    ensures SumPnL(AllClosures([p], bar)) - SumPnL(ExitTrades([p], bar)) == PnL(p, p.stopLoss)
  {
    assert [p][..0] == [];
    var sl := CloseTrade(p, p.stopLoss, bar.timestamp, StopLoss);
    var tp := CloseTrade(p, p.takeProfit, bar.timestamp, TakeProfit);
    assert AllClosures([p], bar) == [sl, tp];
    assert [sl, tp][..1] == [sl];
    assert [sl][..0] == [];
    assert SumPnL([sl]) == sl.pnl;
    assert SumPnL([sl, tp]) == sl.pnl + tp.pnl;
  }

  /** A concrete instance: a long at 100 (stop 90, target 110, size 1) on a bar
      spanning 80..120 reports a +10 trade while the balance does not move. */
  lemma DoubleCloseExample()
    ensures var p := Position(1, 0, Long, 100.0, 1.0, 90.0, 110.0);
            var bar := Bar(1, 100.0, 120.0, 80.0, 100.0, 0.0);
            && SumPnL(ExitTrades([p], bar)) == 10.0
            && SumPnL(AllClosures([p], bar)) == 0.0
  {
    var p := Position(1, 0, Long, 100.0, 1.0, 90.0, 110.0);
    var bar := Bar(1, 100.0, 120.0, 80.0, 100.0, 0.0);
    DoubleCloseQuirk(p, bar);
    var tp := CloseTrade(p, p.takeProfit, bar.timestamp, TakeProfit);
    assert [tp][..0] == [];
  }

  /** Each position's closes are its discarded close followed by its reported trade. */
  lemma ClosuresSplit(p: Position, bar: Bar)
    ensures Closures(p, bar) == DiscardedOf(p, bar) + (if Triggered(p, bar) then [ReportedTrade(p, bar)] else [])
  {
  }

  /** The balance change of CheckExits is the reported trades' PnL plus the PnL of
      the discarded stop-loss closes; without double hits the two agree. */
  lemma {:induction false} ExitBalance(open: seq<Position>, bar: Bar)
    ensures SumPnL(AllClosures(open, bar)) == SumPnL(ExitTrades(open, bar)) + SumPnL(DiscardedTrades(open, bar))
    ensures (forall p :: p in open ==> !(HitsStopLoss(p, bar) && HitsTakeProfit(p, bar)))
              ==> DiscardedTrades(open, bar) == []
  {
    if |open| > 0 {
      var init, p := open[..|open| - 1], open[|open| - 1];
      ExitBalance(init, bar);
      ClosuresSplit(p, bar);
      var rep := if Triggered(p, bar) then [ReportedTrade(p, bar)] else [];
      SumPnLAppend(AllClosures(init, bar), Closures(p, bar));
      SumPnLAppend(DiscardedOf(p, bar), rep);
      SumPnLAppend(ExitTrades(init, bar), rep);
      SumPnLAppend(DiscardedTrades(init, bar), DiscardedOf(p, bar));
      assert forall q :: q in init ==> q in open;
    }
  }

  /** One trade per triggered position: the open count drops by exactly the number of trades. */
  lemma {:induction false} ExitCount(open: seq<Position>, bar: Bar)
    ensures |Remaining(open, bar)| + |ExitTrades(open, bar)| == |open|
  {
    if |open| > 0 {
      ExitCount(open[..|open| - 1], bar);
    }
  }

  /** The positions kept are exactly the untriggered ones. */
  lemma {:induction false} RemainingExact(open: seq<Position>, bar: Bar)
    ensures forall p :: p in Remaining(open, bar) <==> p in open && !Triggered(p, bar)
  {
    if |open| > 0 {
      var init := open[..|open| - 1];
      RemainingExact(init, bar);
      assert open == init + [open[|open| - 1]];
    }
  }

  /** Every reported trade comes from a triggered open position, and every
      triggered open position is reported. */
  lemma {:induction false} ExitTradesExact(open: seq<Position>, bar: Bar)
    ensures forall t :: t in ExitTrades(open, bar) ==>
              exists p :: p in open && Triggered(p, bar) && t == ReportedTrade(p, bar)
    ensures forall p :: p in open && Triggered(p, bar) ==> ReportedTrade(p, bar) in ExitTrades(open, bar)
  {
    if |open| > 0 {
      var init := open[..|open| - 1];
      ExitTradesExact(init, bar);
      assert open == init + [open[|open| - 1]];
    }
  }

  /** The IDs of the open list are split exactly between the kept positions and the trades. */
  lemma {:induction false} ExitIds(open: seq<Position>, bar: Bar)
    ensures multiset(Ids(open)) == multiset(Ids(Remaining(open, bar))) + multiset(TradeIds(ExitTrades(open, bar)))
  {
    if |open| > 0 {
      var init, p := open[..|open| - 1], open[|open| - 1];
      ExitIds(init, bar);
      assert Ids(open) == Ids(init) + [p.id];
      if Triggered(p, bar) {
        assert TradeIds(ExitTrades(open, bar)) == TradeIds(ExitTrades(init, bar)) + [p.id];
        assert Ids(Remaining(open, bar)) == Ids(Remaining(init, bar));
      } else {
        assert Ids(Remaining(open, bar)) == Ids(Remaining(init, bar)) + [p.id];
        assert TradeIds(ExitTrades(open, bar)) == TradeIds(ExitTrades(init, bar));
      }
    }
  }

  /** Dropping the last element keeps a sequence increasing, and that element is its largest. */
  lemma IncreasingInit(s: seq<int>)
    requires |s| > 0 && StrictlyIncreasing(s)
    ensures StrictlyIncreasing(s[..|s| - 1])
    ensures forall i :: 0 <= i < |s| - 1 ==> s[i] < s[|s| - 1]
  {
  }

  /** Appending an element above all others keeps a sequence increasing. */
  lemma IncreasingSnoc(s: seq<int>, x: int)
    requires StrictlyIncreasing(s)
    requires forall i :: 0 <= i < |s| ==> s[i] < x
    ensures StrictlyIncreasing(s + [x])
  {
  }

  /** A bound on the open IDs bounds the kept positions' and the trades' IDs. */
  lemma {:induction false} ExitIdsBelow(open: seq<Position>, bar: Bar, x: int)
    requires forall i :: 0 <= i < |open| ==> Ids(open)[i] < x
    ensures forall i :: 0 <= i < |Remaining(open, bar)| ==> Ids(Remaining(open, bar))[i] < x
    ensures forall i :: 0 <= i < |ExitTrades(open, bar)| ==> TradeIds(ExitTrades(open, bar))[i] < x
  {
    if |open| > 0 {
      var init := open[..|open| - 1];
      var p := open[|open| - 1];
      assert forall i :: 0 <= i < |init| ==> Ids(init)[i] == Ids(open)[i];
      assert p.id == Ids(open)[|open| - 1] < x;
      ExitIdsBelow(init, bar, x);
      var r, e := Remaining(init, bar), ExitTrades(init, bar);
      if Triggered(p, bar) {
        assert TradeIds(ExitTrades(open, bar)) == TradeIds(e) + [p.id];
        assert Ids(Remaining(open, bar)) == Ids(r);
      } else {
        assert Ids(Remaining(open, bar)) == Ids(r) + [p.id];
        assert TradeIds(ExitTrades(open, bar)) == TradeIds(e);
      }
    }
  }

  /** Kept positions and reported trades both stay in open-list order. */
  lemma {:induction false} ExitKeepsOrder(open: seq<Position>, bar: Bar)
    requires StrictlyIncreasing(Ids(open))
    ensures StrictlyIncreasing(Ids(Remaining(open, bar)))
    ensures StrictlyIncreasing(TradeIds(ExitTrades(open, bar)))
  {
    if |open| > 0 {
      var init, p := open[..|open| - 1], open[|open| - 1];
      IncreasingInit(Ids(open));
      assert Ids(init) == Ids(open)[..|open| - 1];
      ExitKeepsOrder(init, bar);
      var r, e := Remaining(init, bar), ExitTrades(init, bar);
      ExitIdsBelow(init, bar, p.id);
      if Triggered(p, bar) {
        IncreasingSnoc(TradeIds(e), p.id);
        assert TradeIds(ExitTrades(open, bar)) == TradeIds(e) + [p.id];
      } else {
        IncreasingSnoc(Ids(r), p.id);
        assert Ids(Remaining(open, bar)) == Ids(r) + [p.id];
      }
    }
  }

  // ---------------------------------------------------------------------------
  // The steps keep the account well formed

  /** A bar that reaches no level closes nothing and leaves the account as it was. */
  lemma {:induction false} QuietExits(open: seq<Position>, bar: Bar)
    requires forall i :: 0 <= i < |open| ==> !Triggered(open[i], bar)
    ensures ExitTrades(open, bar) == [] && AllClosures(open, bar) == [] && DiscardedTrades(open, bar) == []
    ensures Remaining(open, bar) == open
  {
    if |open| > 0 {
      var init := open[..|open| - 1];
      QuietExits(init, bar);
      assert !Triggered(open[|open| - 1], bar);
      assert init + [open[|open| - 1]] == open;
    }
  }

  /** A strictly increasing sequence whose values lie in [lo, hi) has at most hi - lo elements. */
  lemma {:induction false} IncreasingWithinBounds(s: seq<int>, lo: int, hi: int)
    requires StrictlyIncreasing(s)
    requires forall i :: 0 <= i < |s| ==> lo <= s[i] < hi
    ensures |s| <= (if hi > lo then hi - lo else 0)
  {
    if |s| > 0 {
      var t := s[1..];
      assert forall i :: 0 <= i < |t| ==> s[0] + 1 <= t[i] < hi by {
        forall i | 0 <= i < |t| ensures s[0] + 1 <= t[i] < hi {
          assert t[i] == s[i + 1];
        }
      }
      IncreasingWithinBounds(t, s[0] + 1, hi);
    }
  }

  /** Every open position holds its own ID out of 1 .. nextId - 1, so fewer than
      nextId positions are open. */
  lemma OpenBelowNextId(st: AccountState)
    ensures WellFormed(st) ==> |st.open| < st.nextId
  {
    if WellFormed(st) {
      IncreasingWithinBounds(Ids(st.open), 1, st.nextId);
    }
  }

  lemma NewAccountWellFormed(initialBalance: real)
    ensures WellFormed(NewAccountState(initialBalance))
  {
  }

  lemma OpenStepWellFormed(st: AccountState, signal: Signal, timestamp: int)
    requires WellFormed(st)
    ensures WellFormed(OpenStep(st, signal, timestamp))
    ensures OpenStep(st, signal, timestamp).open[|st.open|].id == st.nextId
  {
  }

  lemma ExitStepWellFormed(st: AccountState, bar: Bar)
    requires WellFormed(st)
    ensures WellFormed(ExitStep(st, bar))
  {
    ExitKeepsOrder(st.open, bar);
    RemainingExact(st.open, bar);
    var r := Remaining(st.open, bar);
    forall i | 0 <= i < |r| ensures 1 <= r[i].id < st.nextId {
      assert r[i] in r;
    }
  }

  lemma CloseAllStepWellFormed(st: AccountState, lastBar: Bar)
    requires WellFormed(st)
    ensures WellFormed(CloseAllStep(st, lastBar))
  {
  }

  // ---------------------------------------------------------------------------
  // The account object

  class Account {
    var balance: real
    var openPositions: seq<Position>
    var nextPositionID: int

    function State(): AccountState
      reads this
    {
      AccountState(balance, openPositions, nextPositionID)
    }

    ghost predicate Valid()
      reads this
    {
      WellFormed(State())
    }

    /** NewAccount: the initial balance, nothing open, the first ID is 1. */
    constructor (initialBalance: real)
      ensures Valid()
      ensures State() == NewAccountState(initialBalance)
    {
      balance := initialBalance;
      openPositions := [];
      nextPositionID := 1;
    }

    method OpenTrade(signal: Signal, timestamp: int) returns (pos: Position)
      requires Valid()
      modifies this
      ensures Valid()
      ensures pos == PositionFromSignal(old(nextPositionID), signal, timestamp)
      ensures openPositions == old(openPositions) + [pos]
      ensures nextPositionID == old(nextPositionID) + 1
      ensures balance == old(balance)
      ensures State() == OpenStep(old(State()), signal, timestamp)
    {
      var dir := Unset;
      if signal.action == BUY {
        dir := Long;
      } else if signal.action == SELL {
        dir := Short;
      }
      pos := Position(nextPositionID, timestamp, dir, signal.price, signal.size, signal.sl, signal.tp);
      nextPositionID := nextPositionID + 1;
      openPositions := openPositions + [pos];
    }

    /** The single point where PnL is computed and the balance changes. */
    method ClosePosition(pos: Position, exitPrice: real, exitTime: int, reason: ExitReason) returns (trade: Trade)
      modifies this`balance
      ensures trade == CloseTrade(pos, exitPrice, exitTime, reason)
      ensures balance == old(balance) + trade.pnl
    {
      var pnl: real;
      if pos.direction == Long {
        pnl := (exitPrice - pos.entryPrice) * pos.size;
      } else {
        pnl := (pos.entryPrice - exitPrice) * pos.size;
      }
      balance := balance + pnl;
      trade := Trade(pos.id, pos.openTime, exitTime, pos.direction, pos.entryPrice, exitPrice,
                     pos.size, pos.stopLoss, pos.takeProfit, pnl, PnLPercent(pnl, pos.entryPrice), reason);
    }

    /** One position against one bar: the stop is checked, then the target, each
        closing the position when reached; the last close is the one returned. */
    method CheckPosition(pos: Position, bar: Bar) returns (closed: bool, trade: Trade)
      modifies this`balance
      ensures closed == Triggered(pos, bar)
      ensures closed ==> trade == ReportedTrade(pos, bar)
      ensures balance == old(balance) + SumPnL(Closures(pos, bar))
    {
      closed := false;
      trade := CloseTrade(pos, pos.stopLoss, bar.timestamp, StopLoss);
      if pos.direction == Long {
        if bar.low <= pos.stopLoss {
          trade := ClosePosition(pos, pos.stopLoss, bar.timestamp, StopLoss);
          closed := true;
        }
        ghost var mid := balance;
        if bar.high >= pos.takeProfit {
          trade := ClosePosition(pos, pos.takeProfit, bar.timestamp, TakeProfit);
          closed := true;
        }
        assert balance == mid + SumPnL(if HitsTakeProfit(pos, bar) then [trade] else []);
      } else {
        if bar.high >= pos.stopLoss {
          trade := ClosePosition(pos, pos.stopLoss, bar.timestamp, StopLoss);
          closed := true;
        }
        ghost var mid := balance;
        if bar.low <= pos.takeProfit {
          trade := ClosePosition(pos, pos.takeProfit, bar.timestamp, TakeProfit);
          closed := true;
        }
        assert balance == mid + SumPnL(if HitsTakeProfit(pos, bar) then [trade] else []);
      }
      SumPnLAppend(
        if HitsStopLoss(pos, bar) then [CloseTrade(pos, pos.stopLoss, bar.timestamp, StopLoss)] else [],
        if HitsTakeProfit(pos, bar) then [CloseTrade(pos, pos.takeProfit, bar.timestamp, TakeProfit)] else []);
    }

    method CheckExits(bar: Bar) returns (closedTrades: seq<Trade>)
      requires Valid()
      modifies this
      ensures Valid()
      ensures closedTrades == ExitTrades(old(openPositions), bar)
      ensures openPositions == Remaining(old(openPositions), bar)
      ensures balance == old(balance) + SumPnL(AllClosures(old(openPositions), bar))
      ensures nextPositionID == old(nextPositionID)
      ensures State() == ExitStep(old(State()), bar)
    {
      closedTrades := [];
      var remainingPositions: seq<Position> := [];
      var positions := openPositions;
      ghost var start := State();
      for i := 0 to |positions|
        invariant openPositions == positions && nextPositionID == start.nextId
        invariant closedTrades == ExitTrades(positions[..i], bar)
        invariant remainingPositions == Remaining(positions[..i], bar)
        invariant balance == start.balance + SumPnL(AllClosures(positions[..i], bar))
      {
        var pos := positions[i];
        var closed, trade := CheckPosition(pos, bar);
        if closed {
          closedTrades := closedTrades + [trade];
        } else {
          remainingPositions := remainingPositions + [pos];
        }
        assert positions[..i + 1][..i] == positions[..i];
        SumPnLAppend(AllClosures(positions[..i], bar), Closures(pos, bar));
      }
      assert positions[..|positions|] == positions;
      openPositions := remainingPositions;
      ExitStepWellFormed(start, bar);
    }

    method CloseAll(lastBar: Bar) returns (trades: seq<Trade>)
      requires Valid()
      modifies this
      ensures Valid()
      ensures trades == CloseAllTrades(old(openPositions), lastBar)
      ensures openPositions == []
      ensures balance == old(balance) + SumPnL(trades)
      ensures nextPositionID == old(nextPositionID)
      ensures State() == CloseAllStep(old(State()), lastBar)
    {
      trades := [];
      var positions := openPositions;
      ghost var startBalance := balance;
      for i := 0 to |positions|
        invariant openPositions == positions && nextPositionID == old(nextPositionID)
        invariant trades == CloseAllTrades(positions[..i], lastBar)
        invariant balance == startBalance + SumPnL(trades)
      {
        var trade := ClosePosition(positions[i], lastBar.close, lastBar.timestamp, EndOfBacktest);
        trades := trades + [trade];
        assert trades[..|trades| - 1] == CloseAllTrades(positions[..i], lastBar);
      }
      assert positions[..|positions|] == positions;
      openPositions := [];
    }

    /** The open positions, oldest first. */
    function OpenPositions(): (ps: seq<Position>)
      reads this
      requires Valid()
      ensures StrictlyIncreasing(Ids(ps))
      ensures forall i :: 0 <= i < |ps| ==> ps[i].id < nextPositionID
    {
      openPositions
    }

    /** The number of open positions, which the ID counter always exceeds. */
    function PositionCount(): (n: int)
      reads this
      ensures n == |openPositions|
      ensures Valid() ==> n < nextPositionID
    {
      OpenBelowNextId(State());
      |openPositions|
    }
  }
}
