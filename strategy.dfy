/** The strategy glue of main.py: its own stop and target helpers, the volume filter,
    trade-mode dispatch, the entry gate chain, the `pending_orders` bookkeeping and
    shutdown. The collaborators' answers for one pass are inputs. */
module Strategy {
  import opened Market
  import TrendAnalysis
  import Signals
  import OrderBook
  import RiskManager
  import Exits

  /** main.py's own settings: the ATR period is taken from the RSI period setting (14),
      the tick stop is fixed at 10 ticks, and the reward:risk ratio is the configured 2. */
  const AtrPeriod: nat := 14
  const StopTicks: real := 10.0
  const RewardRiskRatio: real := 2.0
  const VolumeThresholdPercent: real := 0.2

  /** `_calculate_stop_price`. */
  function CalculateStopPrice(entry: real, dir: Direction, atr: Option<seq<real>>,
                              instrument: Option<RiskManager.Instrument>): (s: real)
    ensures RiskManager.StopDistance(AtrPeriod, StopTicks, entry, atr, instrument) > 0.0 ==>
      (if dir == Long then s < entry else s > entry)
  {
    RiskManager.StopPrice(AtrPeriod, StopTicks, entry, dir, atr, instrument)
  }

  /** `_calculate_target_price`. */
  function CalculateTargetPrice(entry: real, stop: real, dir: Direction): (t: real)
    ensures if dir == Long then t >= entry else t <= entry
    ensures Abs(t - entry) == RewardRiskRatio * Abs(entry - stop)
  {
    RiskManager.TargetPrice(RewardRiskRatio, entry, stop, dir)
  }

  /** The strategy's helpers duplicate the risk manager's: with the same inputs they
      place the same stop and the same target. */
  lemma HelpersAgreeWithRiskManager(entry: real, stop: real, dir: Direction, atr: Option<seq<real>>,
                                    instrument: Option<RiskManager.Instrument>)
    ensures CalculateStopPrice(entry, dir, atr, instrument) ==
      RiskManager.StopPrice(RiskManager.AtrPeriod, RiskManager.StopTicks, entry, dir, atr, instrument)
    ensures CalculateTargetPrice(entry, stop, dir) == RiskManager.TargetPrice(RiskManager.RewardRiskRatio, entry, stop, dir)
  {
  }

  /** `check_volume_filter`: `volumes` is the volume column of the latest 15-second bars
      (`None` when no frame comes back); trading needs an established 1-minute average and
      a current volume of at least 20% of it. */
  function VolumeFilter(volumes: Option<seq<real>>, average: real): (ok: bool)
    ensures ok <==> volumes.Some? && |volumes.value| > 0 && average > 0.0 &&
                    Last(volumes.value) >= VolumeThresholdPercent * average
  {
    if volumes.None? || |volumes.value| == 0 then false
    else if average <= 0.0 then false
    else Last(volumes.value) >= VolumeThresholdPercent * average
  }

  /** With a 1-minute average of 100, a volume of 50 passes and a volume of 10 does not;
      without an established average nothing passes. */
  lemma VolumeFilterExamples()
    ensures VolumeFilter(Some([50.0]), 100.0)
    ensures !VolumeFilter(Some([10.0]), 100.0)
    ensures !VolumeFilter(Some([50.0]), 0.0)
  {
  }

  /** What one signal pass reads: the latest 15-second volumes, the three trend frames, the
      signal inputs and the order book. */
  datatype MarketView = MarketView(
    volumes: Option<seq<real>>,
    frames: TrendAnalysis.TrendFrames,
    signals: Signals.SignalInputs,
    book: Option<OrderBook.Feed>)

  /** What an entry reads: the current price, the 1-minute ATR column, the instrument, the
      entry order id the managed trade returns (`None` when it returns no order, an order
      without an id, or raises) and the clock. */
  datatype EntryFill = EntryFill(
    price: Option<real>,
    atr: Option<seq<real>>,
    instrument: Option<RiskManager.Instrument>,
    orderId: Option<string>,
    now: real)

  function ModeFor(dir: Direction): TrendAnalysis.TradeMode
  {
    if dir == Long then TrendAnalysis.LongOnly else TrendAnalysis.ShortOnly
  }

  /** Both gates of `check_long_entry` / `check_short_entry`: the signal, then the order book.
      A signal check that raises ends the pass in `process_trading_signal`'s handler. */
  predicate EntryGates(cfg: Signals.SignalConfig, analyzer: OrderBook.Analyzer, dir: Direction, view: MarketView)
  {
    Signals.SignalPasses(dir, cfg, view.signals) &&
    OrderBook.ConfirmationOf(analyzer, dir, view.book).confirmed
  }

  /** `process_trading_signal` as a specification: the direction whose `enter_trade` is reached, if any. */
  function Decide(cfg: Signals.SignalConfig, analyzer: OrderBook.Analyzer, average: real, view: MarketView): Option<Direction>
  {
    if !VolumeFilter(view.volumes, average) then None
    else match TrendAnalysis.TradeModeFor(view.frames)
      case NoTrade => None
      case LongOnly => if EntryGates(cfg, analyzer, Long, view) then Some(Long) else None
      case ShortOnly => if EntryGates(cfg, analyzer, Short, view) then Some(Short) else None
  }

  /** A trade in direction d is entered exactly when the volume filter passes, the trade mode
      is d's mode, the signal for d is accepted and the order book confirms d. */
  lemma DecideIff(cfg: Signals.SignalConfig, analyzer: OrderBook.Analyzer, average: real, view: MarketView, dir: Direction)
    ensures Decide(cfg, analyzer, average, view) == Some(dir) <==>
      VolumeFilter(view.volumes, average) && TrendAnalysis.TradeModeFor(view.frames) == ModeFor(dir) &&
      EntryGates(cfg, analyzer, dir, view)
  {
  }

  /** An entered long rests on every gate: all three timeframes bullish, enough data and a
      non-zero total weight, an available imbalance of at least the long threshold. */
  lemma {:induction false} LongEntryRestsOnAllGates(cfg: Signals.SignalConfig, analyzer: OrderBook.Analyzer,
                                                     average: real, view: MarketView)
    requires Decide(cfg, analyzer, average, view) == Some(Long)
    ensures average > 0.0
    ensures TrendAnalysis.SlowTrend(view.frames.slow) == TrendAnalysis.Bullish
    ensures TrendAnalysis.MediumTrend(view.frames.medium) == TrendAnalysis.Bullish
    ensures TrendAnalysis.FastTrend(view.frames.fast) == TrendAnalysis.Bullish
    ensures view.signals.fast.Some? && |view.signals.fast.value| >= Signals.MinFastBars
    ensures Signals.MaxScore(cfg) != 0.0
    ensures OrderBook.MarketImbalance(view.book).Some? &&
            OrderBook.MarketImbalance(view.book).value >= analyzer.longThreshold
  {
    DecideIff(cfg, analyzer, average, view, Long);
    var t15 := TrendAnalysis.SlowTrend(view.frames.slow);
    var t5 := TrendAnalysis.MediumTrend(view.frames.medium);
    var t1 := TrendAnalysis.FastTrend(view.frames.fast);
    assert TrendAnalysis.TradeModeOf(t15, t5, t1) == TrendAnalysis.LongOnly;
    Signals.SignalPassesIff(Long, cfg, view.signals);
    OrderBook.ConfirmedIff(analyzer, Long, view.book);
  }

  /** No-trade and a failed volume filter dispatch nothing; a long-only mode never enters short
      and a short-only mode never enters long. */
  lemma DispatchFollowsMode(cfg: Signals.SignalConfig, analyzer: OrderBook.Analyzer, average: real, view: MarketView)
    ensures !VolumeFilter(view.volumes, average) ==> Decide(cfg, analyzer, average, view).None?
    ensures TrendAnalysis.TradeModeFor(view.frames) == TrendAnalysis.NoTrade ==> Decide(cfg, analyzer, average, view).None?
    ensures TrendAnalysis.TradeModeFor(view.frames) == TrendAnalysis.LongOnly ==> Decide(cfg, analyzer, average, view) != Some(Short)
    ensures TrendAnalysis.TradeModeFor(view.frames) == TrendAnalysis.ShortOnly ==> Decide(cfg, analyzer, average, view) != Some(Long)
  {
  }

  datatype OrderStatus = Pending | Active

  /** An entry of `pending_orders`. */
  datatype PendingOrder = PendingOrder(
    id: string, direction: Direction, entryPrice: real, stopPrice: real, targetPrice: real,
    status: OrderStatus, createdAt: real)

  /** The record `enter_trade` keeps for a submitted entry at `price`. */
  function PendingEntry(dir: Direction, price: real, fill: EntryFill, id: string): (o: PendingOrder)
    ensures o.status == Pending && o.id == id && o.direction == dir && o.entryPrice == price
    ensures o.stopPrice == CalculateStopPrice(price, dir, fill.atr, fill.instrument)
    ensures o.targetPrice == CalculateTargetPrice(price, o.stopPrice, dir)
  {
    var stop := CalculateStopPrice(price, dir, fill.atr, fill.instrument);
    PendingOrder(id, dir, price, stop, CalculateTargetPrice(price, stop, dir), Pending, fill.now)
  }

  /** The recorded target is `rr` times the recorded risk away from the entry, on the side
      opposite the stop whenever the stop distance is positive. */
  lemma PendingEntryBrackets(dir: Direction, price: real, fill: EntryFill, id: string)
    requires RiskManager.StopDistance(AtrPeriod, StopTicks, price, fill.atr, fill.instrument) > 0.0
    ensures var o := PendingEntry(dir, price, fill, id);
      if dir == Long then o.stopPrice < o.entryPrice < o.targetPrice
      else o.targetPrice < o.entryPrice < o.stopPrice
  {
    var o := PendingEntry(dir, price, fill, id);
    RiskManager.TargetRewardRisk(RewardRiskRatio, price, o.stopPrice, dir);
  }

  /** The pending-order map after `enter_trade`: an entry is recorded only when a price was
      available and the managed trade returned an order id. */
  function AfterEntry(pending: map<string, PendingOrder>, dir: Direction, fill: EntryFill): (r: map<string, PendingOrder>)
    ensures r.Keys == (if Truthy(fill.price) && fill.orderId.Some? then pending.Keys + {fill.orderId.value} else pending.Keys)
    ensures forall k :: k in pending && !(Truthy(fill.price) && fill.orderId == Some(k)) ==> r[k] == pending[k]
  {
    if !Truthy(fill.price) || fill.orderId.None? then pending
    else pending[fill.orderId.value := PendingEntry(dir, fill.price.value, fill, fill.orderId.value)]
  }

  /** The strategy's mutable state. */
  class Strategy {
    var running: bool
    var volumeAvg1min: real
    var pendingOrders: map<string, PendingOrder>

    constructor()
      ensures !running && volumeAvg1min == 0.0 && pendingOrders == map[]
    {
      running := false;
      volumeAvg1min := 0.0;
      pendingOrders := map[];
    }

    /** The end of a successful `initialize`. */
    method Start()
      modifies this
      ensures running && volumeAvg1min == old(volumeAvg1min) && pendingOrders == old(pendingOrders)
    {
      running := true;
    }

    /** `check_volume_filter` against the current 1-minute average. */
    function CheckVolumeFilter(volumes: Option<seq<real>>): (ok: bool)
      reads this
      ensures ok ==> volumeAvg1min > 0.0
    {
      VolumeFilter(volumes, volumeAvg1min)
    }

    /** `enter_trade`. */
    method EnterTrade(dir: Direction, fill: EntryFill)
      modifies this
      ensures pendingOrders == AfterEntry(old(pendingOrders), dir, fill)
      ensures running == old(running) && volumeAvg1min == old(volumeAvg1min)
    {
      if !Truthy(fill.price) {
        return;
      }
      var price := fill.price.value;
      var stop := CalculateStopPrice(price, dir, fill.atr, fill.instrument);
      var target := CalculateTargetPrice(price, stop, dir);
      if fill.orderId.Some? {
        var id := fill.orderId.value;
        pendingOrders := pendingOrders[id := PendingOrder(id, dir, price, stop, target, Pending, fill.now)];
      }
    }

    /** `check_long_entry` / `check_short_entry`: the signal gate, then the order-book gate,
        then the entry. A raising signal check enters nothing: the exception reaches the
        handler of `process_trading_signal`, which only logs it. */
    method CheckEntry(cfg: Signals.SignalConfig, analyzer: OrderBook.Analyzer, dir: Direction,
                      view: MarketView, fill: EntryFill) returns (entered: bool)
      modifies this
      ensures entered <==> EntryGates(cfg, analyzer, dir, view)
      ensures pendingOrders == if entered then AfterEntry(old(pendingOrders), dir, fill) else old(pendingOrders)
      ensures running == old(running) && volumeAvg1min == old(volumeAvg1min)
    {
      var outcome := Signals.CheckEntry(dir, cfg, view.signals);
      if !(outcome.Returned? && outcome.accepted) {
        return false;
      }
      var confirmed, _ := OrderBook.ConfirmEntry(analyzer, dir, view.book);
      if !confirmed {
        return false;
      }
      EnterTrade(dir, fill);
      entered := true;
    }

    /** `process_trading_signal`: volume filter, trade mode, then the check for the mode's direction. */
    method ProcessTradingSignal(cfg: Signals.SignalConfig, analyzer: OrderBook.Analyzer, view: MarketView, fill: EntryFill)
      returns (attempted: Option<Direction>)
      modifies this
      ensures attempted == Decide(cfg, analyzer, old(volumeAvg1min), view)
      ensures pendingOrders == if attempted.Some? then AfterEntry(old(pendingOrders), attempted.value, fill) else old(pendingOrders)
      ensures running == old(running) && volumeAvg1min == old(volumeAvg1min)
    {
      if !CheckVolumeFilter(view.volumes) {
        return None;
      }
      var mode := TrendAnalysis.TradeModeFor(view.frames);
      if mode == TrendAnalysis.NoTrade {
        return None;
      }
      var dir := if mode == TrendAnalysis.LongOnly then Long else Short;
      var entered := CheckEntry(cfg, analyzer, dir, view, fill);
      attempted := if entered then Some(dir) else None;
    }

    /** `on_order_filled`: a tracked order becomes active; other ids are left alone. */
    method OnOrderFilled(id: string)
      modifies this
      ensures id in old(pendingOrders) ==>
        pendingOrders == old(pendingOrders)[id := old(pendingOrders)[id].(status := Active)]
      ensures id !in old(pendingOrders) ==> pendingOrders == old(pendingOrders)
      ensures running == old(running) && volumeAvg1min == old(volumeAvg1min)
    {
      if id in pendingOrders {
        pendingOrders := pendingOrders[id := pendingOrders[id].(status := Active)];
      }
    }

    /** `on_order_failed` (cancelled or rejected): a tracked order is dropped. */
    method OnOrderFailed(id: string)
      modifies this
      ensures pendingOrders == old(pendingOrders) - {id}
      ensures running == old(running) && volumeAvg1min == old(volumeAvg1min)
    {
      if id in pendingOrders {
        pendingOrders := pendingOrders - {id};
      }
    }

    /** `shutdown`: when running, clears `running` and requests a close for every active
        position of the exit manager, going on past failed closes; returns the ids it asked
        to close, each once. */
    method Shutdown(exits: Exits.ExitManager) returns (closeRequests: seq<string>)
      modifies this
      ensures !old(running) ==> closeRequests == [] && running == old(running)
      ensures old(running) ==> !running
      ensures old(running) ==> (forall id :: id in closeRequests <==> id in exits.activePositions)
      ensures old(running) ==> |closeRequests| == |exits.activePositions.Keys|
      ensures pendingOrders == old(pendingOrders) && volumeAvg1min == old(volumeAvg1min)
    {
      closeRequests := [];
      if !running {
        return;
      }
      running := false;
      var remaining := exits.activePositions.Keys;
      while remaining != {}
        invariant remaining <= exits.activePositions.Keys
        invariant forall id :: id in closeRequests <==> id in exits.activePositions.Keys - remaining
        invariant |closeRequests| + |remaining| == |exits.activePositions.Keys|
        decreases |remaining|
      {
        var id :| id in remaining;
        closeRequests := closeRequests + [id];
        remaining := remaining - {id};
      }
    }
  }
}
