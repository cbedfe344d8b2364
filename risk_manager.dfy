/** Position sizing, protective stops, reward:risk targets and the loss-limit gate
    (strategy/risk_manager.py). Account and instrument figures are inputs. */
module RiskManager {
  import opened Market

  /** The tunables set by the manager's constructor. */
  const RiskPerTrade: real := 0.005
  const MaxDailyLoss: real := 0.03
  const MaxWeeklyLoss: real := 0.05
  const RewardRiskRatio: real := 2.0
  const MaxConcurrentTrades: nat := 3
  const AtrPeriod: nat := 14
  const StopTicks: real := 10.0
  /** `_get_max_position_size`. */
  const MaxPositionSize: int := 10

  /** The instrument's tick figures; `None` is a missing attribute or a null value. */
  datatype Instrument = Instrument(tickSize: Option<real>, tickValue: Option<real>)

  /** Python's `int()` on a float: truncation toward zero. */
  function Trunc(x: real): (n: int)
    ensures x >= 0.0 ==> n as real <= x < n as real + 1.0
    ensures x < 0.0 ==> x <= n as real && (n as real) - 1.0 < x
  {
    if x >= 0.0 then x.Floor else -((-x).Floor)
  }

  /** Money at risk on one contract: the stop distance in ticks times the tick value. */
  function RiskPerContract(entry: real, stop: real, tickSize: real, tickValue: real): real
    requires tickSize != 0.0
  {
    Abs(entry - stop) / tickSize * tickValue
  }

  /** `calculate_position_size`: `balance` is `None` when no account information comes back
      (a missing balance attribute reads as 0). */
  function PositionSize(balance: Option<real>, instrument: Option<Instrument>, entry: real, stop: real): (r: Option<int>)
    ensures r.Some? <==>
      balance.Some? && balance.value > 0.0 && instrument.Some? &&
      Truthy(instrument.value.tickValue) && Truthy(instrument.value.tickSize) &&
      RiskPerContract(entry, stop, instrument.value.tickSize.value, instrument.value.tickValue.value) > 0.0
    ensures r.Some? ==> 1 <= r.value <= MaxPositionSize
  {
    if balance.None? || balance.value <= 0.0 then None
    else
      var riskAmount := RiskPerTrade * balance.value;
      if instrument.None? then None
      else if !Truthy(instrument.value.tickValue) || !Truthy(instrument.value.tickSize) then None
      else
        var rpc := RiskPerContract(entry, stop, instrument.value.tickSize.value, instrument.value.tickValue.value);
        if rpc <= 0.0 then None
        else
          var size := Trunc(riskAmount / rpc);
          var capped := if size < MaxPositionSize then size else MaxPositionSize;
          Some(if capped > 1 then capped else 1)
  }

  lemma DivMul(a: real, b: real)
    requires b > 0.0
    ensures (a / b) * b == a
  {
  }

  lemma MulMonotone(x: real, y: real, c: real)
    requires c > 0.0
    ensures x <= y ==> x * c <= y * c
    ensures x < y ==> x * c < y * c
  {
  }

  /** `n` whole contracts fit the budget and `n + 1` do not, when `n` is the whole part of their ratio. */
  lemma WholeContracts(budget: real, rpc: real, n: int)
    requires rpc > 0.0 && n as real <= budget / rpc < n as real + 1.0
    ensures n as real * rpc <= budget < (n + 1) as real * rpc
  {
    var q := budget / rpc;
    DivMul(budget, rpc);
    assert q * rpc == budget;
    MulMonotone(n as real, q, rpc);
    assert n as real * rpc <= budget;
    assert q < (n + 1) as real;
    MulMonotone(q, (n + 1) as real, rpc);
    assert budget < (n + 1) as real * rpc;
  }

  /** The size is the largest whole number of contracts the risk budget pays for,
      clamped to [1, 10]: above the floor of 1 the budget covers the size, and below the
      cap of 10 it does not cover one more contract. */
  lemma {:induction false} SizeFitsBudget(balance: Option<real>, instrument: Option<Instrument>, entry: real, stop: real)
    requires PositionSize(balance, instrument, entry, stop).Some?
    ensures var s := PositionSize(balance, instrument, entry, stop).value;
      var rpc := RiskPerContract(entry, stop, instrument.value.tickSize.value, instrument.value.tickValue.value);
      var budget := RiskPerTrade * balance.value;
      (s > 1 ==> s as real * rpc <= budget) && (s < MaxPositionSize ==> (s + 1) as real * rpc > budget)
  {
    var s := PositionSize(balance, instrument, entry, stop).value;
    var rpc := RiskPerContract(entry, stop, instrument.value.tickSize.value, instrument.value.tickValue.value);
    var budget := RiskPerTrade * balance.value;
    assert rpc > 0.0;
    var t := Trunc(budget / rpc);
    var capped := if t < MaxPositionSize then t else MaxPositionSize;
    assert s == if capped > 1 then capped else 1;
    ClampedFits(budget, rpc, t, s);
  }

  /** The clamp of the whole number of contracts keeps the budget relation of `WholeContracts`. */
  lemma ClampedFits(budget: real, rpc: real, t: int, s: int)
    requires rpc > 0.0 && t as real <= budget / rpc < t as real + 1.0
    requires s == var capped := if t < MaxPositionSize then t else MaxPositionSize; if capped > 1 then capped else 1
    ensures s > 1 ==> s as real * rpc <= budget
    ensures s < MaxPositionSize ==> (s + 1) as real * rpc > budget
  {
    WholeContracts(budget, rpc, t);
    if s > 1 {
      assert s <= t;
      MulMonotone(s as real, t as real, rpc);
    }
    if s < MaxPositionSize {
      assert s >= t;
      MulMonotone((t + 1) as real, (s + 1) as real, rpc);
    }
  }

  /** A balance of 100000 with tick size 0.25 and tick value 12.5 risks 500 per trade;
      a 5-point stop costs 250 per contract, so the size is 2. */
  lemma PositionSizeExample()
    ensures PositionSize(Some(100000.0), Some(Instrument(Some(0.25), Some(12.5))), 5000.0, 4995.0) == Some(2)
  {
    assert RiskPerContract(5000.0, 4995.0, 0.25, 12.5) == 250.0;
    assert RiskPerTrade * 100000.0 / 250.0 == 2.0;
  }

  /** The stop distance with its three-level fallback: the latest ATR when the 1-minute frame
      has at least `atrPeriod` bars, else `stopTicks` ticks, else 1% of the entry price.
      `atr` is the ATR column of the 1-minute frame, `None` when no frame comes back. */
  function StopDistance(atrPeriod: nat, stopTicks: real, entry: real, atr: Option<seq<real>>,
                        instrument: Option<Instrument>): (d: real)
    requires atrPeriod > 0
    ensures atr.Some? && |atr.value| >= atrPeriod ==> d == Last(atr.value)
    ensures !(atr.Some? && |atr.value| >= atrPeriod) && instrument.Some? && instrument.value.tickSize.Some? ==>
      d == stopTicks * instrument.value.tickSize.value
    ensures !(atr.Some? && |atr.value| >= atrPeriod) && !(instrument.Some? && instrument.value.tickSize.Some?) ==>
      d == entry * 0.01
  {
    if atr.Some? && |atr.value| >= atrPeriod then Last(atr.value)
    else if instrument.Some? && instrument.value.tickSize.Some? then stopTicks * instrument.value.tickSize.value
    else entry * 0.01
  }

  /** The stop placed the stop distance below the entry for a long, above it for a short. */
  function StopPrice(atrPeriod: nat, stopTicks: real, entry: real, dir: Direction, atr: Option<seq<real>>,
                     instrument: Option<Instrument>): (s: real)
    requires atrPeriod > 0
    ensures Abs(entry - s) == Abs(StopDistance(atrPeriod, stopTicks, entry, atr, instrument))
    ensures StopDistance(atrPeriod, stopTicks, entry, atr, instrument) > 0.0 ==>
      (if dir == Long then s < entry else s > entry)
  {
    var d := StopDistance(atrPeriod, stopTicks, entry, atr, instrument);
    if dir == Long then entry - d else entry + d
  }

  /** With a positive ATR, a positive tick size and a positive entry price the distance is
      positive, so every fallback level puts the stop on the protective side. */
  lemma StopOnProtectiveSide(atrPeriod: nat, stopTicks: real, entry: real, dir: Direction,
                             atr: Option<seq<real>>, instrument: Option<Instrument>)
    requires atrPeriod > 0 && stopTicks > 0.0 && entry > 0.0
    requires atr.Some? && |atr.value| >= atrPeriod ==> Last(atr.value) > 0.0
    requires instrument.Some? && instrument.value.tickSize.Some? ==> instrument.value.tickSize.value > 0.0
    ensures var s := StopPrice(atrPeriod, stopTicks, entry, dir, atr, instrument);
      if dir == Long then s < entry else s > entry
  {
  }

  /** The short stop mirrors the long stop about the entry price. */
  lemma StopMirror(atrPeriod: nat, stopTicks: real, entry: real, atr: Option<seq<real>>, instrument: Option<Instrument>)
    requires atrPeriod > 0
    ensures StopPrice(atrPeriod, stopTicks, entry, Short, atr, instrument) - entry ==
      entry - StopPrice(atrPeriod, stopTicks, entry, Long, atr, instrument)
  {
  }

  /** An ATR of 2.5 on entry 5000 stops a long at 4997.5 and a short at 5002.5; without
      1-minute data, 10 ticks of 0.25 stop a long at 4997.5. */
  lemma StopExamples(bars: seq<real>)
    requires |bars| >= AtrPeriod && Last(bars) == 2.5
    ensures StopPrice(AtrPeriod, StopTicks, 5000.0, Long, Some(bars), None) == 4997.5
    ensures StopPrice(AtrPeriod, StopTicks, 5000.0, Short, Some(bars), None) == 5002.5
    ensures StopPrice(AtrPeriod, StopTicks, 5000.0, Long, None, Some(Instrument(Some(0.25), Some(12.5)))) == 4997.5
  {
  }

  /** `calculate_target_price`: the reward distance, `rr` times the stop distance, on the
      profit side of the entry. */
  function TargetPrice(rr: real, entry: real, stop: real, dir: Direction): (t: real)
    ensures rr >= 0.0 ==> (if dir == Long then t >= entry else t <= entry)
    ensures rr >= 0.0 ==> Abs(t - entry) == rr * Abs(entry - stop)
  {
    var reward := Abs(entry - stop) * rr;
    if dir == Long then entry + reward else entry - reward
  }

  /** With the stop on the protective side, the target lies on the opposite side at `rr`
      times the risk: target - entry == rr * (entry - stop) for a long, and the mirror for a short. */
  lemma TargetRewardRisk(rr: real, entry: real, stop: real, dir: Direction)
    requires if dir == Long then stop <= entry else stop >= entry
    ensures dir == Long ==> TargetPrice(rr, entry, stop, dir) - entry == rr * (entry - stop)
    ensures dir == Short ==> entry - TargetPrice(rr, entry, stop, dir) == rr * (stop - entry)
  {
  }

  /** Entry 5000 with stop 4995 targets 5010 for a long; stop 5005 targets 4990 for a short. */
  lemma TargetExamples()
    ensures TargetPrice(RewardRiskRatio, 5000.0, 4995.0, Long) == 5010.0
    ensures TargetPrice(RewardRiskRatio, 5000.0, 5005.0, Short) == 4990.0
  {
  }

  /** The answer of `can_trade`; the first limit that is hit is reported. */
  datatype TradeGate =
    | Allowed
    | DailyLossLimit(dailyPnl: real)
    | WeeklyLossLimit(weeklyPnl: real)
    | MaxConcurrentReached(open: nat)

  function Gate(dailyPnl: real, weeklyPnl: real, open: nat): (g: TradeGate)
    ensures g.Allowed? <==> dailyPnl > -MaxDailyLoss && weeklyPnl > -MaxWeeklyLoss && open < MaxConcurrentTrades
    ensures g.DailyLossLimit? <==> dailyPnl <= -MaxDailyLoss
    ensures g.WeeklyLossLimit? <==> dailyPnl > -MaxDailyLoss && weeklyPnl <= -MaxWeeklyLoss
  {
    if dailyPnl <= -MaxDailyLoss then DailyLossLimit(dailyPnl)
    else if weeklyPnl <= -MaxWeeklyLoss then WeeklyLossLimit(weeklyPnl)
    else if open >= MaxConcurrentTrades then MaxConcurrentReached(open)
    else Allowed
  }

  /** Losses never re-open a closed gate: adding a non-positive PnL to both accumulators,
      with no fewer open positions, keeps a blocked gate blocked. */
  lemma LossKeepsGateClosed(dailyPnl: real, weeklyPnl: real, open: nat, pnl: real, open': nat)
    requires pnl <= 0.0 && open' >= open
    requires !Gate(dailyPnl, weeklyPnl, open).Allowed?
    ensures !Gate(dailyPnl + pnl, weeklyPnl + pnl, open').Allowed?
  {
  }

  /** Resetting an accumulator to zero never closes an open gate. */
  lemma ResetKeepsGateOpen(dailyPnl: real, weeklyPnl: real, open: nat)
    requires Gate(dailyPnl, weeklyPnl, open).Allowed?
    ensures Gate(0.0, weeklyPnl, open).Allowed? && Gate(dailyPnl, 0.0, open).Allowed?
  {
  }

  /** An entry of the open-position list; `id` is `None` when the record has no id. */
  datatype OpenPosition = OpenPosition(id: Option<string>, direction: Direction, entryPrice: real, size: int)

  /** The list rebuilt without the records carrying `id`, others kept in order. */
  function WithoutId(positions: seq<OpenPosition>, id: string): (r: seq<OpenPosition>)
    ensures |r| <= |positions|
    ensures forall k :: 0 <= k < |r| ==> r[k].id != Some(id)
  {
    if positions == [] then []
    else (if positions[0].id == Some(id) then [] else [positions[0]]) + WithoutId(positions[1..], id)
  }

  /** A record survives exactly when it does not carry the removed id. */
  lemma {:induction false} WithoutIdMembership(positions: seq<OpenPosition>, id: string, p: OpenPosition)
    ensures p in WithoutId(positions, id) <==> p in positions && p.id != Some(id)
  {
    if positions != [] {
      WithoutIdMembership(positions[1..], id, p);
      assert positions == [positions[0]] + positions[1..];
    }
  }

  /** Removal works record by record, so it distributes over concatenation. */
  lemma {:induction false} WithoutIdAppend(a: seq<OpenPosition>, b: seq<OpenPosition>, id: string)
    ensures WithoutId(a + b, id) == WithoutId(a, id) + WithoutId(b, id)
  {
    if a == [] {
      assert a + b == b;
    } else {
      assert (a + b)[0] == a[0];
      assert (a + b)[1..] == a[1..] + b;
      WithoutIdAppend(a[1..], b, id);
      var head := if a[0].id == Some(id) then [] else [a[0]];
      assert WithoutId(a + b, id) == head + WithoutId(a[1..] + b, id);
      assert WithoutId(a, id) == head + WithoutId(a[1..], id);
    }
  }

  /** Removing an id twice is removing it once, and a list without the id is left unchanged. */
  lemma {:induction false} WithoutIdIdempotent(positions: seq<OpenPosition>, id: string)
    ensures WithoutId(WithoutId(positions, id), id) == WithoutId(positions, id)
  {
    if positions != [] {
      WithoutIdIdempotent(positions[1..], id);
      var rest := WithoutId(positions[1..], id);
      if positions[0].id != Some(id) {
        var once := [positions[0]] + rest;
        assert WithoutId(positions, id) == once;
        assert once != [] && once[0] == positions[0] && once[1..] == rest;
        assert WithoutId(once, id) == [positions[0]] + WithoutId(rest, id);
      } else {
        assert WithoutId(positions, id) == rest;
      }
    }
  }

  /** Adding a record and removing its id removes exactly the records with that id. */
  lemma AddThenRemove(positions: seq<OpenPosition>, p: OpenPosition, id: string)
    requires p.id == Some(id)
    ensures WithoutId(positions + [p], id) == WithoutId(positions, id)
  {
    WithoutIdAppend(positions, [p], id);
    assert [p][1..] == [];
  }

  /** The `get_risk_metrics` dictionary. */
  datatype RiskMetrics = RiskMetrics(dailyPnl: real, weeklyPnl: real, openPositions: nat, maxPositions: nat,
                                     riskPerTrade: real, canTrade: bool)

  /** The manager's mutable state: the PnL accumulators and the open-position list. */
  class RiskManager {
    var dailyPnl: real
    var weeklyPnl: real
    var openPositions: seq<OpenPosition>

    constructor()
      ensures dailyPnl == 0.0 && weeklyPnl == 0.0 && openPositions == []
    {
      dailyPnl := 0.0;
      weeklyPnl := 0.0;
      openPositions := [];
    }

    /** `can_trade`. */
    function CanTrade(): (g: TradeGate)
      reads this
      ensures g.Allowed? <==>
        dailyPnl > -MaxDailyLoss && weeklyPnl > -MaxWeeklyLoss && |openPositions| < MaxConcurrentTrades
    {
      Gate(dailyPnl, weeklyPnl, |openPositions|)
    }

    /** `get_risk_metrics`. */
    function Metrics(): (m: RiskMetrics)
      reads this
      ensures m.canTrade <==> CanTrade().Allowed?
      ensures m.openPositions == |openPositions| && m.maxPositions == MaxConcurrentTrades
    {
      RiskMetrics(dailyPnl, weeklyPnl, |openPositions|, MaxConcurrentTrades, RiskPerTrade, CanTrade().Allowed?)
    }

    /** `update_pnl`: the same amount goes into both accumulators. */
    method UpdatePnl(pnl: real)
      modifies this
      ensures dailyPnl == old(dailyPnl) + pnl && weeklyPnl == old(weeklyPnl) + pnl
      ensures openPositions == old(openPositions)
      ensures pnl <= 0.0 && !old(CanTrade()).Allowed? ==> !CanTrade().Allowed?
    {
      if pnl <= 0.0 && !CanTrade().Allowed? {
        LossKeepsGateClosed(dailyPnl, weeklyPnl, |openPositions|, pnl, |openPositions|);
      }
      dailyPnl := dailyPnl + pnl;
      weeklyPnl := weeklyPnl + pnl;
    }

    method ResetDailyPnl()
      modifies this
      ensures dailyPnl == 0.0 && weeklyPnl == old(weeklyPnl) && openPositions == old(openPositions)
      ensures old(CanTrade()).Allowed? ==> CanTrade().Allowed?
    {
      dailyPnl := 0.0;
    }

    method ResetWeeklyPnl()
      modifies this
      ensures weeklyPnl == 0.0 && dailyPnl == old(dailyPnl) && openPositions == old(openPositions)
      ensures old(CanTrade()).Allowed? ==> CanTrade().Allowed?
    {
      weeklyPnl := 0.0;
    }

    /** `add_position`: appends; one more open position can only close the gate. */
    method AddPosition(p: OpenPosition)
      modifies this
      ensures openPositions == old(openPositions) + [p]
      ensures dailyPnl == old(dailyPnl) && weeklyPnl == old(weeklyPnl)
      ensures !old(CanTrade()).Allowed? ==> !CanTrade().Allowed?
    {
      openPositions := openPositions + [p];
    }

    /** `remove_position`: drops every record with the id and keeps the rest in order. */
    method RemovePosition(id: string)
      modifies this
      ensures openPositions == WithoutId(old(openPositions), id)
      ensures dailyPnl == old(dailyPnl) && weeklyPnl == old(weeklyPnl)
      ensures old(CanTrade()).Allowed? ==> CanTrade().Allowed?
    {
      openPositions := WithoutId(openPositions, id);
    }
  }
}
