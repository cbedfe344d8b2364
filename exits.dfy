/** Per-position exit management (strategy/exits.py): exit checks in priority order,
    breakeven and trailing-stop activation, a SAR trailing stop that only tightens, and
    the `active_positions` map the manager keeps. Prices, indicator columns, the clock
    and the outcome of every order call are inputs. */
module Exits {
  import opened Market

  /** The tunables set by the manager's constructor. */
  const TimeExitMinutes: real := 5.0
  const BreakevenTriggerRatio: real := 1.0
  const BreakevenOffsetTicks: real := 5.0
  const TrailingEnabled: bool := true
  /** Bars needed by the reversal check (5-minute) and by the trailing stop (15-second). */
  const ReversalMinBars: nat := 35
  const TrailingMinBars: nat := 10
  const ReversalThreshold: real := 0.01

  /** One entry of `active_positions`; times are in minutes on the caller's clock. */
  datatype PositionRecord = PositionRecord(
    entryTime: real, entryPrice: real, stopPrice: real, targetPrice: real,
    direction: Direction, size: int, trailingActivated: bool, breakevenActivated: bool)

  /** The position handed to `manage_position`; `id` is `None` when it has none. */
  datatype PositionInput = PositionInput(
    id: Option<string>, entryPrice: real, stopPrice: real, targetPrice: real, direction: Direction, size: int)

  /** The record `manage_position` creates: both activation flags cleared. */
  function NewRecord(p: PositionInput, now: real): (r: PositionRecord)
    ensures !r.trailingActivated && !r.breakevenActivated
    ensures r.entryPrice == p.entryPrice && r.stopPrice == p.stopPrice && r.targetPrice == p.targetPrice
    ensures r.direction == p.direction && r.size == p.size && r.entryTime == now
  {
    PositionRecord(now, p.entryPrice, p.stopPrice, p.targetPrice, p.direction, p.size, false, false)
  }

  /** The source's `not position_id`: no id, or the empty string. */
  predicate ValidId(id: Option<string>)
  {
    id.Some? && id.value != ""
  }

  datatype ExitReason = TargetReached | StopLossHit | TimeExitNoProgress | TrendReversal

  datatype ExitSignal = Hold | Exit(reason: ExitReason)

  /** `_check_trend_reversal`: `hist` is the MACD histogram column of the 5-minute frame. */
  function TrendReversed(dir: Direction, hist: Option<seq<real>>): (r: bool)
    ensures r <==> (hist.Some? && |hist.value| >= ReversalMinBars &&
      (if dir == Long then Last(hist.value) < -ReversalThreshold else Last(hist.value) > ReversalThreshold))
  {
    if hist.None? || |hist.value| < ReversalMinBars then false
    else
      var last := Last(hist.value);
      (dir == Long && last < -ReversalThreshold) || (dir == Short && last > ReversalThreshold)
  }

  predicate TargetHit(p: PositionRecord, price: real)
  {
    if p.direction == Long then price >= p.targetPrice else price <= p.targetPrice
  }

  predicate StopHit(p: PositionRecord, price: real)
  {
    if p.direction == Long then price <= p.stopPrice else price >= p.stopPrice
  }

  /** More than the time limit has passed without the price moving past the entry. */
  predicate NoProgress(p: PositionRecord, price: real, now: real)
  {
    now - p.entryTime > TimeExitMinutes &&
    (if p.direction == Long then price <= p.entryPrice else price >= p.entryPrice)
  }

  /** `_check_exit_conditions`: target, then stop, then time without progress, then trend
      reversal; nothing when the record or the current price is missing. */
  function ExitCheck(p: Option<PositionRecord>, price: Option<real>, now: real, hist: Option<seq<real>>): (s: ExitSignal)
    ensures p.None? || !Truthy(price) ==> s == Hold
    ensures s == Exit(TargetReached) <==> p.Some? && Truthy(price) && TargetHit(p.value, price.value)
    ensures s == Exit(StopLossHit) <==>
      p.Some? && Truthy(price) && !TargetHit(p.value, price.value) && StopHit(p.value, price.value)
    ensures s == Exit(TimeExitNoProgress) <==>
      p.Some? && Truthy(price) && !TargetHit(p.value, price.value) && !StopHit(p.value, price.value) &&
      NoProgress(p.value, price.value, now)
    ensures s == Exit(TrendReversal) <==>
      p.Some? && Truthy(price) && !TargetHit(p.value, price.value) && !StopHit(p.value, price.value) &&
      !NoProgress(p.value, price.value, now) && TrendReversed(p.value.direction, hist)
  {
    if p.None? || !Truthy(price) then Hold
    else if TargetHit(p.value, price.value) then Exit(TargetReached)
    else if StopHit(p.value, price.value) then Exit(StopLossHit)
    else if NoProgress(p.value, price.value, now) then Exit(TimeExitNoProgress)
    else if TrendReversed(p.value.direction, hist) then Exit(TrendReversal)
    else Hold
  }

  /** A position as seen from the other side of the market: prices negated, direction flipped. */
  function MirrorRecord(p: PositionRecord): PositionRecord
  {
    p.(entryPrice := -p.entryPrice, stopPrice := -p.stopPrice, targetPrice := -p.targetPrice,
       direction := Opposite(p.direction))
  }

  function MirrorHist(hist: Option<seq<real>>): Option<seq<real>>
  {
    if hist.Some? then Some(Negated(hist.value)) else None
  }

  /** Long and short exits are mirror images: a short position on mirrored prices exits
      exactly when, and for the same reason as, the long position. */
  lemma ExitCheckMirror(p: PositionRecord, price: Option<real>, now: real, hist: Option<seq<real>>)
    ensures ExitCheck(Some(MirrorRecord(p)), MirrorPrice(price), now, MirrorHist(hist)) == ExitCheck(Some(p), price, now, hist)
  {
    if hist.Some? && |hist.value| >= ReversalMinBars {
      assert Last(MirrorHist(hist).value) == -Last(hist.value);
    }
  }

  /** The check order decides overlapping conditions: a price at both the target and the
      stop (an inverted record) exits as a target hit. */
  lemma TargetBeforeStop(p: PositionRecord, price: real, now: real, hist: Option<seq<real>>)
    requires price != 0.0 && TargetHit(p, price) && StopHit(p, price)
    ensures ExitCheck(Some(p), Some(price), now, hist) == Exit(TargetReached)
  {
  }

  /** Long position 5000 / stop 4995 / target 5010: 5010 reaches the target, 4995 hits
      the stop, and 4999 six minutes after entry is a time exit. */
  lemma ExitExamples(hist: Option<seq<real>>)
    ensures var p := PositionRecord(0.0, 5000.0, 4995.0, 5010.0, Long, 2, false, false);
      ExitCheck(Some(p), Some(5010.0), 0.0, hist) == Exit(TargetReached) &&
      ExitCheck(Some(p), Some(4995.0), 0.0, hist) == Exit(StopLossHit) &&
      ExitCheck(Some(p), Some(4999.0), 6.0, hist) == Exit(TimeExitNoProgress)
  {
  }

  /** The breakeven stop: `offset` ticks past the entry in the trade's favour. */
  function BreakevenStop(p: PositionRecord, tickSize: real): real
  {
    var offset := BreakevenOffsetTicks * tickSize;
    if p.direction == Long then p.entryPrice + offset else p.entryPrice - offset
  }

  /** `_move_stop_to_breakeven` on a record: without a tick size nothing changes; otherwise the
      stop and the flag change only when the modify, or the cancel-and-replace fallback, succeeds. */
  function MoveToBreakeven(p: PositionRecord, tickSize: Option<real>, modifyOk: bool, fallbackOk: bool): (r: PositionRecord)
    ensures r == p || (tickSize.Some? && (modifyOk || fallbackOk) &&
                       r == p.(stopPrice := BreakevenStop(p, tickSize.value), breakevenActivated := true))
    ensures tickSize.Some? && (modifyOk || fallbackOk) ==> r.breakevenActivated && r.stopPrice == BreakevenStop(p, tickSize.value)
    ensures tickSize.None? || (!modifyOk && !fallbackOk) ==> r == p
  {
    if tickSize.None? then p
    else if modifyOk || fallbackOk then p.(stopPrice := BreakevenStop(p, tickSize.value), breakevenActivated := true)
    else p
  }

  /** The price has moved the trigger distance (the ratio times the initial risk) in the trade's favour. */
  predicate ActivationReached(p: PositionRecord, price: real)
  {
    var trigger := Abs(p.entryPrice - p.stopPrice) * BreakevenTriggerRatio;
    if p.direction == Long then price >= p.entryPrice + trigger else price <= p.entryPrice - trigger
  }

  /** `_check_trailing_activation` on a record: once the trigger is reached, the stop goes to
      breakeven (if not already there) and trailing is switched on even when breakeven failed. */
  function ActivateTrailing(p: PositionRecord, price: Option<real>, tickSize: Option<real>,
                            modifyOk: bool, fallbackOk: bool): (r: PositionRecord)
    ensures !Truthy(price) || !ActivationReached(p, price.value) ==> r == p
    ensures Truthy(price) && ActivationReached(p, price.value) ==> r.trailingActivated
    ensures r.entryPrice == p.entryPrice && r.targetPrice == p.targetPrice && r.direction == p.direction
    ensures r.entryTime == p.entryTime && r.size == p.size
    ensures p.breakevenActivated ==> r.stopPrice == p.stopPrice && r.breakevenActivated
    ensures Truthy(price) && ActivationReached(p, price.value) && !p.breakevenActivated ==>
      r == MoveToBreakeven(p, tickSize, modifyOk, fallbackOk).(trailingActivated := true)
    ensures Truthy(price) && ActivationReached(p, price.value) && p.breakevenActivated ==>
      r == p.(trailingActivated := true)
  {
    if !Truthy(price) || !ActivationReached(p, price.value) then p
    else
      var moved := if !p.breakevenActivated then MoveToBreakeven(p, tickSize, modifyOk, fallbackOk) else p;
      moved.(trailingActivated := true)
  }

  /** `_update_trailing_stop` on a record: `sar` is the SAR column of the 15-second frame.
      A long adopts a SAR strictly between its stop and the price, a short one strictly
      between the price and its stop, and only when the modify succeeds. */
  function TrailStop(p: PositionRecord, sar: Option<seq<real>>, price: Option<real>, modifyOk: bool): (r: PositionRecord)
    ensures r == p || r == p.(stopPrice := r.stopPrice)
    ensures p.direction == Long ==> r.stopPrice >= p.stopPrice
    ensures p.direction == Short ==> r.stopPrice <= p.stopPrice
    ensures r.stopPrice != p.stopPrice ==>
      modifyOk && Truthy(price) && sar.Some? && |sar.value| >= TrailingMinBars && r.stopPrice == Last(sar.value) &&
      (if p.direction == Long then p.stopPrice < r.stopPrice < price.value else price.value < r.stopPrice < p.stopPrice)
    ensures modifyOk && Truthy(price) && sar.Some? && |sar.value| >= TrailingMinBars ==>
      (p.direction == Long && p.stopPrice < Last(sar.value) < price.value ==> r == p.(stopPrice := Last(sar.value))) &&
      (p.direction == Short && price.value < Last(sar.value) < p.stopPrice ==> r == p.(stopPrice := Last(sar.value)))
  {
    if sar.None? || |sar.value| < TrailingMinBars then p
    else
      var current := Last(sar.value);
      if !Truthy(price) then p
      else if p.direction == Long && current > p.stopPrice && current < price.value && modifyOk then
        p.(stopPrice := current)
      else if p.direction == Short && current < p.stopPrice && current > price.value && modifyOk then
        p.(stopPrice := current)
      else p
  }

  /** A long at stop 4995 with price 5005 trails to a SAR of 4998; a SAR above the price is refused. */
  lemma TrailStopExamples(p: PositionRecord, sar: seq<real>)
    requires p.direction == Long && p.stopPrice == 4995.0
    requires |sar| >= TrailingMinBars && Last(sar) == 4998.0
    ensures TrailStop(p, Some(sar), Some(5005.0), true).stopPrice == 4998.0
    ensures TrailStop(p, Some(sar), Some(4997.0), true) == p
  {
  }

  /** Breakeven on a 5000 long with tick size 0.25 puts the stop at 5001.25. */
  lemma BreakevenExample(p: PositionRecord)
    requires p.direction == Long && p.entryPrice == 5000.0
    ensures MoveToBreakeven(p, Some(0.25), true, false).stopPrice == 5001.25
  {
  }

  /** Everything one pass of the monitoring loop learns from its collaborators: the clock,
      the price each check fetches, the indicator columns, the tick size, and whether each
      order call succeeds. */
  datatype Tick = Tick(
    now: real, exitPrice: Option<real>, macdHist: Option<seq<real>>,
    activationPrice: Option<real>, tickSize: Option<real>, breakevenModifyOk: bool, breakevenFallbackOk: bool,
    sar: Option<seq<real>>, trailPrice: Option<real>, trailModifyOk: bool,
    closeOk: bool)

  /** The activation and trailing updates of one pass that did not exit. */
  function Advance(p: PositionRecord, t: Tick): PositionRecord
  {
    var activated := if TrailingEnabled && !p.trailingActivated
      then ActivateTrailing(p, t.activationPrice, t.tickSize, t.breakevenModifyOk, t.breakevenFallbackOk)
      else p;
    if activated.trailingActivated then TrailStop(activated, t.sar, t.trailPrice, t.trailModifyOk) else activated
  }

  /** Where the monitoring of one position ends: the record as it last stood, the exit that
      was attempted (if any) and whether the close succeeded. */
  datatype Outcome = Outcome(record: PositionRecord, exit: Option<ExitReason>, closed: bool)

  /** The monitoring loop over a finite run of passes: it stops at the first exit signal,
      whether or not the close succeeds. */
  function Monitor(p: PositionRecord, ticks: seq<Tick>): (o: Outcome)
    ensures o.closed ==> o.exit.Some?
    ensures o.exit.None? ==> o.record.direction == p.direction && o.record.entryPrice == p.entryPrice
    decreases |ticks|
  {
    if ticks == [] then Outcome(p, None, false)
    else
      var t := ticks[0];
      match ExitCheck(Some(p), t.exitPrice, t.now, t.macdHist)
      case Exit(reason) => Outcome(p, Some(reason), t.closeOk)
      case Hold => Monitor(Advance(p, t), ticks[1..])
  }

  /** Breakeven is only ever reached through trailing activation. */
  predicate Consistent(p: PositionRecord)
  {
    p.breakevenActivated ==> p.trailingActivated
  }

  /** Until trailing is activated, the stop sits on the protective side of the entry. */
  predicate Protective(p: PositionRecord)
  {
    !p.trailingActivated ==> (if p.direction == Long then p.stopPrice <= p.entryPrice else p.stopPrice >= p.entryPrice)
  }

  /** The stop of `q` is at least as tight as that of `p`. */
  predicate NotLooser(p: PositionRecord, q: PositionRecord)
  {
    if p.direction == Long then q.stopPrice >= p.stopPrice else q.stopPrice <= p.stopPrice
  }

  predicate NonNegativeTick(t: Tick)
  {
    t.tickSize.Some? ==> t.tickSize.value >= 0.0
  }

  /** One pass keeps the flags consistent, and with a non-negative tick size it never loosens
      a protective stop: breakeven lies past the entry and the SAR only tightens. */
  lemma AdvancePreserves(p: PositionRecord, t: Tick)
    ensures Consistent(p) ==> Consistent(Advance(p, t))
    ensures Protective(p) && NonNegativeTick(t) ==> Protective(Advance(p, t)) && NotLooser(p, Advance(p, t))
    ensures Advance(p, t).direction == p.direction && Advance(p, t).entryPrice == p.entryPrice
  {
  }

  /** Over a whole run the flags stay consistent and the stop never loosens. */
  lemma {:induction false} MonitorPreserves(p: PositionRecord, ticks: seq<Tick>)
    requires Consistent(p) && Protective(p)
    requires forall k :: 0 <= k < |ticks| ==> NonNegativeTick(ticks[k])
    ensures var o := Monitor(p, ticks);
      Consistent(o.record) && Protective(o.record) && NotLooser(p, o.record) && o.record.direction == p.direction
    decreases |ticks|
  {
    if ticks != [] {
      var t := ticks[0];
      if ExitCheck(Some(p), t.exitPrice, t.now, t.macdHist).Hold? {
        AdvancePreserves(p, t);
        var q := Advance(p, t);
        assert forall k :: 0 <= k < |ticks[1..]| ==> ticks[1..][k] == ticks[k + 1];
        MonitorPreserves(q, ticks[1..]);
      }
    }
  }

  /** The exit manager's mutable state: the records of the positions it monitors. */
  class ExitManager {
    var activePositions: map<string, PositionRecord>

    constructor()
      ensures activePositions == map[]
    {
      activePositions := map[];
    }

    /** `_check_exit_conditions` for a position id. */
    function CheckExitConditions(id: string, price: Option<real>, now: real, hist: Option<seq<real>>): (s: ExitSignal)
      reads this
      ensures id !in activePositions ==> s == Hold
    {
      ExitCheck(if id in activePositions then Some(activePositions[id]) else None, price, now, hist)
    }

    /** `_move_stop_to_breakeven`: a missing id changes nothing. */
    method MoveStopToBreakeven(id: string, tickSize: Option<real>, modifyOk: bool, fallbackOk: bool)
      modifies this
      ensures id in old(activePositions) ==>
        activePositions == old(activePositions)[id := MoveToBreakeven(old(activePositions)[id], tickSize, modifyOk, fallbackOk)]
      ensures id !in old(activePositions) ==> activePositions == old(activePositions)
    {
      if id in activePositions {
        activePositions := activePositions[id := MoveToBreakeven(activePositions[id], tickSize, modifyOk, fallbackOk)];
      }
    }

    /** `_check_trailing_activation`: a missing id changes nothing. */
    method CheckTrailingActivation(id: string, price: Option<real>, tickSize: Option<real>, modifyOk: bool, fallbackOk: bool)
      modifies this
      ensures id in old(activePositions) ==>
        activePositions == old(activePositions)[id := ActivateTrailing(old(activePositions)[id], price, tickSize, modifyOk, fallbackOk)]
      ensures id !in old(activePositions) ==> activePositions == old(activePositions)
    {
      if id !in activePositions {
        return;
      }
      var p := activePositions[id];
      if !Truthy(price) || !ActivationReached(p, price.value) {
        return;
      }
      if !p.breakevenActivated {
        MoveStopToBreakeven(id, tickSize, modifyOk, fallbackOk);
      }
      activePositions := activePositions[id := activePositions[id].(trailingActivated := true)];
    }

    /** `_update_trailing_stop`: a missing id changes nothing. */
    method UpdateTrailingStop(id: string, sar: Option<seq<real>>, price: Option<real>, modifyOk: bool)
      modifies this
      ensures id in old(activePositions) ==>
        activePositions == old(activePositions)[id := TrailStop(old(activePositions)[id], sar, price, modifyOk)]
      ensures id !in old(activePositions) ==> activePositions == old(activePositions)
    {
      if id in activePositions {
        activePositions := activePositions[id := TrailStop(activePositions[id], sar, price, modifyOk)];
      }
    }

    /** `_exit_position`: a successful close removes the id and nothing else; a failed close
        leaves the map as it was. */
    method ExitPosition(id: string, closeOk: bool)
      modifies this
      ensures closeOk ==> activePositions == old(activePositions) - {id}
      ensures !closeOk ==> activePositions == old(activePositions)
    {
      if closeOk && id in activePositions {
        activePositions := activePositions - {id};
      }
    }

    /** The rest of one monitoring pass that did not exit: trailing activation while trailing
        is off, then the trailing-stop update once it is on. */
    method AdvancePass(id: string, t: Tick)
      modifies this
      requires id in activePositions
      ensures activePositions == old(activePositions)[id := Advance(old(activePositions)[id], t)]
    {
      if TrailingEnabled && !activePositions[id].trailingActivated {
        CheckTrailingActivation(id, t.activationPrice, t.tickSize, t.breakevenModifyOk, t.breakevenFallbackOk);
      }
      if activePositions[id].trailingActivated {
        UpdateTrailingStop(id, t.sar, t.trailPrice, t.trailModifyOk);
      }
    }

    /** `manage_position`: registers the record, then runs the monitoring loop over the
        given passes until an exit is attempted or the passes run out. */
    method ManagePosition(position: PositionInput, now: real, ticks: seq<Tick>) returns (o: Option<Outcome>)
      modifies this
      ensures !ValidId(position.id) ==> o.None? && activePositions == old(activePositions)
      ensures ValidId(position.id) ==>
        o == Some(Monitor(NewRecord(position, now), ticks)) &&
        activePositions == (if o.value.closed then old(activePositions) - {position.id.value}
                            else old(activePositions)[position.id.value := o.value.record])
    {
      if !ValidId(position.id) {
        return None;
      }
      var id := position.id.value;
      var start := NewRecord(position, now);
      activePositions := activePositions[id := start];
      var i := 0;
      while i < |ticks| && id in activePositions
        invariant 0 <= i <= |ticks|
        invariant id in activePositions
        invariant activePositions == old(activePositions)[id := activePositions[id]]
        invariant Monitor(activePositions[id], ticks[i..]) == Monitor(start, ticks)
      {
        var t := ticks[i];
        assert ticks[i..][0] == t && ticks[i..][1..] == ticks[i + 1..];
        var signal := CheckExitConditions(id, t.exitPrice, t.now, t.macdHist);
        if signal.Exit? {
          var last := activePositions[id];
          ExitPosition(id, t.closeOk);
          return Some(Outcome(last, Some(signal.reason), t.closeOk));
        }
        AdvancePass(id, t);
        i := i + 1;
      }
      assert ticks[i..] == [];
      o := Some(Outcome(activePositions[id], None, false));
    }
  }
}
