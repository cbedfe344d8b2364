/** Entry-signal generation (strategy/signals.py): four factors per direction,
    a weighted score for reporting, and a count-based acceptance rule. */
module Signals {
  import opened Market

  /** Minimum 15-second bars for the RSI/WAE factors and 5-minute bars for the pattern factor. */
  const MinFastBars: nat := 100
  const MinPatternBars: nat := 120

  /** One 15-second bar with the RSI and WAE columns the indicator pipeline adds. */
  datatype FastRow = FastRow(high: real, low: real, close: real, rsi: real,
                             explosion: real, trend: real, deadzone: real)

  /** Last-row order-block and fair-value-gap columns of the 5-minute frame.
      A missing boolean column reads as false; a missing or null boundary is `None`. */
  datatype PatternRow = PatternRow(obBullish: bool, obBottom: Option<real>,
                                   obBearish: bool, obTop: Option<real>,
                                   fvgBullish: bool, fvgBearish: bool)

  /** The signal requirements and weights, all named tunables of the generator. */
  datatype SignalConfig = SignalConfig(
    rsiOversold: real, rsiOverbought: real, rsiLongCross: real, rsiShortCross: real,
    rsiLookback: nat, minSignalsRequired: int, patternRequired: bool,
    weightRsi: real, weightWae: real, weightPrice: real, weightPattern: real)

  /** What one entry check reads: the 15-second frame, the 5-minute pattern frame and the
      latest 15-second close fetched by the pattern check (`None` when its frame is missing). */
  datatype SignalInputs = SignalInputs(
    fast: Option<seq<FastRow>>,
    patternFrame: Option<seq<PatternRow>>,
    patternPrice: Option<real>)

  datatype Factors = Factors(rsiCross: bool, waeExplosion: bool, priceBreak: bool, patternEdge: bool)

  const NoFactors: Factors := Factors(false, false, false, false)

  datatype Scoring = Scoring(score: real, maxScore: real, signalsMet: nat)

  /** The `signals` dictionary: the factor flags, and the score entries that are only
      present when there was enough data to evaluate the factors. */
  datatype SignalResult = SignalResult(factors: Factors, scoring: Option<Scoring>)

  /** The RSI column of a frame. */
  function RsiColumn(rows: seq<FastRow>): (r: seq<real>)
    ensures |r| == |rows|
    ensures forall i :: 0 <= i < |rows| ==> r[i] == rows[i].rsi
  {
    if rows == [] then [] else [rows[0].rsi] + RsiColumn(rows[1..])
  }

  /** `rsi.tail(lookback)[:-1]`: the (at most lookback - 1) values just before the latest one. */
  function RsiWindow(rsi: seq<real>, lookback: nat): (w: seq<real>)
    requires |rsi| > 0
    ensures |w| == if lookback == 0 then 0 else (if lookback < |rsi| then lookback else |rsi|) - 1
    ensures forall i :: 0 <= i < |w| ==> w[i] == rsi[|rsi| - 1 - |w| + i]
  {
    var k := if lookback < |rsi| then lookback else |rsi|;
    if k == 0 then [] else rsi[|rsi| - k .. |rsi| - 1]
  }

  /** Some value of the window lies strictly below (or above) a level. */
  predicate AnyBelow(w: seq<real>, level: real)
  {
    exists i :: 0 <= i < |w| && w[i] < level
  }

  predicate AnyAbove(w: seq<real>, level: real)
  {
    exists i :: 0 <= i < |w| && w[i] > level
  }

  /** The RSI factor: a recent excursion beyond the extreme level, then a cross back
      through the cross level on the latest bar. */
  function RsiCross(dir: Direction, cfg: SignalConfig, rsi: seq<real>): bool
    requires |rsi| >= 2
  {
    var w := RsiWindow(rsi, cfg.rsiLookback);
    var last, prev := rsi[|rsi| - 1], rsi[|rsi| - 2];
    match dir
    case Long =>
      AnyBelow(w, cfg.rsiOversold) && prev < cfg.rsiLongCross && last >= cfg.rsiLongCross
    case Short =>
      AnyAbove(w, cfg.rsiOverbought) && prev > cfg.rsiShortCross && last <= cfg.rsiShortCross
  }

  /** The WAE factor: explosion above the dead zone with the trend signed in the trade's direction. */
  function WaeExplosion(dir: Direction, row: FastRow): bool
  {
    row.explosion > row.deadzone && (if dir == Long then row.trend > 0.0 else row.trend < 0.0)
  }

  /** The breakout factor: the latest close beyond the previous bar's high (long) or low (short). */
  function PriceBreak(dir: Direction, prev: FastRow, current: FastRow): bool
  {
    if dir == Long then current.close > prev.high else current.close < prev.low
  }

  /** `_check_bullish_pattern` / `_check_bearish_pattern`. */
  function PatternEdge(dir: Direction, frame: Option<seq<PatternRow>>, price: Option<real>): (r: bool)
    ensures r ==> frame.Some? && |frame.value| >= MinPatternBars && price.Some?
  {
    if frame.None? || |frame.value| < MinPatternBars then false
    else if price.None? then false
    else
      var row := Last(frame.value);
      match dir
      case Long =>
        var hasOrderBlock := row.obBullish && row.obBottom.Some? && price.value >= row.obBottom.value;
        hasOrderBlock || row.fvgBullish
      case Short =>
        var hasOrderBlock := row.obBearish && row.obTop.Some? && price.value <= row.obTop.value;
        hasOrderBlock || row.fvgBearish
  }

  /** The pattern checks spelled out: bullish when the last 5-minute row has a bullish order
      block with a known bottom at or below the price, or a bullish fair-value gap; bearish
      symmetrically with the order block's top and the bearish gap. */
  lemma PatternEdgeIff(frame: Option<seq<PatternRow>>, price: Option<real>)
    ensures PatternEdge(Long, frame, price) <==>
      frame.Some? && |frame.value| >= MinPatternBars && price.Some? &&
      ((Last(frame.value).obBullish && Last(frame.value).obBottom.Some? && price.value >= Last(frame.value).obBottom.value)
       || Last(frame.value).fvgBullish)
    ensures PatternEdge(Short, frame, price) <==>
      frame.Some? && |frame.value| >= MinPatternBars && price.Some? &&
      ((Last(frame.value).obBearish && Last(frame.value).obTop.Some? && price.value <= Last(frame.value).obTop.value)
       || Last(frame.value).fvgBearish)
  {
  }

  /** The four factor flags of a frame with at least two bars. */
  function EntryFactors(dir: Direction, cfg: SignalConfig, rows: seq<FastRow>, pattern: bool): Factors
    requires |rows| >= 2
  {
    Factors(RsiCross(dir, cfg, RsiColumn(rows)),
            WaeExplosion(dir, rows[|rows| - 1]),
            PriceBreak(dir, rows[|rows| - 2], rows[|rows| - 1]),
            pattern)
  }

  /** The factors that count towards the requirement: the pattern only when it is required. */
  function CoreFactors(cfg: SignalConfig, f: Factors): (core: seq<bool>)
    ensures |core| == if cfg.patternRequired then 4 else 3
  {
    [f.rsiCross, f.waeExplosion, f.priceBreak] + (if cfg.patternRequired then [f.patternEdge] else [])
  }

  /** Number of true flags. */
  function CountTrue(bs: seq<bool>): (n: nat)
    ensures n <= |bs|
  {
    if bs == [] then 0 else (if bs[0] then 1 else 0) + CountTrue(bs[1..])
  }

  lemma {:induction false} CountTrueSnoc(bs: seq<bool>, b: bool)
    ensures CountTrue(bs + [b]) == CountTrue(bs) + (if b then 1 else 0)
  {
    if bs != [] {
      assert (bs + [b])[1..] == bs[1..] + [b];
      CountTrueSnoc(bs[1..], b);
    }
  }

  function SignalsMet(cfg: SignalConfig, f: Factors): nat
  {
    CountTrue(CoreFactors(cfg, f))
  }

  function Indicator(b: bool): nat { if b then 1 else 0 }

  /** `signals_met` is the number of true factors among rsi/wae/price, plus the pattern
      only when the pattern is required; so it never exceeds the number of core factors. */
  lemma {:induction false} SignalsMetCounts(cfg: SignalConfig, f: Factors)
    ensures SignalsMet(cfg, f) ==
      Indicator(f.rsiCross) + Indicator(f.waeExplosion) + Indicator(f.priceBreak)
      + (if cfg.patternRequired then Indicator(f.patternEdge) else 0)
    ensures SignalsMet(cfg, f) <= |CoreFactors(cfg, f)|
  {
    var a, b, c := f.rsiCross, f.waeExplosion, f.priceBreak;
    CountTrueSnoc([], a);
    assert [] + [a] == [a];
    CountTrueSnoc([a], b);
    assert [a] + [b] == [a, b];
    CountTrueSnoc([a, b], c);
    assert [a, b] + [c] == [a, b, c];
    if cfg.patternRequired {
      CountTrueSnoc([a, b, c], f.patternEdge);
    } else {
      assert CoreFactors(cfg, f) == [a, b, c];
    }
  }

  /** Total weight: every core factor's weight, the pattern's only when required. */
  function MaxScore(cfg: SignalConfig): real
  {
    cfg.weightRsi + cfg.weightWae + cfg.weightPrice + (if cfg.patternRequired then cfg.weightPattern else 0.0)
  }

  /** Weighted score: the weights of the true factors; a pattern that is present but not
      required adds half its weight as a bonus. */
  function Score(cfg: SignalConfig, f: Factors): real
  {
    (if f.rsiCross then cfg.weightRsi else 0.0)
    + (if f.waeExplosion then cfg.weightWae else 0.0)
    + (if f.priceBreak then cfg.weightPrice else 0.0)
    + (if cfg.patternRequired then (if f.patternEdge then cfg.weightPattern else 0.0)
       else if f.patternEdge then cfg.weightPattern * 0.5 else 0.0)
  }

  /** `check_long_entry` / `check_short_entry` as a specification. */
  function EntrySignal(dir: Direction, cfg: SignalConfig, inputs: SignalInputs): (r: SignalResult)
    ensures inputs.fast.None? || |inputs.fast.value| < MinFastBars ==> r == SignalResult(NoFactors, None)
    ensures r.scoring.Some? ==> r.scoring.value.signalsMet == SignalsMet(cfg, r.factors)
  {
    if inputs.fast.None? || |inputs.fast.value| < MinFastBars then SignalResult(NoFactors, None)
    else
      var f := EntryFactors(dir, cfg, inputs.fast.value, PatternEdge(dir, inputs.patternFrame, inputs.patternPrice));
      Evaluated(cfg, f)
  }

  /** The result reported once the factors could be evaluated. */
  function Evaluated(cfg: SignalConfig, f: Factors): SignalResult
  {
    SignalResult(f, Some(Scoring(Score(cfg, f), MaxScore(cfg), SignalsMet(cfg, f))))
  }

  /** The acceptance rule: enough core factors met. The score plays no part. */
  predicate Accepted(cfg: SignalConfig, r: SignalResult)
  {
    r.scoring.Some? && r.scoring.value.signalsMet >= cfg.minSignalsRequired
  }

  /** How a check ends: it returns its verdict and the `signals` dictionary, or the debug
      line that prints `signal_score/total_weight`, reached whenever the factors were
      evaluated, raises ZeroDivisionError because the total weight is zero. */
  datatype EntryOutcome = Returned(accepted: bool, result: SignalResult) | ScoreDivisionByZero

  /** `check_long_entry` / `check_short_entry` with their exceptional exit. */
  function EntryCheck(dir: Direction, cfg: SignalConfig, inputs: SignalInputs): (o: EntryOutcome)
    ensures o.ScoreDivisionByZero? <==>
      inputs.fast.Some? && |inputs.fast.value| >= MinFastBars && MaxScore(cfg) == 0.0
    ensures o.Returned? ==> o.result == EntrySignal(dir, cfg, inputs) && (o.accepted <==> Accepted(cfg, o.result))
  {
    var r := EntrySignal(dir, cfg, inputs);
    if r.scoring.Some? && r.scoring.value.maxScore == 0.0 then ScoreDivisionByZero
    else Returned(Accepted(cfg, r), r)
  }

  /** The signal gate the strategy sees: the check returns and accepts. */
  predicate SignalPasses(dir: Direction, cfg: SignalConfig, inputs: SignalInputs)
  {
    EntryCheck(dir, cfg, inputs).Returned? && EntryCheck(dir, cfg, inputs).accepted
  }

  /** The gate passes exactly when there is enough data, the total weight is not zero and
      enough core factors are met. */
  lemma {:induction false} SignalPassesIff(dir: Direction, cfg: SignalConfig, inputs: SignalInputs)
    ensures SignalPasses(dir, cfg, inputs) <==>
      inputs.fast.Some? && |inputs.fast.value| >= MinFastBars && MaxScore(cfg) != 0.0 &&
      SignalsMet(cfg, EntrySignal(dir, cfg, inputs).factors) >= cfg.minSignalsRequired
  {
    var o := EntryCheck(dir, cfg, inputs);
    if inputs.fast.Some? && |inputs.fast.value| >= MinFastBars && MaxScore(cfg) != 0.0 {
      assert o.Returned?;
      assert EntrySignal(dir, cfg, inputs).scoring.Some?;
    }
  }

  /** With zero weights and no pattern requirement the factors can all be met and still
      no entry passes: the check raises instead of returning. */
  lemma ZeroWeightsRaise(dir: Direction, inputs: SignalInputs, cfg: SignalConfig)
    requires inputs.fast.Some? && |inputs.fast.value| >= MinFastBars
    requires cfg.weightRsi == 0.0 && cfg.weightWae == 0.0 && cfg.weightPrice == 0.0 && !cfg.patternRequired
    ensures EntryCheck(dir, cfg, inputs) == ScoreDivisionByZero
    ensures !SignalPasses(dir, cfg, inputs)
  {
  }

  /** The `signals_met` counter: one pass over the flags, adding one per true flag. */
  method CountMet(flags: seq<bool>) returns (met: nat)
    ensures met == CountTrue(flags)
  {
    met := 0;
    for i := 0 to |flags|
      invariant met == CountTrue(flags[..i])
    {
      CountTrueSnoc(flags[..i], flags[i]);
      assert flags[..i + 1] == flags[..i] + [flags[i]];
      if flags[i] {
        met := met + 1;
      }
    }
    assert flags[..|flags|] == flags;
  }

  /** The score and its maximum, accumulated weight by weight as the source does. */
  method AccumulateScore(cfg: SignalConfig, factors: Factors) returns (score: real, total: real)
    ensures score == Score(cfg, factors) && total == MaxScore(cfg)
  {
    score, total := 0.0, 0.0;
    if factors.rsiCross { score := score + cfg.weightRsi; }
    total := total + cfg.weightRsi;
    if factors.waeExplosion { score := score + cfg.weightWae; }
    total := total + cfg.weightWae;
    if factors.priceBreak { score := score + cfg.weightPrice; }
    total := total + cfg.weightPrice;
    if cfg.patternRequired {
      if factors.patternEdge { score := score + cfg.weightPattern; }
      total := total + cfg.weightPattern;
    } else if factors.patternEdge {
      score := score + cfg.weightPattern * 0.5;
    }
  }

  /** The entry check as the source computes it: the four flags, the score accumulated
      weight by weight, and the core signals counted one by one. */
  method CheckEntry(dir: Direction, cfg: SignalConfig, inputs: SignalInputs)
    returns (outcome: EntryOutcome)
    ensures outcome == EntryCheck(dir, cfg, inputs)
  {
    if inputs.fast.None? || |inputs.fast.value| < MinFastBars {
      return Returned(false, SignalResult(NoFactors, None));
    }
    var rows := inputs.fast.value;
    var factors := Factors(
      RsiCross(dir, cfg, RsiColumn(rows)),
      WaeExplosion(dir, rows[|rows| - 1]),
      PriceBreak(dir, rows[|rows| - 2], rows[|rows| - 1]),
      PatternEdge(dir, inputs.patternFrame, inputs.patternPrice));
    var score, total := AccumulateScore(cfg, factors);

    var core := [factors.rsiCross, factors.waeExplosion, factors.priceBreak];
    if cfg.patternRequired {
      core := core + [factors.patternEdge];
    }
    var met := CountMet(core);
    assert core == CoreFactors(cfg, factors);
    assert factors == EntryFactors(dir, cfg, rows, PatternEdge(dir, inputs.patternFrame, inputs.patternPrice));
    EvaluatedWithEnoughData(dir, cfg, inputs);
    var accepted := met >= cfg.minSignalsRequired;
    var result := SignalResult(factors, Some(Scoring(score, total, met)));
    if total == 0.0 {
      return ScoreDivisionByZero;
    }
    outcome := Returned(accepted, result);
  }

  /** Fewer than 100 bars (or no frame) rejects with every flag false. */
  lemma InsufficientDataRejects(dir: Direction, cfg: SignalConfig, inputs: SignalInputs)
    requires inputs.fast.None? || |inputs.fast.value| < MinFastBars
    ensures !Accepted(cfg, EntrySignal(dir, cfg, inputs))
    ensures EntrySignal(dir, cfg, inputs).factors == NoFactors
  {
  }

  /** Acceptance is count-based: with enough data it holds exactly when the number of
      met core factors reaches the requirement. */
  lemma {:induction false} AcceptedIffEnoughFactors(dir: Direction, cfg: SignalConfig, inputs: SignalInputs)
    requires inputs.fast.Some? && |inputs.fast.value| >= MinFastBars
    ensures var f := EntrySignal(dir, cfg, inputs).factors;
      Accepted(cfg, EntrySignal(dir, cfg, inputs)) <==>
      Indicator(f.rsiCross) + Indicator(f.waeExplosion) + Indicator(f.priceBreak)
      + (if cfg.patternRequired then Indicator(f.patternEdge) else 0) >= cfg.minSignalsRequired
  {
    SignalsMetCounts(cfg, EntrySignal(dir, cfg, inputs).factors);
  }

  /** The weights never influence the count rule: two configurations that differ only in
      their weights flag the same factors and accept the same entries. The weights decide
      only whether the check raises; while neither total is zero, the gate is the same. */
  lemma AcceptanceIgnoresWeights(dir: Direction, cfg: SignalConfig, inputs: SignalInputs,
                                 wRsi: real, wWae: real, wPrice: real, wPattern: real)
    ensures var cfg' := cfg.(weightRsi := wRsi, weightWae := wWae, weightPrice := wPrice, weightPattern := wPattern);
      EntrySignal(dir, cfg', inputs).factors == EntrySignal(dir, cfg, inputs).factors &&
      (Accepted(cfg', EntrySignal(dir, cfg', inputs)) <==> Accepted(cfg, EntrySignal(dir, cfg, inputs)))
    ensures var cfg' := cfg.(weightRsi := wRsi, weightWae := wWae, weightPrice := wPrice, weightPattern := wPattern);
      MaxScore(cfg) != 0.0 && MaxScore(cfg') != 0.0 ==>
      (SignalPasses(dir, cfg', inputs) <==> SignalPasses(dir, cfg, inputs))
  {
    var cfg' := cfg.(weightRsi := wRsi, weightWae := wWae, weightPrice := wPrice, weightPattern := wPattern);
    SignalPassesIff(dir, cfg, inputs);
    SignalPassesIff(dir, cfg', inputs);
  }

  /** When the pattern is not required, the pattern inputs cannot change the decision. */
  lemma {:induction false} OptionalPatternNeverDecides(dir: Direction, cfg: SignalConfig,
                                                       inputs: SignalInputs, other: SignalInputs)
    requires !cfg.patternRequired
    requires other.fast == inputs.fast
    ensures Accepted(cfg, EntrySignal(dir, cfg, other)) <==> Accepted(cfg, EntrySignal(dir, cfg, inputs))
  {
    if inputs.fast.Some? && |inputs.fast.value| >= MinFastBars {
      SignalsMetCounts(cfg, EntrySignal(dir, cfg, inputs).factors);
      SignalsMetCounts(cfg, EntrySignal(dir, cfg, other).factors);
    }
  }

  /** With non-negative weights the score lies between 0 and the maximum score, except for
      the half-weight bonus a present but optional pattern adds on top. */
  lemma ScoreBounds(cfg: SignalConfig, f: Factors)
    requires cfg.weightRsi >= 0.0 && cfg.weightWae >= 0.0 && cfg.weightPrice >= 0.0 && cfg.weightPattern >= 0.0
    ensures 0.0 <= Score(cfg, f)
    ensures cfg.patternRequired ==> Score(cfg, f) <= MaxScore(cfg)
    ensures !cfg.patternRequired ==> Score(cfg, f) <= MaxScore(cfg) + cfg.weightPattern * 0.5
    ensures f.rsiCross && f.waeExplosion && f.priceBreak && (cfg.patternRequired ==> f.patternEdge) ==>
      Score(cfg, f) >= MaxScore(cfg)
  {
  }

  /** The inputs of a check as seen from the other side of the market: prices negated
      (so highs and lows swap), RSI reflected about 50, WAE trend negated, and the
      bullish and bearish pattern columns exchanged. */
  function MirrorRow(r: FastRow): FastRow
  {
    FastRow(-r.low, -r.high, -r.close, 100.0 - r.rsi, r.explosion, -r.trend, r.deadzone)
  }

  function MirrorRows(rows: seq<FastRow>): (m: seq<FastRow>)
    ensures |m| == |rows|
    ensures forall i :: 0 <= i < |rows| ==> m[i] == MirrorRow(rows[i])
  {
    if rows == [] then [] else [MirrorRow(rows[0])] + MirrorRows(rows[1..])
  }

  function MirrorPatternRow(p: PatternRow): PatternRow
  {
    PatternRow(p.obBearish, MirrorPrice(p.obTop), p.obBullish, MirrorPrice(p.obBottom), p.fvgBearish, p.fvgBullish)
  }

  function MirrorPatternRows(rows: seq<PatternRow>): (m: seq<PatternRow>)
    ensures |m| == |rows|
    ensures forall i :: 0 <= i < |rows| ==> m[i] == MirrorPatternRow(rows[i])
  {
    if rows == [] then [] else [MirrorPatternRow(rows[0])] + MirrorPatternRows(rows[1..])
  }

  function MirrorInputs(inputs: SignalInputs): SignalInputs
  {
    SignalInputs(
      if inputs.fast.Some? then Some(MirrorRows(inputs.fast.value)) else None,
      MirrorPatternFrame(inputs.patternFrame),
      MirrorPrice(inputs.patternPrice))
  }

  /** RSI thresholds placed symmetrically about 50, as the defaults 30/70 and 40/60 are. */
  predicate SymmetricThresholds(cfg: SignalConfig)
  {
    cfg.rsiOverbought == 100.0 - cfg.rsiOversold && cfg.rsiShortCross == 100.0 - cfg.rsiLongCross
  }

  /** Reflecting an RSI column about 50 reflects its lookback window. */
  lemma {:induction false} ReflectedWindow(rsi: seq<real>, mrsi: seq<real>, lookback: nat)
    requires |rsi| == |mrsi| > 0
    requires forall i :: 0 <= i < |rsi| ==> mrsi[i] == 100.0 - rsi[i]
    ensures |RsiWindow(mrsi, lookback)| == |RsiWindow(rsi, lookback)|
    ensures forall i :: 0 <= i < |RsiWindow(rsi, lookback)| ==>
      RsiWindow(mrsi, lookback)[i] == 100.0 - RsiWindow(rsi, lookback)[i]
  {
    var w, mw := RsiWindow(rsi, lookback), RsiWindow(mrsi, lookback);
    forall i | 0 <= i < |w| ensures mw[i] == 100.0 - w[i] {
      var j := |rsi| - 1 - |w| + i;
      assert w[i] == rsi[j] && mw[i] == mrsi[j];
    }
  }

  /** The short RSI factor on a reflected column is the long RSI factor. */
  lemma {:induction false} RsiCrossMirror(cfg: SignalConfig, rsi: seq<real>, mrsi: seq<real>)
    requires SymmetricThresholds(cfg)
    requires |rsi| == |mrsi| >= 2
    requires forall i :: 0 <= i < |rsi| ==> mrsi[i] == 100.0 - rsi[i]
    ensures RsiCross(Short, cfg, mrsi) == RsiCross(Long, cfg, rsi)
  {
    ReflectedWindow(rsi, mrsi, cfg.rsiLookback);
    var w, mw := RsiWindow(rsi, cfg.rsiLookback), RsiWindow(mrsi, cfg.rsiLookback);
    if AnyBelow(w, cfg.rsiOversold) {
      var i :| 0 <= i < |w| && w[i] < cfg.rsiOversold;
      assert mw[i] > cfg.rsiOverbought;
    }
    if AnyAbove(mw, cfg.rsiOverbought) {
      var i :| 0 <= i < |mw| && mw[i] > cfg.rsiOverbought;
      assert w[i] < cfg.rsiOversold;
    }
    assert mrsi[|mrsi| - 1] == 100.0 - rsi[|rsi| - 1];
    assert mrsi[|mrsi| - 2] == 100.0 - rsi[|rsi| - 2];
  }

  function MirrorPatternFrame(frame: Option<seq<PatternRow>>): Option<seq<PatternRow>>
  {
    if frame.Some? then Some(MirrorPatternRows(frame.value)) else None
  }

  /** The bearish pattern check on a mirrored frame and price is the bullish check. */
  lemma PatternEdgeMirror(frame: Option<seq<PatternRow>>, price: Option<real>)
    ensures PatternEdge(Short, MirrorPatternFrame(frame), MirrorPrice(price)) == PatternEdge(Long, frame, price)
  {
    if frame.Some? && |frame.value| >= MinPatternBars {
      assert Last(MirrorPatternFrame(frame).value) == MirrorPatternRow(Last(frame.value));
    }
  }

  /** The three factors read from the 15-second frame are symmetric under mirroring. */
  lemma {:induction false} FastFactorsMirror(cfg: SignalConfig, rows: seq<FastRow>, pattern: bool)
    requires SymmetricThresholds(cfg)
    requires |rows| >= 2
    ensures EntryFactors(Short, cfg, MirrorRows(rows), pattern) == EntryFactors(Long, cfg, rows, pattern)
  {
    var mrows := MirrorRows(rows);
    var n := |rows|;
    var rsi, mrsi := RsiColumn(rows), RsiColumn(mrows);
    assert forall i :: 0 <= i < |rsi| ==> mrsi[i] == 100.0 - rsi[i] by {
      forall i | 0 <= i < |rsi| ensures mrsi[i] == 100.0 - rsi[i] {
        assert mrows[i] == MirrorRow(rows[i]);
      }
    }
    RsiCrossMirror(cfg, rsi, mrsi);
    assert mrows[n - 1] == MirrorRow(rows[n - 1]) && mrows[n - 2] == MirrorRow(rows[n - 2]);
  }

  /** The same with the two checks' pattern flags given separately, when they agree. */
  lemma MirroredRowsFactors(cfg: SignalConfig, rows: seq<FastRow>, shortPattern: bool, longPattern: bool)
    requires SymmetricThresholds(cfg)
    requires |rows| >= 2 && shortPattern == longPattern
    ensures EntryFactors(Short, cfg, MirrorRows(rows), shortPattern) == EntryFactors(Long, cfg, rows, longPattern)
  {
    FastFactorsMirror(cfg, rows, longPattern);
  }

  /** All four factors of the short check on mirrored inputs are those of the long check. */
  lemma MirroredFactors(cfg: SignalConfig, inputs: SignalInputs)
    requires SymmetricThresholds(cfg)
    requires inputs.fast.Some? && |inputs.fast.value| >= MinFastBars
    ensures var m := MirrorInputs(inputs);
      EntryFactors(Short, cfg, m.fast.value, PatternEdge(Short, m.patternFrame, m.patternPrice))
      == EntryFactors(Long, cfg, inputs.fast.value, PatternEdge(Long, inputs.patternFrame, inputs.patternPrice))
  {
    var m := MirrorInputs(inputs);
    PatternEdgeMirror(inputs.patternFrame, inputs.patternPrice);
    MirroredRowsFactors(cfg, inputs.fast.value, PatternEdge(Short, m.patternFrame, m.patternPrice),
                        PatternEdge(Long, inputs.patternFrame, inputs.patternPrice));
  }

  /** With enough 15-second bars, the check reports the evaluated factors. */
  lemma EvaluatedWithEnoughData(dir: Direction, cfg: SignalConfig, inputs: SignalInputs)
    requires inputs.fast.Some? && |inputs.fast.value| >= MinFastBars
    ensures EntrySignal(dir, cfg, inputs) ==
      Evaluated(cfg, EntryFactors(dir, cfg, inputs.fast.value, PatternEdge(dir, inputs.patternFrame, inputs.patternPrice)))
  {
  }

  /** The short check on mirrored inputs gives exactly the long check's result. */
  lemma {:induction false} ShortMirrorsLong(cfg: SignalConfig, inputs: SignalInputs)
    requires SymmetricThresholds(cfg)
    ensures EntrySignal(Short, cfg, MirrorInputs(inputs)) == EntrySignal(Long, cfg, inputs)
    ensures EntryCheck(Short, cfg, MirrorInputs(inputs)) == EntryCheck(Long, cfg, inputs)
  {
    if inputs.fast.Some? && |inputs.fast.value| >= MinFastBars {
      MirroredFactors(cfg, inputs);
      EvaluatedWithEnoughData(Long, cfg, inputs);
      EvaluatedWithEnoughData(Short, cfg, MirrorInputs(inputs));
    }
  }
}
