/** Multi-timeframe trend classification (strategy/trend_analysis.py).
    Each timeframe is classified from the last rows of its indicator frame;
    the three states are then combined into a trade mode. */
module TrendAnalysis {
  import opened Market

  datatype TrendState = Bullish | Bearish | Neutral
  datatype TradeMode = LongOnly | ShortOnly | NoTrade

  /** Constructor-set configuration of TrendAnalyzer. */
  const EmaSlow: nat := 200
  const MacdSlow: nat := 26
  const MacdSignal: nat := 9
  const WaeMinBars: nat := 20

  /** Last-row values of the 15-minute frame after the EMA(50) and EMA(200) columns are added. */
  datatype EmaRow = EmaRow(close: real, ema50: real, ema200: real)
  /** Last-row values of the 1-minute frame after the WAE columns are added. */
  datatype WaeRow = WaeRow(explosion: real, trend: real, deadzone: real)

  /** What the data layer returns for the three timeframes: a missing frame is `None`;
      the 5-minute frame is given by its MACD histogram column, one value per bar. */
  datatype TrendFrames = TrendFrames(
    slow: Option<seq<EmaRow>>,
    medium: Option<seq<real>>,
    fast: Option<seq<WaeRow>>)

  /** 15-minute trend: EMA alignment with price above/below the fast EMA. */
  function SlowTrend(data: Option<seq<EmaRow>>): (r: TrendState)
    ensures data.None? || |data.value| < EmaSlow ==> r == Neutral
    ensures r == Bullish <==>
      data.Some? && |data.value| >= EmaSlow &&
      Last(data.value).ema50 > Last(data.value).ema200 && Last(data.value).close > Last(data.value).ema50
    ensures r == Bearish <==>
      data.Some? && |data.value| >= EmaSlow &&
      Last(data.value).ema50 < Last(data.value).ema200 && Last(data.value).close < Last(data.value).ema50
  {
    if data.None? || |data.value| < EmaSlow then Neutral
    else
      var row := Last(data.value);
      if row.ema50 > row.ema200 && row.close > row.ema50 then Bullish
      else if row.ema50 < row.ema200 && row.close < row.ema50 then Bearish
      else Neutral
  }

  /** The last three values of a column (`tail(3)`). */
  function LastThree(hist: seq<real>): (r: seq<real>)
    ensures |r| == if |hist| < 3 then |hist| else 3
    ensures forall i :: 0 <= i < |r| ==> r[i] == hist[|hist| - |r| + i]
  {
    if |hist| < 3 then hist else hist[|hist| - 3..]
  }

  predicate StrictlyIncreasing(s: seq<real>)
  {
    forall i :: 0 <= i < |s| - 1 ==> s[i] < s[i + 1]
  }

  predicate StrictlyDecreasing(s: seq<real>)
  {
    forall i :: 0 <= i < |s| - 1 ==> s[i] > s[i + 1]
  }

  /** 5-minute trend: sign and slope of the last three MACD histogram values. */
  function MediumTrend(hist: Option<seq<real>>): (r: TrendState)
    ensures hist.None? || |hist.value| < MacdSlow + MacdSignal ==> r == Neutral
    ensures r == Bullish <==>
      hist.Some? && |hist.value| >= MacdSlow + MacdSignal &&
      Last(hist.value) > 0.0 && StrictlyIncreasing(LastThree(hist.value))
    ensures r == Bearish <==>
      hist.Some? && |hist.value| >= MacdSlow + MacdSignal &&
      Last(hist.value) < 0.0 && StrictlyDecreasing(LastThree(hist.value))
  {
    if hist.None? || |hist.value| < MacdSlow + MacdSignal then Neutral
    else
      var last3 := LastThree(hist.value);
      // the `len(hist_last3) < 3` guard of the source can no longer fire here:
      // a frame of at least 35 bars has a histogram of at least 35 values
      if last3[2] > 0.0 && StrictlyIncreasing(last3) then Bullish
      else if last3[2] < 0.0 && StrictlyDecreasing(last3) then Bearish
      else Neutral
  }

  /** 1-minute trend: WAE explosion above the dead zone, signed by the WAE trend. */
  function FastTrend(data: Option<seq<WaeRow>>): (r: TrendState)
    ensures data.None? || |data.value| < WaeMinBars ==> r == Neutral
    ensures data.Some? && |data.value| >= WaeMinBars && Last(data.value).explosion <= Last(data.value).deadzone
      ==> r == Neutral
    ensures r == Bullish <==>
      data.Some? && |data.value| >= WaeMinBars &&
      Last(data.value).explosion > Last(data.value).deadzone && Last(data.value).trend > 0.0
    ensures r == Bearish <==>
      data.Some? && |data.value| >= WaeMinBars &&
      Last(data.value).explosion > Last(data.value).deadzone && Last(data.value).trend < 0.0
  {
    if data.None? || |data.value| < WaeMinBars then Neutral
    else
      var row := Last(data.value);
      if row.explosion > row.deadzone then
        if row.trend > 0.0 then Bullish
        else if row.trend < 0.0 then Bearish
        else Neutral
      else Neutral
  }

  /** Number of timeframes in `ts` that are in state `s`. */
  function CountState(s: TrendState, ts: seq<TrendState>): (n: nat)
    ensures n <= |ts|
  {
    if ts == [] then 0 else (if ts[0] == s then 1 else 0) + CountState(s, ts[1..])
  }

  /** `get_trade_mode`: every timeframe must agree; anything else is no trade. */
  function TradeModeOf(t15: TrendState, t5: TrendState, t1: TrendState): TradeMode
  {
    if t15 == Bullish && t5 == Bullish && t1 == Bullish then LongOnly
    else if t15 == Bearish && t5 == Bearish && t1 == Bearish then ShortOnly
    else NoTrade
  }

  /** The trade mode read from one fetch of the three frames. */
  function TradeModeFor(frames: TrendFrames): TradeMode
  {
    TradeModeOf(SlowTrend(frames.slow), MediumTrend(frames.medium), FastTrend(frames.fast))
  }

  /** The trade mode, stated against an independent counting definition:
      long only iff all three timeframes are bullish, short only iff all three are bearish. */
  lemma {:induction false} TradeModeByCount(t15: TrendState, t5: TrendState, t1: TrendState)
    ensures TradeModeOf(t15, t5, t1) == LongOnly <==> CountState(Bullish, [t15, t5, t1]) == 3
    ensures TradeModeOf(t15, t5, t1) == ShortOnly <==> CountState(Bearish, [t15, t5, t1]) == 3
    ensures TradeModeOf(t15, t5, t1) == NoTrade <==>
      CountState(Bullish, [t15, t5, t1]) < 3 && CountState(Bearish, [t15, t5, t1]) < 3
  {
    var ts := [t15, t5, t1];
    forall s: TrendState
      ensures CountState(s, ts) ==
        (if t15 == s then 1 else 0) + (if t5 == s then 1 else 0) + (if t1 == s then 1 else 0)
    {
      assert ts[1..] == [t5, t1];
      assert ts[1..][1..] == [t1];
      assert ts[1..][1..][1..] == [];
      assert CountState(s, [t1]) == (if t1 == s then 1 else 0) + CountState(s, []);
      assert CountState(s, [t5, t1]) == (if t5 == s then 1 else 0) + CountState(s, [t1]);
    }
  }

  /** A single neutral timeframe blocks trading, whatever the other two say. */
  lemma NeutralBlocksTrading(t15: TrendState, t5: TrendState, t1: TrendState)
    requires t15 == Neutral || t5 == Neutral || t1 == Neutral
    ensures TradeModeOf(t15, t5, t1) == NoTrade
  {
  }

  /** The reported modes mean aligned frames: a long-only mode has every timeframe's
      bullish condition true on its frame. */
  lemma {:induction false} LongOnlyMeansAligned(frames: TrendFrames)
    requires TradeModeFor(frames) == LongOnly
    ensures frames.slow.Some? && |frames.slow.value| >= EmaSlow
    ensures Last(frames.slow.value).close > Last(frames.slow.value).ema50 > Last(frames.slow.value).ema200
    ensures frames.medium.Some? && |frames.medium.value| >= MacdSlow + MacdSignal
    ensures Last(frames.medium.value) > 0.0 && StrictlyIncreasing(LastThree(frames.medium.value))
    ensures frames.fast.Some? && |frames.fast.value| >= WaeMinBars
    ensures Last(frames.fast.value).explosion > Last(frames.fast.value).deadzone && Last(frames.fast.value).trend > 0.0
  {
    assert SlowTrend(frames.slow) == Bullish && MediumTrend(frames.medium) == Bullish && FastTrend(frames.fast) == Bullish;
  }

  /** And a short-only mode has every timeframe's bearish condition true on its frame. */
  lemma {:induction false} ShortOnlyMeansAligned(frames: TrendFrames)
    requires TradeModeFor(frames) == ShortOnly
    ensures frames.slow.Some? && |frames.slow.value| >= EmaSlow
    ensures Last(frames.slow.value).close < Last(frames.slow.value).ema50 < Last(frames.slow.value).ema200
    ensures frames.medium.Some? && |frames.medium.value| >= MacdSlow + MacdSignal
    ensures Last(frames.medium.value) < 0.0 && StrictlyDecreasing(LastThree(frames.medium.value))
    ensures frames.fast.Some? && |frames.fast.value| >= WaeMinBars
    ensures Last(frames.fast.value).explosion > Last(frames.fast.value).deadzone && Last(frames.fast.value).trend < 0.0
  {
    assert SlowTrend(frames.slow) == Bearish && MediumTrend(frames.medium) == Bearish && FastTrend(frames.fast) == Bearish;
  }

  /** The frames as seen from the other side of the market: prices, EMA values,
      MACD histogram and WAE trend negated; WAE explosion and dead zone (magnitudes) kept. */
  function MirrorEma(rows: seq<EmaRow>): (r: seq<EmaRow>)
    ensures |r| == |rows|
    ensures forall i :: 0 <= i < |rows| ==> r[i] == EmaRow(-rows[i].close, -rows[i].ema50, -rows[i].ema200)
  {
    if rows == [] then [] else [EmaRow(-rows[0].close, -rows[0].ema50, -rows[0].ema200)] + MirrorEma(rows[1..])
  }

  function MirrorWae(rows: seq<WaeRow>): (r: seq<WaeRow>)
    ensures |r| == |rows|
    ensures forall i :: 0 <= i < |rows| ==> r[i] == WaeRow(rows[i].explosion, -rows[i].trend, rows[i].deadzone)
  {
    if rows == [] then [] else [WaeRow(rows[0].explosion, -rows[0].trend, rows[0].deadzone)] + MirrorWae(rows[1..])
  }

  function MirrorFrames(f: TrendFrames): TrendFrames
  {
    TrendFrames(
      if f.slow.Some? then Some(MirrorEma(f.slow.value)) else None,
      if f.medium.Some? then Some(Negated(f.medium.value)) else None,
      if f.fast.Some? then Some(MirrorWae(f.fast.value)) else None)
  }

  function MirrorState(t: TrendState): TrendState
  {
    match t
    case Bullish => Bearish
    case Bearish => Bullish
    case Neutral => Neutral
  }

  /** Bearish classification on the 15-minute frame is the exact mirror of bullish classification. */
  lemma SlowTrendMirror(f: TrendFrames)
    ensures SlowTrend(MirrorFrames(f).slow) == MirrorState(SlowTrend(f.slow))
  {
  }

  /** Negating a window swaps strictly increasing and strictly decreasing. */
  lemma {:induction false} SlopeMirror(w: seq<real>, mw: seq<real>)
    requires |mw| == |w|
    requires forall i :: 0 <= i < |w| ==> mw[i] == -w[i]
    ensures StrictlyIncreasing(w) <==> StrictlyDecreasing(mw)
    ensures StrictlyDecreasing(w) <==> StrictlyIncreasing(mw)
  {
    if StrictlyIncreasing(w) {
      forall i | 0 <= i < |mw| - 1 ensures mw[i] > mw[i + 1] { assert w[i] < w[i + 1]; }
    }
    if StrictlyDecreasing(mw) {
      forall i | 0 <= i < |w| - 1 ensures w[i] < w[i + 1] { assert mw[i] > mw[i + 1]; }
    }
    if StrictlyDecreasing(w) {
      forall i | 0 <= i < |mw| - 1 ensures mw[i] < mw[i + 1] { assert w[i] > w[i + 1]; }
    }
    if StrictlyIncreasing(mw) {
      forall i | 0 <= i < |w| - 1 ensures w[i] > w[i + 1] { assert mw[i] < mw[i + 1]; }
    }
  }

  /** The same holds of the 5-minute histogram slope rule. */
  lemma {:induction false} MediumTrendMirror(f: TrendFrames)
    ensures MediumTrend(MirrorFrames(f).medium) == MirrorState(MediumTrend(f.medium))
  {
    if f.medium.Some? {
      var h := f.medium.value;
      var mh := Negated(h);
      assert MirrorFrames(f).medium == Some(mh);
      if |h| >= MacdSlow + MacdSignal {
        var l3, ml3 := LastThree(h), LastThree(mh);
        assert forall i :: 0 <= i < |l3| ==> ml3[i] == -l3[i];
        SlopeMirror(l3, ml3);
        assert Last(mh) == -Last(h);
      }
    }
  }

  /** And of the 1-minute WAE rule. */
  lemma FastTrendMirror(f: TrendFrames)
    ensures FastTrend(MirrorFrames(f).fast) == MirrorState(FastTrend(f.fast))
  {
  }

  /** Short-only is the mirror of long-only. */
  lemma {:induction false} TradeModeMirror(f: TrendFrames)
    ensures TradeModeFor(MirrorFrames(f)) ==
      match TradeModeFor(f) case LongOnly => ShortOnly case ShortOnly => LongOnly case NoTrade => NoTrade
  {
    SlowTrendMirror(f);
    MediumTrendMirror(f);
    FastTrendMirror(f);
  }

  /** `get_trend_details`: the three states and the trade mode. The trade mode is
      computed by `get_trade_mode`, which fetches the frames a second time. */
  datatype TrendDetails = TrendDetails(t15: TrendState, t5: TrendState, t1: TrendState, mode: TradeMode)

  function Details(first: TrendFrames, second: TrendFrames): (d: TrendDetails)
    ensures first == second ==> d.mode == TradeModeOf(d.t15, d.t5, d.t1)
    ensures d.t15 == SlowTrend(first.slow) && d.t5 == MediumTrend(first.medium) && d.t1 == FastTrend(first.fast)
  {
    TrendDetails(SlowTrend(first.slow), MediumTrend(first.medium), FastTrend(first.fast), TradeModeFor(second))
  }

  /** Test vectors of the source's suite: two bullish and one neutral give no trade. */
  lemma TwoOfThreeIsNotEnough()
    ensures TradeModeOf(Bullish, Bullish, Neutral) == NoTrade
    ensures TradeModeOf(Bullish, Bearish, Neutral) == NoTrade
    ensures TradeModeOf(Bearish, Bearish, Bearish) == ShortOnly
  {
  }
}
