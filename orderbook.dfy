/** Order-book confirmation gate (strategy/orderbook.py): depth imbalance against
    asymmetric thresholds, adverse-side icebergs, and bid/ask pressure ratios.
    Every answer of the order-book service is an input; a missing order book, a
    falsy answer and a raised exception all fail closed. */
module OrderBook {
  import opened Market

  /** The outcome of one call into the order-book service. */
  datatype Call<T> = Raised | Returned(value: T)

  /** The `side` entry of an iceberg record; anything but "bid" or "ask" (or no entry) is `OtherSide`. */
  datatype IcebergSide = BidSide | AskSide | OtherSide

  datatype Iceberg = Iceberg(side: IcebergSide, price: real, size: real)

  datatype Level = Level(price: real, volume: real)

  /** A depth snapshot; a missing "bids" or "asks" entry is an empty list. */
  datatype Snapshot = Snapshot(bids: seq<Level>, asks: seq<Level>)

  /** What the order-book service answers to each of the three queries.
      `Returned(None)` is an answer that is falsy or lacks the expected field. */
  datatype Feed = Feed(
    imbalance: Call<Option<real>>,
    icebergs: Call<Option<seq<Iceberg>>>,
    snapshot: Call<Option<Snapshot>>)

  /** The analyser's settings, fixed by its constructor. */
  datatype Analyzer = Analyzer(longThreshold: real, shortThreshold: real, depthLevels: nat, icebergCheck: bool)

  const DefaultAnalyzer: Analyzer := Analyzer(1.5, 0.6667, 5, true)

  /** `get_market_imbalance`; `book` is `None` when the suite has no order book. */
  function MarketImbalance(book: Option<Feed>): (r: Option<real>)
    ensures r.Some? <==> book.Some? && book.value.imbalance.Returned? && book.value.imbalance.value.Some?
    ensures r.Some? ==> r.value == book.value.imbalance.value.value
  {
    if book.None? then None
    else match book.value.imbalance
      case Raised => None
      case Returned(answer) => answer
  }

  /** `detect_icebergs`: the reported iceberg levels, or the empty list on any failure. */
  function DetectIcebergs(book: Option<Feed>): (r: seq<Iceberg>)
    ensures book.Some? && book.value.icebergs.Returned? && book.value.icebergs.value.Some? ==>
      r == book.value.icebergs.value.value
    ensures !(book.Some? && book.value.icebergs.Returned? && book.value.icebergs.value.Some?) ==> r == []
  {
    if book.None? then []
    else match book.value.icebergs
      case Raised => []
      case Returned(answer) => if answer.Some? then answer.value else []
  }

  /** The side whose icebergs block an entry: asks for a long, bids for a short. */
  function AdverseSide(dir: Direction): IcebergSide
  {
    if dir == Long then AskSide else BidSide
  }

  /** The icebergs on one side, in reported order. */
  function OnSide(icebergs: seq<Iceberg>, side: IcebergSide): (r: seq<Iceberg>)
    ensures |r| <= |icebergs|
    ensures forall k :: 0 <= k < |r| ==> r[k].side == side
  {
    if icebergs == [] then []
    else (if icebergs[0].side == side then [icebergs[0]] else []) + OnSide(icebergs[1..], side)
  }

  /** The filter is empty exactly when no iceberg sits on that side. */
  lemma {:induction false} OnSideEmptyIff(icebergs: seq<Iceberg>, side: IcebergSide)
    ensures OnSide(icebergs, side) == [] <==> forall k :: 0 <= k < |icebergs| ==> icebergs[k].side != side
  {
    if icebergs != [] {
      OnSideEmptyIff(icebergs[1..], side);
      assert forall k :: 1 <= k < |icebergs| ==> icebergs[k] == icebergs[1..][k - 1];
    }
  }

  /** The filter keeps every iceberg of that side, as often as it is reported, and no other;
      so the reported count is the number of icebergs on that side. */
  lemma {:induction false} OnSideKeepsAll(icebergs: seq<Iceberg>, side: IcebergSide)
    ensures forall x :: multiset(OnSide(icebergs, side))[x] == (if x.side == side then multiset(icebergs)[x] else 0)
  {
    if icebergs != [] {
      OnSideKeepsAll(icebergs[1..], side);
      assert icebergs == [icebergs[0]] + icebergs[1..];
    }
  }

  /** Whether the imbalance clears the direction's threshold; equality passes on both sides. */
  predicate ImbalanceSufficient(a: Analyzer, dir: Direction, imbalance: real)
  {
    if dir == Long then imbalance >= a.longThreshold else imbalance <= a.shortThreshold
  }

  datatype Reason =
    | DataUnavailable
    | InsufficientImbalance(observed: real, threshold: real)
    | AdverseIcebergs(count: nat)
    | EntryConfirmed(observed: real)

  /** The `confirmation` dictionary. */
  datatype Confirmation = Confirmation(imbalance: Option<real>, icebergs: seq<Iceberg>, confirmed: bool, reason: Reason)

  /** `confirm_long_entry` / `confirm_short_entry` as a specification. */
  function ConfirmationOf(a: Analyzer, dir: Direction, book: Option<Feed>): (c: Confirmation)
    ensures c.confirmed ==> c.imbalance.Some? && c.reason.EntryConfirmed?
    ensures c.imbalance == MarketImbalance(book)
  {
    var imbalance := MarketImbalance(book);
    if imbalance.None? then Confirmation(None, [], false, DataUnavailable)
    else if !ImbalanceSufficient(a, dir, imbalance.value) then
      Confirmation(imbalance, [], false,
        InsufficientImbalance(imbalance.value, if dir == Long then a.longThreshold else a.shortThreshold))
    else if a.icebergCheck && OnSide(DetectIcebergs(book), AdverseSide(dir)) != [] then
      Confirmation(imbalance, DetectIcebergs(book), false, AdverseIcebergs(|OnSide(DetectIcebergs(book), AdverseSide(dir))|))
    else
      Confirmation(imbalance, if a.icebergCheck then DetectIcebergs(book) else [], true, EntryConfirmed(imbalance.value))
  }

  /** The confirmation, built as the source builds its dictionary: start from the
      defaults and set each field before returning. */
  method ConfirmEntry(a: Analyzer, dir: Direction, book: Option<Feed>) returns (ok: bool, c: Confirmation)
    ensures c == ConfirmationOf(a, dir, book)
    ensures ok == c.confirmed
  {
    c := Confirmation(None, [], false, DataUnavailable);
    var imbalance := MarketImbalance(book);
    if imbalance.None? {
      c := c.(reason := DataUnavailable);
      return false, c;
    }
    c := c.(imbalance := imbalance);
    var threshold := if dir == Long then a.longThreshold else a.shortThreshold;
    var insufficient := if dir == Long then imbalance.value < threshold else imbalance.value > threshold;
    if insufficient {
      c := c.(reason := InsufficientImbalance(imbalance.value, threshold));
      return false, c;
    }
    if a.icebergCheck {
      var icebergs := DetectIcebergs(book);
      c := c.(icebergs := icebergs);
      var adverse := OnSide(icebergs, AdverseSide(dir));
      if adverse != [] {
        c := c.(reason := AdverseIcebergs(|adverse|));
        return false, c;
      }
    }
    c := c.(confirmed := true, reason := EntryConfirmed(imbalance.value));
    ok := true;
  }

  /** An entry is confirmed exactly when an imbalance is available, it clears the
      threshold, and (with the iceberg check on) no iceberg sits on the adverse side. */
  lemma {:induction false} ConfirmedIff(a: Analyzer, dir: Direction, book: Option<Feed>)
    ensures ConfirmationOf(a, dir, book).confirmed <==>
      MarketImbalance(book).Some? && ImbalanceSufficient(a, dir, MarketImbalance(book).value) &&
      (a.icebergCheck ==> forall k :: 0 <= k < |DetectIcebergs(book)| ==> DetectIcebergs(book)[k].side != AdverseSide(dir))
  {
    OnSideEmptyIff(DetectIcebergs(book), AdverseSide(dir));
  }

  /** Fail closed: without an order book, or when the imbalance query raises, nothing is confirmed. */
  lemma UnavailableRejects(a: Analyzer, dir: Direction, book: Option<Feed>)
    requires book.None? || book.value.imbalance.Raised? || book.value.imbalance == Returned(None)
    ensures ConfirmationOf(a, dir, book) == Confirmation(None, [], false, DataUnavailable)
  {
  }

  /** The default thresholds: a long needs at least 1.5 and a short at most 0.6667, the
      threshold itself passing; 1.2 is too little for a long and 0.8 too much for a short. */
  lemma DefaultThresholds()
    ensures ImbalanceSufficient(DefaultAnalyzer, Long, 1.5) && ImbalanceSufficient(DefaultAnalyzer, Long, 1.8)
    ensures !ImbalanceSufficient(DefaultAnalyzer, Long, 1.2)
    ensures ImbalanceSufficient(DefaultAnalyzer, Short, 0.6667) && ImbalanceSufficient(DefaultAnalyzer, Short, 0.5)
    ensures !ImbalanceSufficient(DefaultAnalyzer, Short, 0.8)
  {
  }

  /** Icebergs on the favourable side never block: the decision depends only on the
      adverse-side icebergs. */
  lemma {:induction false} OnlyAdverseIcebergsMatter(a: Analyzer, dir: Direction, book: Option<Feed>, other: Option<Feed>)
    requires MarketImbalance(other) == MarketImbalance(book)
    requires OnSide(DetectIcebergs(other), AdverseSide(dir)) == OnSide(DetectIcebergs(book), AdverseSide(dir))
    ensures ConfirmationOf(a, dir, other).confirmed == ConfirmationOf(a, dir, book).confirmed
    ensures ConfirmationOf(a, dir, other).reason == ConfirmationOf(a, dir, book).reason
  {
  }

  /** Turning the iceberg check off can only confirm more entries. */
  lemma IcebergCheckOnlyRestricts(a: Analyzer, dir: Direction, book: Option<Feed>)
    ensures ConfirmationOf(a, dir, book).confirmed ==> ConfirmationOf(a.(icebergCheck := false), dir, book).confirmed
  {
  }

  /** Total volume of a side of the book. */
  function Sum(levels: seq<Level>): real
  {
    if levels == [] then 0.0 else levels[0].volume + Sum(levels[1..])
  }

  lemma {:induction false} SumNonNegative(levels: seq<Level>)
    requires forall k :: 0 <= k < |levels| ==> levels[k].volume >= 0.0
    ensures Sum(levels) >= 0.0
  {
    if levels != [] {
      assert forall k :: 0 <= k < |levels[1..]| ==> levels[1..][k] == levels[k + 1];
      SumNonNegative(levels[1..]);
    }
  }

  datatype Volumes = Volumes(bid: real, ask: real)

  /** The pressure dictionary; the volumes are only reported alongside real ratios. */
  datatype Pressure = Pressure(bidPressure: real, askPressure: real, netPressure: real, volumes: Option<Volumes>)

  const NoPressure: Pressure := Pressure(0.0, 0.0, 0.0, None)

  /** The two volume shares of a non-zero total add up to one, and each scales back to its volume. */
  lemma Shares(bid: real, ask: real)
    requires bid + ask != 0.0
    ensures bid / (bid + ask) + ask / (bid + ask) == 1.0
    ensures (bid / (bid + ask)) * (bid + ask) == bid && (ask / (bid + ask)) * (bid + ask) == ask
  {
  }

  /** `get_orderbook_pressure`. */
  function OrderBookPressure(book: Option<Feed>): (p: Pressure)
    ensures p.volumes.None? ==> p == NoPressure
    ensures p.volumes.Some? ==>
      p.volumes.value.bid + p.volumes.value.ask != 0.0 &&
      p.bidPressure + p.askPressure == 1.0 && p.netPressure == p.bidPressure - p.askPressure &&
      p.bidPressure * (p.volumes.value.bid + p.volumes.value.ask) == p.volumes.value.bid &&
      p.askPressure * (p.volumes.value.bid + p.volumes.value.ask) == p.volumes.value.ask
  {
    if book.None? || book.value.snapshot.Raised? || book.value.snapshot.value.None? then NoPressure
    else
      var snap := book.value.snapshot.value.value;
      var bid, ask := Sum(snap.bids), Sum(snap.asks);
      var total := bid + ask;
      if total == 0.0 then NoPressure
      else
        var bp, ap := bid / total, ask / total;
        Shares(bid, ask);
        Pressure(bp, ap, bp - ap, Some(Volumes(bid, ask)))
  }

  /** The reported volumes are the sums of the snapshot's level volumes, and ratios are
      reported exactly when a snapshot arrives with non-zero total volume. */
  lemma PressureVolumes(book: Option<Feed>)
    ensures var p := OrderBookPressure(book);
      p.volumes.Some? <==>
        book.Some? && book.value.snapshot.Returned? && book.value.snapshot.value.Some? &&
        Sum(book.value.snapshot.value.value.bids) + Sum(book.value.snapshot.value.value.asks) != 0.0
    ensures var p := OrderBookPressure(book);
      p.volumes.Some? ==>
        p.volumes.value == Volumes(Sum(book.value.snapshot.value.value.bids), Sum(book.value.snapshot.value.value.asks))
  {
  }

  /** With non-negative level volumes both ratios lie in [0, 1] and the net pressure in [-1, 1]. */
  lemma {:induction false} PressureBounds(book: Option<Feed>)
    requires book.Some? && book.value.snapshot.Returned? && book.value.snapshot.value.Some?
    requires var s := book.value.snapshot.value.value;
      (forall k :: 0 <= k < |s.bids| ==> s.bids[k].volume >= 0.0) &&
      (forall k :: 0 <= k < |s.asks| ==> s.asks[k].volume >= 0.0)
    ensures var p := OrderBookPressure(book);
      0.0 <= p.bidPressure <= 1.0 && 0.0 <= p.askPressure <= 1.0 && -1.0 <= p.netPressure <= 1.0
  {
    var s := book.value.snapshot.value.value;
    SumNonNegative(s.bids);
    SumNonNegative(s.asks);
    var p := OrderBookPressure(book);
    if p.volumes.Some? {
      var bid, ask := Sum(s.bids), Sum(s.asks);
      assert bid + ask > 0.0;
      assert p.bidPressure * (bid + ask) == bid;
      assert p.askPressure * (bid + ask) == ask;
    }
  }

  /** Exchanging the two sides of the book exchanges the ratios and negates the net pressure. */
  lemma PressureMirror(book: Feed, snap: Snapshot)
    requires book.snapshot == Returned(Some(snap))
    ensures var p := OrderBookPressure(Some(book));
      var q := OrderBookPressure(Some(book.(snapshot := Returned(Some(Snapshot(snap.asks, snap.bids))))));
      q.bidPressure == p.askPressure && q.askPressure == p.bidPressure && q.netPressure == -p.netPressure
  {
  }
}
