/**
 Replaying recorded market data (backtest/replay_loader.py): bisected lookups over sorted series agree
 with plain filters, and no snapshot sees a row stamped after it.
 */
module ReplayLoader {
  import opened Prelude
  import opened Sorting
  import Calendar

  datatype Row<T> = Row(at: int, value: T)

  datatype Bar = Bar(open: real, high: real, low: real, close: real, volume: real)

  datatype Agg = Agg(takerBuyVolume: real, takerSellVolume: real, tfi: real, cvd: real)

  datatype ForceOrder = ForceOrder(buy: bool, qty: real, price: real)

  datatype Bias = Bias(etfBias5d: Option<real>, dxyClose: Option<real>)

  const NO_BIAS := Bias(None, None)

  datatype ReplayLoaderConfig = ReplayLoaderConfig(
    candles15mLookback: int,
    candles1hLookback: int,
    candles4hLookback: int,
    fundingLookback: int)

  /** The recorded rows, each kind in time order; the bias rows are stamped with a date. */
  datatype Database = Database(
    candles15m: seq<Row<Bar>>,
    candles1h: seq<Row<Bar>>,
    candles4h: seq<Row<Bar>>,
    funding: seq<Row<real>>,
    openInterest: seq<Row<real>>,
    agg15m: seq<Row<Agg>>,
    agg60s: seq<Row<Agg>>,
    forceOrders: seq<Row<ForceOrder>>,
    bias: seq<Row<Bias>>)

  datatype Series<T> = Series(timestamps: seq<int>, rows: seq<Row<T>>)

  datatype Preloaded = Preloaded(
    candles15m: Series<Bar>,
    candles1h: Series<Bar>,
    candles4h: Series<Bar>,
    funding: Series<real>,
    openInterest: Series<real>,
    agg15m: Series<Agg>,
    agg60s: Series<Agg>,
    agg15mExact: map<int, Row<Agg>>,
    agg60sExact: map<int, Row<Agg>>,
    forceOrders: Series<ForceOrder>,
    bias: Series<Bias>)

  datatype MarketSnapshot = MarketSnapshot(
    timestamp: int,
    price: real,
    candles15m: seq<Row<Bar>>,
    candles1h: seq<Row<Bar>>,
    candles4h: seq<Row<Bar>>,
    fundingHistory: seq<Row<real>>,
    openInterest: real,
    agg60s: Option<Row<Agg>>,
    agg15m: Option<Row<Agg>>,
    forceOrders60s: seq<Row<ForceOrder>>,
    bias: Bias)

  ghost predicate InOrder<T>(rows: seq<Row<T>>) {
    forall i, j | 0 <= i < j < |rows| :: rows[i].at <= rows[j].at
  }

  ghost predicate Ordered(db: Database) {
    && InOrder(db.candles15m) && InOrder(db.candles1h) && InOrder(db.candles4h)
    && InOrder(db.funding) && InOrder(db.openInterest)
    && InOrder(db.agg15m) && InOrder(db.agg60s)
    && InOrder(db.forceOrders) && InOrder(db.bias)
  }

  // ---------------------------------------------------------------- plain filters

  function UpTo<T>(rows: seq<Row<T>>, t: int): seq<Row<T>> {
    Keep(rows, (r: Row<T>) => r.at <= t)
  }

  function LastRows<T>(rows: seq<Row<T>>, limit: int): seq<Row<T>> {
    if limit <= 0 then [] else if |rows| <= limit then rows else rows[|rows| - limit..]
  }

  function Latest<T>(rows: seq<Row<T>>): Option<Row<T>> {
    if |rows| == 0 then None else Some(rows[|rows| - 1])
  }

  function ExactOrLatest<T>(rows: seq<Row<T>>, at: int, fallback: int): Option<Row<T>> {
    var exact := Keep(rows, (r: Row<T>) => r.at == at);
    if |exact| > 0 then Latest(exact) else Latest(UpTo(rows, fallback))
  }

  function Within<T>(rows: seq<Row<T>>, after: int, t: int): seq<Row<T>> {
    Keep(rows, (r: Row<T>) => after < r.at <= t)
  }

  function Floor60s(t: int): int {
    t - t % Calendar.MINUTE
  }

  const BAR := 15 * Calendar.MINUTE
  const FOUR_HOURS := 4 * Calendar.HOUR

  /** What a snapshot should hold, said with filters over the whole database. */
  function SnapshotOf(db: Database, config: ReplayLoaderConfig, candle: Row<Bar>): MarketSnapshot {
    var t := candle.at + BAR;
    var oi, bias := Latest(UpTo(db.openInterest, t)), Latest(UpTo(db.bias, Calendar.Date(t)));
    MarketSnapshot(
      t, candle.value.close,
      LastRows(UpTo(db.candles15m, candle.at), config.candles15mLookback),
      LastRows(UpTo(db.candles1h, t), config.candles1hLookback),
      LastRows(UpTo(db.candles4h, t), config.candles4hLookback),
      LastRows(UpTo(db.funding, t), config.fundingLookback),
      if oi.Some? then oi.value.value else 0.0,
      ExactOrLatest(db.agg60s, Floor60s(t - Calendar.SECOND), t),
      ExactOrLatest(db.agg15m, candle.at, t),
      Within(db.forceOrders, t - Calendar.MINUTE, t),
      if bias.Some? then bias.value.value else NO_BIAS)
  }

  function InRange(start: int, end: int): Row<Bar> -> bool {
    (c: Row<Bar>) => start <= c.at + BAR <= end
  }

  function SnapshotsOf(db: Database, config: ReplayLoaderConfig, candles: seq<Row<Bar>>): seq<MarketSnapshot> {
    seq(|candles|, k requires 0 <= k < |candles| => SnapshotOf(db, config, candles[k]))
  }

  /** A replay over the given rows: one snapshot for every bar that closes in the range. */
  function Replayed(db: Database, config: ReplayLoaderConfig, start: int, end: int): seq<MarketSnapshot> {
    SnapshotsOf(db, config, Keep(db.candles15m, InRange(start, end)))
  }

  // ---------------------------------------------------------------- bisection

  ghost predicate NonDecreasing(ts: seq<int>) {
    forall i, j | 0 <= i < j < |ts| :: ts[i] <= ts[j]
  }

  /** `bisect_right` between two positions: everything before the answer is at most `x`, everything from it on is
      greater. */
  function BisectBetween(ts: seq<int>, x: int, lo: nat, hi: nat): (k: nat)
    requires lo <= hi <= |ts| && NonDecreasing(ts)
    requires forall i | 0 <= i < lo :: ts[i] <= x
    requires forall i | hi <= i < |ts| :: ts[i] > x
    ensures k <= |ts|
    ensures forall i | 0 <= i < k :: ts[i] <= x
    ensures forall i | k <= i < |ts| :: ts[i] > x
    decreases hi - lo
  {
    if lo == hi then lo
    else
      var mid := (lo + hi) / 2;
      if x < ts[mid] then BisectBetween(ts, x, lo, mid) else BisectBetween(ts, x, mid + 1, hi)
  }

  function BisectRight(ts: seq<int>, x: int): (k: nat)
    requires NonDecreasing(ts)
    ensures k <= |ts|
    ensures forall i | 0 <= i < k :: ts[i] <= x
    ensures forall i | k <= i < |ts| :: ts[i] > x
  {
    BisectBetween(ts, x, 0, |ts|)
  }

  lemma BisectGrows(ts: seq<int>, x: int, y: int)
    requires NonDecreasing(ts) && x <= y
    ensures BisectRight(ts, x) <= BisectRight(ts, y)
  {
    var k := BisectRight(ts, y);
    assert k < |ts| ==> ts[k] > y;
  }

  function Times<T>(rows: seq<Row<T>>): seq<int> {
    seq(|rows|, i requires 0 <= i < |rows| => rows[i].at)
  }

  ghost predicate Indexes<T(!new)>(series: Series<T>, rows: seq<Row<T>>) {
    series.rows == rows && series.timestamps == Times(rows) && InOrder(rows) && NonDecreasing(series.timestamps)
  }

  lemma BisectOnRows<T(!new)>(series: Series<T>, rows: seq<Row<T>>, t: int)
    requires Indexes(series, rows)
    ensures BisectRight(series.timestamps, t) <= |rows|
    ensures forall i | 0 <= i < |rows| :: rows[i].at <= t <==> i < BisectRight(series.timestamps, t)
  {
    forall i | 0 <= i < |rows| ensures rows[i].at <= t <==> i < BisectRight(series.timestamps, t) {
      assert series.timestamps[i] == rows[i].at;
    }
  }

  lemma BisectIsFilter<T(!new)>(series: Series<T>, rows: seq<Row<T>>, t: int)
    requires Indexes(series, rows)
    ensures BisectRight(series.timestamps, t) <= |rows|
    ensures UpTo(rows, t) == rows[..BisectRight(series.timestamps, t)]
  {
    hide Keep;
    BisectOnRows(series, rows, t);
    KeepStretch(rows, (r: Row<T>) => r.at <= t, 0, BisectRight(series.timestamps, t));
  }

  // ---------------------------------------------------------------- the lookups

  function SliceLookback<T(!new)>(series: Series<T>, ghost rows: seq<Row<T>>, upToTime: int,
                                  limit: int): (r: seq<Row<T>>)
    requires Indexes(series, rows)
    ensures r == LastRows(UpTo(rows, upToTime), limit)
  {
    BisectIsFilter(series, rows, upToTime);
    if limit <= 0 then []
    else
      var upper := BisectRight(series.timestamps, upToTime);
      var lower := MaxInt(0, upper - limit);
      series.rows[lower..upper]
  }

  function LatestUpTo<T(!new)>(series: Series<T>, ghost rows: seq<Row<T>>, t: int): (r: Option<Row<T>>)
    requires Indexes(series, rows)
    ensures r == Latest(UpTo(rows, t))
  {
    BisectIsFilter(series, rows, t);
    var index := BisectRight(series.timestamps, t) - 1;
    if index < 0 then None else Some(series.rows[index])
  }

  /** The index by exact time holds the last row of every time. */
  ghost predicate IndexesExactly<T(!new)>(exact: map<int, Row<T>>, rows: seq<Row<T>>) {
    && (forall t :: t in exact <==> exists r | r in rows :: r.at == t)
    && (forall t | t in exact :: Latest(Keep(rows, (r: Row<T>) => r.at == t)) == Some(exact[t]))
  }

  function ResolveAggBucket(series: Series<Agg>, exact: map<int, Row<Agg>>, ghost rows: seq<Row<Agg>>, atTime: int,
                            fallbackTime: int): (r: Option<Row<Agg>>)
    requires Indexes(series, rows) && IndexesExactly(exact, rows)
    ensures r == ExactOrLatest(rows, atTime, fallbackTime)
  {
    assert atTime !in exact ==> Keep(rows, (r: Row<Agg>) => r.at == atTime) == [] by {
      if atTime !in exact {
        KeepNone(rows, (r: Row<Agg>) => r.at == atTime);
      }
    }
    if atTime in exact then Some(exact[atTime]) else LatestUpTo(series, rows, fallbackTime)
  }

  function ForceOrdersWindow(series: Series<ForceOrder>, ghost rows: seq<Row<ForceOrder>>,
                             endTime: int): (r: seq<Row<ForceOrder>>)
    requires Indexes(series, rows)
    ensures r == Within(rows, endTime - Calendar.MINUTE, endTime)
  {
    var lower := BisectRight(series.timestamps, endTime - Calendar.MINUTE);
    var upper := BisectRight(series.timestamps, endTime);
    BisectOnRows(series, rows, endTime - Calendar.MINUTE);
    BisectOnRows(series, rows, endTime);
    BisectGrows(series.timestamps, endTime - Calendar.MINUTE, endTime);
    KeepStretch(rows, (r: Row<ForceOrder>) => endTime - Calendar.MINUTE < r.at <= endTime, lower, upper);
    series.rows[lower..upper]
  }

  // ---------------------------------------------------------------- preloading

  ghost predicate Loads(data: Preloaded, db: Database) {
    && Indexes(data.candles15m, db.candles15m) && Indexes(data.candles1h, db.candles1h)
    && Indexes(data.candles4h, db.candles4h)
    && Indexes(data.funding, db.funding) && Indexes(data.openInterest, db.openInterest)
    && Indexes(data.agg15m, db.agg15m) && Indexes(data.agg60s, db.agg60s)
    && IndexesExactly(data.agg15mExact, db.agg15m) && IndexesExactly(data.agg60sExact, db.agg60s)
    && Indexes(data.forceOrders, db.forceOrders) && Indexes(data.bias, db.bias)
  }

  method LoadSeries<T(!new)>(rows: seq<Row<T>>) returns (series: Series<T>)
    requires InOrder(rows)
    ensures Indexes(series, rows)
  {
    var loaded: seq<Row<T>>, times: seq<int> := [], [];
    for i := 0 to |rows|
      invariant loaded == rows[..i] && |times| == i
      invariant forall k | 0 <= k < i :: times[k] == rows[k].at
    {
      loaded := loaded + [rows[i]];
      times := times + [rows[i].at];
    }
    series := Series(times, loaded);
  }

  method LoadExact(rows: seq<Row<Agg>>) returns (exact: map<int, Row<Agg>>)
    ensures IndexesExactly(exact, rows)
  {
    hide Keep;
    exact := map[];
    NothingIndexed();
    for i := 0 to |rows|
      invariant IndexesExactly(exact, rows[..i])
    {
      Overwrites(exact, rows, i);
      exact := exact[rows[i].at := rows[i]];
    }
    assert rows[..|rows|] == rows;
  }

  lemma NothingIndexed()
    ensures IndexesExactly<Agg>(map[], [])
  {
  }

  lemma Overwrites(exact: map<int, Row<Agg>>, rows: seq<Row<Agg>>, i: nat)
    requires i < |rows| && IndexesExactly(exact, rows[..i])
    ensures IndexesExactly(exact[rows[i].at := rows[i]], rows[..i + 1])
  {
    hide Keep;
    var longer := exact[rows[i].at := rows[i]];
    assert rows[..i + 1] == rows[..i] + [rows[i]];
    forall t | t in longer ensures Latest(Keep(rows[..i + 1], (r: Row<Agg>) => r.at == t)) == Some(longer[t]) {
      KeepSnoc(rows[..i], rows[i], (r: Row<Agg>) => r.at == t);
    }
  }

  /** The earliest bar open time that is asked for: before the start by the longest of the three lookbacks. */
  function LookbackStart(config: ReplayLoaderConfig, start: int): int {
    MinInt(start - BAR * MaxInt(config.candles15mLookback, 0),
           MinInt(start - Calendar.HOUR * MaxInt(config.candles1hLookback, 0),
                  start - FOUR_HOURS * MaxInt(config.candles4hLookback, 0)))
  }

  function Opened(rows: seq<Row<Bar>>, from: int, to: int): seq<Row<Bar>> {
    Keep(rows, (r: Row<Bar>) => from <= r.at <= to)
  }

  /** The answers to the queries: bars from the lookback on, forced orders from a minute before the start,
      everything else from the beginning, and all of it up to the end. */
  function Selected(db: Database, config: ReplayLoaderConfig, start: int, end: int): Database {
    var from := LookbackStart(config, start);
    Database(
      Opened(db.candles15m, from, end), Opened(db.candles1h, from, end), Opened(db.candles4h, from, end),
      UpTo(db.funding, end), UpTo(db.openInterest, end), UpTo(db.agg15m, end), UpTo(db.agg60s, end),
      Within(db.forceOrders, start - Calendar.MINUTE, end), UpTo(db.bias, Calendar.Date(end)))
  }

  lemma {:induction false} KeepInOrder<T(!new)>(rows: seq<Row<T>>, p: Row<T> -> bool)
    requires InOrder(rows)
    ensures InOrder(Keep(rows, p))
  {
    KeepKeepsOrder(rows, p, (a: Row<T>, b: Row<T>) => a.at <= b.at);
  }

  lemma SelectedInOrder(db: Database, config: ReplayLoaderConfig, start: int, end: int)
    requires Ordered(db)
    ensures Ordered(Selected(db, config, start, end))
  {
    hide Keep, InOrder;
    var bar := (r: Row<Bar>) => LookbackStart(config, start) <= r.at <= end;
    KeepInOrder(db.candles15m, bar);
    KeepInOrder(db.candles1h, bar);
    KeepInOrder(db.candles4h, bar);
    KeepInOrder(db.funding, (r: Row<real>) => r.at <= end);
    KeepInOrder(db.openInterest, (r: Row<real>) => r.at <= end);
    KeepInOrder(db.agg15m, (r: Row<Agg>) => r.at <= end);
    KeepInOrder(db.agg60s, (r: Row<Agg>) => r.at <= end);
    KeepInOrder(db.forceOrders, (r: Row<ForceOrder>) => start - Calendar.MINUTE < r.at <= end);
    KeepInOrder(db.bias, (r: Row<Bias>) => r.at <= Calendar.Date(end));
  }

  method Preload(recorded: Database, config: ReplayLoaderConfig, start: int, end: int) returns (data: Preloaded)
    requires Ordered(recorded)
    ensures Loads(data, Selected(recorded, config, start, end))
  {
    hide Indexes, IndexesExactly, InOrder, Selected;
    var db := Selected(recorded, config, start, end);
    SelectedInOrder(recorded, config, start, end);
    var candles15m := LoadSeries(db.candles15m);
    var candles1h := LoadSeries(db.candles1h);
    var candles4h := LoadSeries(db.candles4h);
    var funding := LoadSeries(db.funding);
    var openInterest := LoadSeries(db.openInterest);
    var agg15m := LoadSeries(db.agg15m);
    var agg60s := LoadSeries(db.agg60s);
    var agg15mExact := LoadExact(db.agg15m);
    var agg60sExact := LoadExact(db.agg60s);
    var forceOrders := LoadSeries(db.forceOrders);
    var bias := LoadSeries(db.bias);
    data := Preloaded(candles15m, candles1h, candles4h, funding, openInterest, agg15m, agg60s, agg15mExact,
                      agg60sExact, forceOrders, bias);
  }

  // ---------------------------------------------------------------- replay

  function BuildSnapshot(data: Preloaded, ghost db: Database, config: ReplayLoaderConfig,
                         candle: Row<Bar>): (s: MarketSnapshot)
    requires Loads(data, db)
    ensures s == SnapshotOf(db, config, candle)
  {
    hide Keep, Indexes, IndexesExactly, UpTo, LastRows, ExactOrLatest, Within, Latest;
    var t := candle.at + BAR;
    var oi, bias := LatestUpTo(data.openInterest, db.openInterest, t), LatestUpTo(data.bias, db.bias, Calendar.Date(t));
    MarketSnapshot(
      t, candle.value.close,
      SliceLookback(data.candles15m, db.candles15m, candle.at, config.candles15mLookback),
      SliceLookback(data.candles1h, db.candles1h, t, config.candles1hLookback),
      SliceLookback(data.candles4h, db.candles4h, t, config.candles4hLookback),
      SliceLookback(data.funding, db.funding, t, config.fundingLookback),
      if oi.Some? then oi.value.value else 0.0,
      ResolveAggBucket(data.agg60s, data.agg60sExact, db.agg60s, Floor60s(t - Calendar.SECOND), t),
      ResolveAggBucket(data.agg15m, data.agg15mExact, db.agg15m, candle.at, t),
      ForceOrdersWindow(data.forceOrders, db.forceOrders, t),
      if bias.Some? then bias.value.value else NO_BIAS)
  }

  method IterSnapshots(recorded: Database, config: ReplayLoaderConfig, start: int, end: int)
    returns (snapshots: seq<MarketSnapshot>)
    requires Ordered(recorded)
    ensures snapshots == Replayed(Selected(recorded, config, start, end), config, start, end)
  {
    hide BuildSnapshot, SnapshotOf, Keep, Indexes, Loads, Selected;
    ghost var db := Selected(recorded, config, start, end);
    snapshots := [];
    if end < start {
      KeepNone(db.candles15m, InRange(start, end));
      return;
    }
    var data := Preload(recorded, config, start, end);
    LoadsCandles(data, db);
    var candles := data.candles15m.rows;
    KeepNone(candles[..0], InRange(start, end));
    for i := 0 to |candles|
      invariant snapshots == SnapshotsOf(db, config, Keep(candles[..i], InRange(start, end)))
    {
      var candle := candles[i];
      assert candles[..i + 1] == candles[..i] + [candle];
      KeepSnoc(candles[..i], candle, InRange(start, end));
      var snapshotTs := candle.at + BAR;
      if snapshotTs < start || snapshotTs > end {
        continue;
      }
      snapshots := snapshots + [BuildSnapshot(data, db, config, candle)];
    }
    assert candles[..|candles|] == candles;
  }

  lemma LoadsCandles(data: Preloaded, db: Database)
    requires Loads(data, db)
    ensures data.candles15m.rows == db.candles15m
  {
  }

  // ---------------------------------------------------------------- no look-ahead

  ghost predicate NoneAfter<T(!new)>(rows: seq<Row<T>>, t: int) {
    forall r | r in rows :: r.at <= t
  }

  lemma LastRowsBound<T(!new)>(rows: seq<Row<T>>, t: int, limit: int)
    ensures NoneAfter(LastRows(UpTo(rows, t), limit), t)
  {
    hide Keep;
    forall r | r in LastRows(UpTo(rows, t), limit) ensures r.at <= t {
      KeepMember(rows, (x: Row<T>) => x.at <= t, r);
    }
  }

  lemma ExactOrLatestBound<T(!new)>(rows: seq<Row<T>>, at: int, fallback: int)
    requires at <= fallback
    ensures ExactOrLatest(rows, at, fallback).Some? ==> ExactOrLatest(rows, at, fallback).value.at <= fallback
  {
    hide Keep;
    var found := ExactOrLatest(rows, at, fallback);
    if found.Some? {
      KeepMember(rows, (x: Row<T>) => x.at == at, found.value);
      KeepMember(rows, (x: Row<T>) => x.at <= fallback, found.value);
    }
  }

  lemma LatestBound<T(!new)>(rows: seq<Row<T>>, t: int)
    ensures Latest(UpTo(rows, t)).Some? ==> Latest(UpTo(rows, t)).value in rows && Latest(UpTo(rows, t)).value.at <= t
  {
    hide Keep;
    if Latest(UpTo(rows, t)).Some? {
      KeepMember(rows, (x: Row<T>) => x.at <= t, Latest(UpTo(rows, t)).value);
    }
  }

  /** No row stamped after the snapshot enters it; its own bars have all closed by then, and the force
      orders are those of the last sixty seconds. */
  lemma SnapshotSeesNoFuture(db: Database, config: ReplayLoaderConfig, candle: Row<Bar>)
    ensures var s := SnapshotOf(db, config, candle);
            && NoneAfter(s.candles15m, s.timestamp - BAR)
            && NoneAfter(s.candles1h, s.timestamp) && NoneAfter(s.candles4h, s.timestamp)
            && NoneAfter(s.fundingHistory, s.timestamp)
            && (s.openInterest == 0.0 || exists r | r in db.openInterest ::
                r.at <= s.timestamp && r.value == s.openInterest)
            && (s.bias == NO_BIAS || exists r | r in db.bias :: r.at <= Calendar.Date(s.timestamp) && r.value == s.bias)
            && (s.agg60s.Some? ==> s.agg60s.value.at <= s.timestamp)
            && (s.agg15m.Some? ==> s.agg15m.value.at <= s.timestamp)
            && (forall o ::
                  o in s.forceOrders60s
                  <==> o in db.forceOrders && s.timestamp - Calendar.MINUTE < o.at <= s.timestamp)
  {
    hide Keep, UpTo, LastRows, ExactOrLatest, NoneAfter;
    var t := candle.at + BAR;
    LastRowsBound(db.candles15m, candle.at, config.candles15mLookback);
    LastRowsBound(db.candles1h, t, config.candles1hLookback);
    LastRowsBound(db.candles4h, t, config.candles4hLookback);
    LastRowsBound(db.funding, t, config.fundingLookback);
    LatestBound(db.openInterest, t);
    LatestBound(db.bias, Calendar.Date(t));
    ExactOrLatestBound(db.agg60s, Floor60s(t - Calendar.SECOND), t);
    ExactOrLatestBound(db.agg15m, candle.at, t);
    forall o ensures o in Within(db.forceOrders, t - Calendar.MINUTE, t)
        <==> o in db.forceOrders && t - Calendar.MINUTE < o.at <= t {
      KeepMember(db.forceOrders, (x: Row<ForceOrder>) => t - Calendar.MINUTE < x.at <= t, o);
    }
  }

  function Sooner(a: Row<Bar>, b: Row<Bar>): bool {
    a.at < b.at
  }

  function NoLater(a: Row<Bar>, b: Row<Bar>): bool {
    a.at <= b.at
  }

  /** When the bars' open times rise, so do the snapshots' times. */
  lemma SnapshotsRise(db: Database, config: ReplayLoaderConfig, start: int, end: int)
    requires forall i, j | 0 <= i < j < |db.candles15m| :: db.candles15m[i].at < db.candles15m[j].at
    ensures var s := Replayed(db, config, start, end);
            forall i, j | 0 <= i < j < |s| :: s[i].timestamp < s[j].timestamp
  {
    hide Keep;
    KeepKeepsOrder(db.candles15m, InRange(start, end), Sooner);
  }

  /**
   The hourly and four-hourly bars are looked up by their open time, so a snapshot shows a bar that is
   still open, with the high, low and close it will only have later, just when one was recorded that
   opened within the span before it.
   */
  lemma UnfinishedBarShown(rows: seq<Row<Bar>>, t: int, span: int, limit: int)
    requires InOrder(rows)
    ensures (exists r | r in LastRows(UpTo(rows, t), limit) :: r.at + span > t)
       <==> limit > 0 && exists r | r in rows :: t - span < r.at <= t
  {
    hide Keep;
    var shown := LastRows(UpTo(rows, t), limit);
    var p := (x: Row<Bar>) => x.at <= t;
    if r :| r in shown && r.at + span > t {
      KeepMember(rows, p, r);
    }
    if limit > 0 {
      if r :| r in rows && t - span < r.at <= t {
        KeepMember(rows, p, r);
        var last := shown[|shown| - 1];
        LastIsLatest(rows, t, r);
        assert last in shown;
      }
    }
  }

  lemma LastIsLatest(rows: seq<Row<Bar>>, t: int, r: Row<Bar>)
    requires InOrder(rows) && r in UpTo(rows, t)
    ensures |UpTo(rows, t)| > 0 && r.at <= UpTo(rows, t)[|UpTo(rows, t)| - 1].at
  {
    hide Keep;
    KeepKeepsOrder(rows, (x: Row<Bar>) => x.at <= t, NoLater);
    var kept := UpTo(rows, t);
    var i :| 0 <= i < |kept| && kept[i] == r;
    assert i < |kept| - 1 ==> NoLater(kept[i], kept[|kept| - 1]);
  }

  /** An hourly bar opened at the very moment of the snapshot is shown with the close of an hour later. */
  lemma UnfinishedBarExample(bar: Bar)
    ensures var rows := [Row(0, bar)];
            LastRows(UpTo(rows, 0), 1) == rows && rows[0].at + Calendar.HOUR > 0
  {
  }

  // ---------------------------------------------------------------- in plain terms

  /** How far back bars are asked for: the longest of the three lookbacks, each in its own bars. */
  lemma LookbackInPlainTerms(config: ReplayLoaderConfig, start: int)
    ensures var from := LookbackStart(config, start);
            && from <= start
            && from <= start - 900_000_000 * config.candles15mLookback
            && from <= start - 3_600_000_000 * config.candles1hLookback
            && from <= start - 14_400_000_000 * config.candles4hLookback
            && (|| from == start
                || from == start - 900_000_000 * config.candles15mLookback
                || from == start - 3_600_000_000 * config.candles1hLookback
                || from == start - 14_400_000_000 * config.candles4hLookback)
  {
  }

  /** What a snapshot says of its moment: a quarter of an hour after its bar opened, at the price the bar closed and
      with the last open interest known by then; minutes are looked up by the time they began. */
  lemma SnapshotInPlainTerms(db: Database, config: ReplayLoaderConfig, candle: Row<Bar>)
    ensures var s := SnapshotOf(db, config, candle);
            && s.timestamp == candle.at + 900_000_000 && s.price == candle.value.close
            && (Latest(UpTo(db.openInterest, s.timestamp)).None? ==> s.openInterest == 0.0)
            && (Latest(UpTo(db.openInterest, s.timestamp)).Some? ==>
                  s.openInterest == Latest(UpTo(db.openInterest, s.timestamp)).value.value)
    ensures forall t: int ::
              && Floor60s(t) % 60_000_000 == 0 && Floor60s(t) <= t < Floor60s(t) + 60_000_000
  {
    hide UpTo, Latest, LastRows, ExactOrLatest, Within;
  }
}
