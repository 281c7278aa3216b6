/**
 What the range limits of the replay queries (backtest/replay_loader.py) leave out: when a replay over the
 selected rows shows what it would show over everything recorded.
 */
module ReplayRange {
  import opened Prelude
  import opened Timeline
  import opened ReplayLoader
  import Calendar

  // ---------------------------------------------------------------- rows selected up to the end

  lemma UpToAgain<T>(rows: seq<Row<T>>, end: int, t: int)
    requires t <= end
    ensures UpTo(UpTo(rows, end), t) == UpTo(rows, t)
  {
    KeepTwice(rows, (r: Row<T>) => r.at <= end, (r: Row<T>) => r.at <= t, (r: Row<T>) => r.at <= t);
  }

  lemma ExactOrLatestAgain<T>(rows: seq<Row<T>>, end: int, at: int, fallback: int)
    requires at <= end && fallback <= end
    ensures ExactOrLatest(UpTo(rows, end), at, fallback) == ExactOrLatest(rows, at, fallback)
  {
    KeepTwice(rows, (r: Row<T>) => r.at <= end, (r: Row<T>) => r.at == at, (r: Row<T>) => r.at == at);
    UpToAgain(rows, end, fallback);
    hide Keep;
  }

  lemma WithinAgain<T>(rows: seq<Row<T>>, from: int, end: int, after: int, t: int)
    requires from <= after && t <= end
    ensures Within(Within(rows, from, end), after, t) == Within(rows, after, t)
  {
    KeepTwice(rows, (r: Row<T>) => from < r.at <= end, (r: Row<T>) => after < r.at <= t,
              (r: Row<T>) => after < r.at <= t);
  }

  // ---------------------------------------------------------------- rows selected from a lookback on

  function At(): Row<Bar> -> int {
    (r: Row<Bar>) => r.at
  }

  /** In time order, the rows up to a moment are the first, and those from a lookback on the last of them. */
  lemma Stretches(rows: seq<Row<Bar>>, from: int, end: int, t: int) returns (k: nat, n: nat)
    requires InOrder(rows) && t <= end
    ensures k <= n <= |rows| && UpTo(rows, t) == rows[..n] && UpTo(Opened(rows, from, end), t) == rows[k..n]
    ensures forall i | 0 <= i < n :: i < k <==> rows[i].at < from
    ensures forall i | 0 <= i < |rows| :: rows[i].at <= t <==> i < n
  {
    hide Keep, Position;
    n := Position(rows, At(), t + 1);
    k := MinInt(n, Position(rows, At(), from));
    PositionMeaning(rows, At(), t + 1);
    PositionMeaning(rows, At(), from);
    KeepStretch(rows, (r: Row<Bar>) => r.at <= t, 0, n);
    var both := (r: Row<Bar>) => from <= r.at <= t;
    KeepTwice(rows, (r: Row<Bar>) => from <= r.at <= end, (r: Row<Bar>) => r.at <= t, both);
    KeepStretch(rows, both, k, n);
  }

  /** The rows looked back at are the ones recorded exactly when none of those lies before the lookback. */
  lemma LookbackIsWholeIff(rows: seq<Row<Bar>>, from: int, end: int, t: int, limit: int)
    requires InOrder(rows) && t <= end
    ensures LastRows(UpTo(Opened(rows, from, end), t), limit) == LastRows(UpTo(rows, t), limit)
       <==> ReachesBack(rows, from, t, limit)
  {
    hide UpTo, Opened;
    var k, n := Stretches(rows, from, end, t);
    var due, got := LastRows(UpTo(rows, t), limit), LastRows(UpTo(Opened(rows, from, end), t), limit);
    if limit > 0 {
      var m := MaxInt(0, n - limit);
      assert due == rows[m..n];
      assert forall i | m <= i < n :: rows[i] == due[i - m];
      if k <= m {
        assert got == due;
      } else {
        assert |got| < |due| && rows[m] in due;
      }
    }
  }

  /** None of the rows looked back at opened before the lookback. */
  ghost predicate ReachesBack(rows: seq<Row<Bar>>, from: int, t: int, limit: int) {
    forall r | r in LastRows(UpTo(rows, t), limit) :: r.at >= from
  }

  // ---------------------------------------------------------------- recordings without gaps

  ghost predicate GapFree(rows: seq<Row<Bar>>, span: int) {
    forall i | 0 < i < |rows| :: rows[i].at - rows[i - 1].at <= span
  }

  lemma {:induction false} RowsBack(rows: seq<Row<Bar>>, span: int, i: nat, j: nat)
    requires GapFree(rows, span) && i <= j < |rows|
    ensures rows[j].at - rows[i].at <= span * (j - i)
  {
    if i < j {
      RowsBack(rows, span, i, j - 1);
      assert span * (j - i) == span * (j - 1 - i) + span;
    }
  }

  /** Without gaps, the rows looked back at from a recorded one reach no further than their number of spans. */
  lemma GapFreeReachesBack(rows: seq<Row<Bar>>, span: int, t: int, limit: int, recent: Row<Bar>, from: int)
    requires InOrder(rows) && GapFree(rows, span) && span >= 0
    requires recent in rows && recent.at <= t && (limit > 0 ==> from <= recent.at - span * (limit - 1))
    ensures ReachesBack(rows, from, t, limit)
  {
    var k, n := Stretches(rows, from, t, t);
    hide UpTo;
    var j :| 0 <= j < |rows| && rows[j] == recent;
    assert j < n && (j < n - 1 ==> rows[j].at <= rows[n - 1].at);
    if limit > 0 {
      var m := MaxInt(0, n - limit);
      assert LastRows(UpTo(rows, t), limit) == rows[m..n];
      forall i | m <= i < n ensures rows[i].at >= from {
        RowsBack(rows, span, i, n - 1);
        SpansGrow(span, n - 1 - i, limit - 1);
      }
    }
  }

  lemma SpansGrow(span: int, a: int, b: int)
    requires span >= 0 && a <= b
    ensures span * a <= span * b
  {
  }

  /** Two hourly bars ten hours apart and two asked for: the earlier one lies before the lookback. */
  lemma GapExample(bar: Bar)
    ensures var rows, t := [Row(0, bar), Row(10 * Calendar.HOUR, bar)], 10 * Calendar.HOUR;
            && LastRows(UpTo(rows, t), 2) == rows
            && LastRows(UpTo(Opened(rows, t - 2 * Calendar.HOUR, t), t), 2) == [rows[1]]
  {
    hide UpTo, Opened, LastRows;
    GapLosesRow(Row(0, bar), Row(10 * Calendar.HOUR, bar), 8 * Calendar.HOUR);
  }

  lemma GapLosesRow(a: Row<Bar>, b: Row<Bar>, from: int)
    requires a.at < from <= b.at
    ensures LastRows(UpTo([a, b], b.at), 2) == [a, b] && LastRows(UpTo(Opened([a, b], from, b.at), b.at), 2) == [b]
  {
    hide UpTo, Opened;
    var rows := [a, b];
    var k, n := Stretches(rows, from, b.at, b.at);
    assert rows[0].at < from && rows[1].at >= from && rows[1].at <= b.at;
    assert rows[..2] == rows && rows[1..2] == [b];
  }

  // ---------------------------------------------------------------- snapshots

  ghost predicate ReachesLookbacks(db: Database, config: ReplayLoaderConfig, start: int, candle: Row<Bar>) {
    var from, t := LookbackStart(config, start), candle.at + BAR;
    && ReachesBack(db.candles15m, from, candle.at, config.candles15mLookback)
    && ReachesBack(db.candles1h, from, t, config.candles1hLookback)
    && ReachesBack(db.candles4h, from, t, config.candles4hLookback)
  }

  /** A snapshot built from the selected rows is the one built from everything recorded exactly when none of its bars
      lies before the lookback; all else in it always agrees. */
  lemma SnapshotIsWholeIff(db: Database, config: ReplayLoaderConfig, start: int, end: int, candle: Row<Bar>)
    requires Ordered(db) && start <= candle.at + BAR <= end
    ensures SnapshotOf(Selected(db, config, start, end), config, candle) == SnapshotOf(db, config, candle)
       <==> ReachesLookbacks(db, config, start, candle)
    ensures var s, w := SnapshotOf(Selected(db, config, start, end), config, candle), SnapshotOf(db, config, candle);
            s == w.(candles15m := s.candles15m, candles1h := s.candles1h, candles4h := s.candles4h)
  {
    hide Keep, InOrder, UpTo, Within, ExactOrLatest, Opened, ReachesBack, LastRows, Latest;
    var from, t := LookbackStart(config, start), candle.at + BAR;
    DatesFollow(t, end);
    LookbackIsWholeIff(db.candles15m, from, end, candle.at, config.candles15mLookback);
    LookbackIsWholeIff(db.candles1h, from, end, t, config.candles1hLookback);
    LookbackIsWholeIff(db.candles4h, from, end, t, config.candles4hLookback);
    UpToAgain(db.funding, end, t);
    UpToAgain(db.openInterest, end, t);
    UpToAgain(db.bias, Calendar.Date(end), Calendar.Date(t));
    ExactOrLatestAgain(db.agg60s, end, Floor60s(t - Calendar.SECOND), t);
    ExactOrLatestAgain(db.agg15m, end, candle.at, t);
    WithinAgain(db.forceOrders, start - Calendar.MINUTE, end, t - Calendar.MINUTE, t);
  }

  lemma DatesFollow(t: int, end: int)
    requires t <= end
    ensures Calendar.Date(t) <= Calendar.Date(end) && Floor60s(t - Calendar.SECOND) <= t
  {
  }

  /** Every bar that closes in the range is replayed, unless no lookback is configured and a bar was recorded that
      was open at the start. */
  lemma BarsReplayedIff(db: Database, config: ReplayLoaderConfig, start: int, end: int)
    requires start <= end
    ensures Keep(Selected(db, config, start, end).candles15m, InRange(start, end))
            == Keep(db.candles15m, InRange(start, end))
       <==> config.candles15mLookback > 0 || config.candles1hLookback > 0 || config.candles4hLookback > 0
            || !exists c | c in db.candles15m :: start - BAR <= c.at < start && c.at + BAR <= end
  {
    hide Keep;
    var from := LookbackStart(config, start);
    var selected := (r: Row<Bar>) => from <= r.at <= end;
    var both := (r: Row<Bar>) => selected(r) && InRange(start, end)(r);
    KeepTwice(db.candles15m, selected, InRange(start, end), both);
    if c :| c in db.candles15m && InRange(start, end)(c) && !selected(c) {
      KeepMember(db.candles15m, InRange(start, end), c);
      KeepMember(db.candles15m, both, c);
    } else {
      KeepSame(db.candles15m, both, InRange(start, end));
    }
  }

  ghost predicate UpToDate(rows: seq<Row<Bar>>, t: int, span: int) {
    exists r | r in rows :: t - span < r.at <= t
  }

  /** Bars recorded without a gap, hourly and four-hourly ones up to the moment. */
  ghost predicate WellRecorded(db: Database, start: int, end: int) {
    && Ordered(db)
    && GapFree(db.candles15m, BAR) && GapFree(db.candles1h, Calendar.HOUR) && GapFree(db.candles4h, FOUR_HOURS)
    && forall c | c in db.candles15m && InRange(start, end)(c) ::
         UpToDate(db.candles1h, c.at + BAR, Calendar.HOUR) && UpToDate(db.candles4h, c.at + BAR, FOUR_HOURS)
  }

  /** Over a recording without gaps, a replay shows exactly what it would show over everything recorded. */
  lemma GapFreeReplayIsWhole(db: Database, config: ReplayLoaderConfig, start: int, end: int)
    requires WellRecorded(db, start, end) && start <= end
    requires config.candles15mLookback > 0 || config.candles1hLookback > 0 || config.candles4hLookback > 0
    ensures Replayed(Selected(db, config, start, end), config, start, end) == Replayed(db, config, start, end)
  {
    hide Keep, SnapshotOf, Selected, InOrder, GapFree, UpToDate;
    BarsReplayedIff(db, config, start, end);
    var candles := Keep(db.candles15m, InRange(start, end));
    forall i | 0 <= i < |candles|
      ensures SnapshotOf(Selected(db, config, start, end), config, candles[i]) == SnapshotOf(db, config, candles[i])
    {
      KeepMember(db.candles15m, InRange(start, end), candles[i]);
      GapFreeReachesLookbacks(db, config, start, end, candles[i]);
      SnapshotIsWholeIff(db, config, start, end, candles[i]);
    }
  }

  lemma GapFreeReachesLookbacks(db: Database, config: ReplayLoaderConfig, start: int, end: int, candle: Row<Bar>)
    requires WellRecorded(db, start, end) && candle in db.candles15m && InRange(start, end)(candle)
    ensures ReachesLookbacks(db, config, start, candle)
  {
    hide ReachesBack, InOrder, GapFree;
    var from, t := LookbackStart(config, start), candle.at + BAR;
    var hourly :| hourly in db.candles1h && t - Calendar.HOUR < hourly.at <= t;
    var fourHourly :| fourHourly in db.candles4h && t - FOUR_HOURS < fourHourly.at <= t;
    GapFreeReachesBack(db.candles15m, BAR, candle.at, config.candles15mLookback, candle, from);
    GapFreeReachesBack(db.candles1h, Calendar.HOUR, t, config.candles1hLookback, hourly, from);
    GapFreeReachesBack(db.candles4h, FOUR_HOURS, t, config.candles4hLookback, fourHourly, from);
  }
}
