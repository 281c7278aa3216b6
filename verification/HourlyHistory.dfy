/**
 A whole history loaded window by window (scripts/bootstrap_history.py): each hour is fetched by itself and
 its rows are written over those already stored. What is stored is what one pass over the trades would
 give exactly when paging loses no trade, for a start on a quarter of an hour.
 */
module HourlyHistory {
  import opened Prelude
  import opened Timeline
  import opened Buckets
  import opened HourlyBuckets

  // ---------------------------------------------------------------- storing

  /** The stored rows of one width, by bucket time, after writing some over them. */
  ghost predicate IsWritten(after: map<int, Bucket>, before: map<int, Bucket>, last: int -> Option<Bucket>) {
    forall b :: Cell(after, b) == if last(b).Some? then last(b) else Cell(before, b)
  }

  function Cell(table: map<int, Bucket>, b: int): Option<Bucket> {
    if b in table then Some(table[b]) else None
  }

  function LastRow(rows: seq<Bucket>): int -> Option<Bucket> {
    (b: int) => LastAt(rows, b)
  }

  function LastLoaded(server: seq<Trade>, start: int, end: int, limit: nat, width: int,
                      hours: nat): int -> Option<Bucket>
    requires width > 0
  {
    (b: int) => LastBucket(server, start, end, limit, width, hours, b)
  }

  method UpsertAggtradeBuckets(table: map<int, Bucket>, rows: seq<Bucket>) returns (written: map<int, Bucket>)
    ensures IsWritten(written, table, LastRow(rows))
  {
    written := table;
    for i := 0 to |rows|
      invariant IsWritten(written, table, LastRow(rows[..i]))
    {
      OneRowWritten(written, table, rows, i);
      written := written[rows[i].time := rows[i]];
    }
    assert rows[..|rows|] == rows;
  }

  lemma OneRowWritten(table: map<int, Bucket>, before: map<int, Bucket>, rows: seq<Bucket>, i: nat)
    requires i < |rows| && IsWritten(table, before, LastRow(rows[..i]))
    ensures IsWritten(table[rows[i].time := rows[i]], before, LastRow(rows[..i + 1]))
  {
    assert rows[..i + 1][..i] == rows[..i];
    var after := table[rows[i].time := rows[i]];
    forall b
      ensures Cell(after, b) == if LastAt(rows[..i + 1], b).Some? then LastAt(rows[..i + 1], b) else Cell(before, b)
    {
      assert LastAt(rows[..i + 1], b) == if rows[i].time == b then Some(rows[i]) else LastRow(rows[..i])(b);
      assert Cell(after, b) == if rows[i].time == b then Some(rows[i]) else Cell(table, b);
    }
  }

  /** The windows of `iter_aggtrade_windows`, fetched one after the other and written as they come. */
  method StoreHistory(server: seq<Trade>, start: int, end: int, limit: nat, minutes: map<int, Bucket>,
                      quarters: map<int, Bucket>)
    returns (minutes': map<int, Bucket>, quarters': map<int, Bucket>, totalTrades: nat)
    ensures IsWritten(minutes', minutes, LastLoaded(server, start, end, limit, MINUTE_BUCKET, Hours(start, end)))
    ensures IsWritten(quarters', quarters, LastLoaded(server, start, end, limit, QUARTER_BUCKET, Hours(start, end)))
    ensures totalTrades == TradesIn(server, start, end, limit, Hours(start, end))
  {
    hide LastAt, LastBucket, PagedByTime, IsHourly, IsWritten;
    minutes', quarters', totalTrades := minutes, quarters, 0;
    ghost var hours := 0;
    NothingWritten(server, start, end, limit, minutes, MINUTE_BUCKET);
    NothingWritten(server, start, end, limit, quarters, QUARTER_BUCKET);
    var windowStart := start;
    while windowStart < end
      invariant if start < end then windowStart == HourStart(start, end, hours) else hours == 0 && windowStart == start
      invariant hours > 0 ==> HourStart(start, end, hours - 1) < end
      invariant totalTrades == TradesIn(server, start, end, limit, hours)
      invariant IsWritten(minutes', minutes, LastLoaded(server, start, end, limit, MINUTE_BUCKET, hours))
      invariant IsWritten(quarters', quarters, LastLoaded(server, start, end, limit, QUARTER_BUCKET, hours))
      decreases end - windowStart
    {
      var windowEnd := MinInt(windowStart + HOUR_MS, end);
      var buckets60s, buckets15m, tradeCount := FetchAggtradeBucketsPaginated(server, windowStart, windowEnd, limit);
      OneWindow(server, start, end, limit, hours);
      var written60s := UpsertAggtradeBuckets(minutes', buckets60s);
      var written15m := UpsertAggtradeBuckets(quarters', buckets15m);
      WindowWritten(server, start, end, limit, MINUTE_BUCKET, hours, buckets60s, minutes, minutes', written60s);
      WindowWritten(server, start, end, limit, QUARTER_BUCKET, hours, buckets15m, quarters, quarters', written15m);
      minutes', quarters', totalTrades := written60s, written15m, totalTrades + tradeCount;
      windowStart, hours := windowEnd, hours + 1;
    }
    assert hours == Hours(start, end);
  }

  lemma NothingWritten(server: seq<Trade>, start: int, end: int, limit: nat, table: map<int, Bucket>, width: int)
    requires width > 0
    ensures IsWritten(table, table, LastLoaded(server, start, end, limit, width, 0))
  {
  }

  /** A window of an hour, fetched by itself, has one hour, with the trades of that hour of the whole. */
  lemma OneWindow(server: seq<Trade>, start: int, end: int, limit: nat, k: nat)
    requires HourStart(start, end, k) < end
    ensures var from, to := HourStart(start, end, k), HourStart(start, end, k + 1);
            && to == MinInt(from + HOUR_MS, end) && Hours(from, to) == 1
            && HourTrades(server, from, to, limit, 0) == HourTrades(server, start, end, limit, k)
            && TradesIn(server, from, to, limit, 1) == |HourTrades(server, start, end, limit, k)|
  {
    hide PagedByTime;
    var from, to := HourStart(start, end, k), HourStart(start, end, k + 1);
    assert HourStart(from, to, 0) == from && HourStart(from, to, 1) == to;
    assert TradesIn(server, from, to, limit, 0) == 0;
  }

  lemma WindowWritten(server: seq<Trade>, start: int, end: int, limit: nat, width: int, k: nat, rows: seq<Bucket>,
                      before: map<int, Bucket>, table: map<int, Bucket>, written: map<int, Bucket>)
    requires width > 0 && HourStart(start, end, k) < end
    requires IsHourly(rows, server, HourStart(start, end, k), HourStart(start, end, k + 1), limit, width, 1)
    requires IsWritten(table, before, LastLoaded(server, start, end, limit, width, k))
             && IsWritten(written, table, LastRow(rows))
    ensures IsWritten(written, before, LastLoaded(server, start, end, limit, width, k + 1))
  {
    hide LastAt, IsHourly, HourTrades, Group, MakeBucket, HourStart;
    var from, to := HourStart(start, end, k), HourStart(start, end, k + 1);
    OneWindow(server, start, end, limit, k);
    forall b
      ensures LastBucket(server, start, end, limit, width, k + 1, b)
           == if LastAt(rows, b).Some? then LastAt(rows, b) else LastBucket(server, start, end, limit, width, k, b)
    {
      HourlyRowAt(rows, server, from, to, limit, width, 1, b);
      assert LastBucket(server, from, to, limit, width, 0, b) == None;
    }
  }

  /** Rows that hold the last hour's bucket for every time give it back. */
  lemma HourlyRowAt(rows: seq<Bucket>, server: seq<Trade>, start: int, end: int, limit: nat, width: int, hours: nat,
                    b: int)
    requires width > 0 && IsHourly(rows, server, start, end, limit, width, hours)
    ensures LastAt(rows, b) == LastBucket(server, start, end, limit, width, hours, b)
  {
    hide LastAt, LastBucket, Rising;
    LastAtMember(rows, b);
    LastBucketTime(server, start, end, limit, width, hours, b);
  }

  lemma {:induction false} LastBucketTime(server: seq<Trade>, start: int, end: int, limit: nat, width: int, hours: nat,
                                          b: int)
    requires width > 0
    ensures LastBucket(server, start, end, limit, width, hours, b).Some? ==>
            LastBucket(server, start, end, limit, width, hours, b).value.time == b
  {
    hide HourTrades, Group, VolumesOf;
    if hours > 0 {
      LastBucketTime(server, start, end, limit, width, hours - 1, b);
    }
  }

  /** Loaded into an empty store window by window, or collected and sorted in one call: the same rows. */
  lemma StoredIsHourly(stored: map<int, Bucket>, hourly: seq<Bucket>, server: seq<Trade>, start: int, end: int,
                       limit: nat, width: int)
    requires width > 0 && IsHourly(hourly, server, start, end, limit, width, Hours(start, end))
    requires IsWritten(stored, map[], LastLoaded(server, start, end, limit, width, Hours(start, end)))
    ensures forall x: Bucket :: Cell(stored, x.time) == Some(x) <==> x in hourly
  {
    hide LastBucket, Rising;
  }

  // ---------------------------------------------------------------- when paging loses nothing

  /** No page boundary of the k-th hour falls inside a millisecond. */
  ghost predicate CleanHour(server: seq<Trade>, start: int, end: int, limit: nat, k: nat)
    requires limit > 0
  {
    var from := Position(server, Ms(), HourStart(start, end, k));
    var to := Position(server, Ms(), HourStart(start, end, k + 1));
    from <= to && CleanCuts(server, from, to, limit)
  }

  ghost predicate CleanHours(server: seq<Trade>, start: int, end: int, limit: nat)
    requires limit > 0
  {
    forall k: nat | k < Hours(start, end) :: CleanHour(server, start, end, limit, k)
  }

  lemma CleanHourLosesNothing(server: seq<Trade>, start: int, end: int, limit: nat, k: nat)
    requires InTimeOrder(server, Ms()) && limit > 0
    ensures CleanHour(server, start, end, limit, k)
            <==> HourTrades(server, start, end, limit, k) == Keep(server, InHour(start, end, k))
  {
    hide PagedByTime, Keep, Position, CleanCuts;
    PagingIsComplete(server, HourStart(start, end, k), HourStart(start, end, k + 1) - 1, limit);
  }

  /** Paging loses no trade of any hour just when every hour has clean page boundaries. */
  lemma CleanHoursLoseNothing(server: seq<Trade>, start: int, end: int, limit: nat)
    requires InTimeOrder(server, Ms()) && limit > 0
    ensures CleanHours(server, start, end, limit) <==> PagesComplete(server, start, end, limit, Hours(start, end))
  {
    hide CleanHour, HourTrades;
    forall k: nat | k < Hours(start, end)
      ensures CleanHour(server, start, end, limit, k)
              <==> HourTrades(server, start, end, limit, k) == Keep(server, InHour(start, end, k))
    {
      CleanHourLosesNothing(server, start, end, limit, k);
    }
  }

  // ---------------------------------------------------------------- a lost trade is lost volume

  lemma SumSlices(server: seq<Trade>, i: nat, j: nat, k: nat)
    requires i <= j <= k <= |server| && forall t | t in server :: t.qty > 0.0
    ensures SumBy(server[i..k], Qty()) == SumBy(server[i..j], Qty()) + SumBy(server[j..k], Qty())
    ensures SumBy(server[j..k], Qty()) >= 0.0 && (j < k ==> SumBy(server[j..k], Qty()) > 0.0)
  {
    hide SumBy;
    assert server[i..k] == server[i..j] + server[j..k];
    SumByAppend(server[i..j], server[j..k], Qty());
    SumPositive(server[j..k]);
  }

  /** Of positive quantities, paging by time returns less than the window holds unless the cuts are clean. */
  lemma {:induction false} PagedVolume(server: seq<Trade>, cursor: int, to: int, limit: nat)
    requires InTimeOrder(server, Ms()) && cursor <= to + 1 && limit > 0 && forall t | t in server :: t.qty > 0.0
    ensures Position(server, Ms(), cursor) <= Position(server, Ms(), to + 1)
    ensures var k, b := Position(server, Ms(), cursor), Position(server, Ms(), to + 1);
            var paged, all := SumBy(PagedByTime(server, cursor, to, limit), Qty()), SumBy(server[k..b], Qty());
            paged <= all && (paged == all ==> CleanCuts(server, k, b, limit))
    decreases 1 + to - cursor
  {
    hide SumBy, Position, CleanCuts, PagedByTime, InTimeOrder;
    var k, b := Position(server, Ms(), cursor), Position(server, Ms(), to + 1);
    PositionGrows(server, Ms(), cursor, to + 1);
    CleanStep(server, k, b, limit);
    if cursor > to {
      PagedNothing(server, cursor, to, limit);
      assert server[k..b] == [];
    } else {
      PagedStep(server, cursor, to, limit);
      if k + limit < b {
        var last := server[k + limit - 1].ms;
        SumSlices(server, k, k + limit, b);
        if last < to {
          var next, rest := Position(server, Ms(), last + 1), PagedByTime(server, last + 1, to, limit);
          AfterPage(server, k + limit, to);
          NextNotEarlier(server, k + limit);
          PagedVolume(server, last + 1, to, limit);
          SumSlices(server, k + limit, next, b);
          SumSlices(server, k + limit, k + limit, next);
          SumByAppend(server[k..k + limit], rest, Qty());
        }
      }
    }
  }

  /** Trades whose buckets hold the same volumes have the same volume altogether. */
  lemma {:induction false} GroupsTellTotal(a: seq<Trade>, b: seq<Trade>, width: int)
    requires width > 0 && forall x: int :: SumBy(Group(a, width, x), Qty()) == SumBy(Group(b, width, x), Qty())
    ensures SumBy(a, Qty()) == SumBy(b, Qty())
    decreases |a| + |b|
  {
    hide Keep, SumBy, BucketFloor;
    if |a| + |b| > 0 {
      var t := if |a| > 0 then a[0] else b[0];
      var x := BucketFloor(t, width);
      var out, all := (u: Trade) => BucketFloor(u, width) != x, (u: Trade) => true;
      WithoutGroup(a, width, x, t);
      WithoutGroup(b, width, x, t);
      forall y: int ensures SumBy(Group(Keep(a, out), width, y), Qty()) == SumBy(Group(Keep(b, out), width, y), Qty()) {
        OtherGroups(a, width, x, y);
        OtherGroups(b, width, x, y);
      }
      GroupsTellTotal(Keep(a, out), Keep(b, out), width);
    }
  }

  lemma WithoutGroup(s: seq<Trade>, width: int, x: int, t: Trade)
    requires width > 0 && x == BucketFloor(t, width)
    ensures var out := (u: Trade) => BucketFloor(u, width) != x;
            && SumBy(s, Qty()) == SumBy(Group(s, width, x), Qty()) + SumBy(Keep(s, out), Qty())
            && |Keep(s, out)| <= |s| && (t in s ==> |Keep(s, out)| < |s|)
  {
    hide Keep, SumBy, BucketFloor;
    var out, all := (u: Trade) => BucketFloor(u, width) != x, (u: Trade) => true;
    KeepDisjointSum(s, InBucket(width, x), out, all, Qty());
    KeepAll(s, all);
    KeepShorter(s, out, t);
  }

  lemma {:induction false} KeepShorter(s: seq<Trade>, p: Trade -> bool, t: Trade)
    requires !p(t)
    ensures |Keep(s, p)| <= |s| && (t in s ==> |Keep(s, p)| < |s|)
  {
    if |s| > 0 {
      KeepShorter(s[..|s| - 1], p, t);
    }
  }

  lemma OtherGroups(s: seq<Trade>, width: int, x: int, y: int)
    requires width > 0
    ensures Group(Keep(s, (u: Trade) => BucketFloor(u, width) != x), width, y)
         == if y == x then [] else Group(s, width, y)
  {
    hide Keep, BucketFloor;
    var out := (u: Trade) => BucketFloor(u, width) != x;
    var none := (u: Trade) => false;
    if y == x {
      KeepTwice(s, out, InBucket(width, y), none);
      KeepNone(s, none);
    } else {
      KeepTwice(s, out, InBucket(width, y), InBucket(width, y));
    }
  }

  // ---------------------------------------------------------------- exactly when the history is one pass

  lemma {:induction false} PagedWithin(server: seq<Trade>, cursor: int, to: int, limit: nat, t: Trade)
    requires t in PagedByTime(server, cursor, to, limit)
    ensures t in Keep(server, Between(Ms(), cursor, to))
    decreases 1 + to - cursor
  {
    hide Keep;
    var batch := PageFrom(server, cursor, to, limit);
    if t !in batch {
      PagedWithin(server, batch[|batch| - 1].ms + 1, to, limit, t);
      KeepMember(server, Between(Ms(), batch[|batch| - 1].ms + 1, to), t);
      KeepMember(server, Between(Ms(), cursor, to), batch[|batch| - 1]);
      KeepMember(server, Between(Ms(), cursor, to), t);
    }
  }

  lemma LoadedIsDue(server: seq<Trade>, start: int, end: int, limit: nat, width: int, k: nat, b: int)
    requires width > 0
    ensures forall t | t in Group(HourTrades(server, start, end, limit, k), width, b) ::
            t in Group(Keep(server, InHour(start, end, k)), width, b)
    ensures |Group(Keep(server, InHour(start, end, k)), width, b)| == 0 ==>
            Group(HourTrades(server, start, end, limit, k), width, b) == []
  {
    hide Keep, BucketFloor, PagedByTime;
    var loaded := HourTrades(server, start, end, limit, k);
    forall t | t in Group(loaded, width, b) ensures t in Group(Keep(server, InHour(start, end, k)), width, b) {
      KeepMember(loaded, InBucket(width, b), t);
      PagedWithin(server, HourStart(start, end, k), HourStart(start, end, k + 1) - 1, limit, t);
      KeepMember(Keep(server, InHour(start, end, k)), InBucket(width, b), t);
    }
    if Group(loaded, width, b) != [] {
      assert Group(loaded, width, b)[0] in Group(Keep(server, InHour(start, end, k)), width, b);
    }
  }

  /** Without straddling, what an hour holds of a bucket is the whole bucket. */
  lemma DueIsWhole(server: seq<Trade>, start: int, end: int, width: int, k: nat, b: int, t: Trade)
    requires width > 0 && NoStraddle(Span(server, start, end), start, width)
    requires t in Group(Keep(server, InHour(start, end, k)), width, b)
    ensures t in Span(server, start, end) && BucketFloor(t, width) == b && HourOf(start, t) == k
    ensures Group(Keep(server, InHour(start, end, k)), width, b) == Group(Span(server, start, end), width, b)
  {
    hide Keep, BucketFloor, HourOf, InHour;
    KeepMember(Keep(server, InHour(start, end, k)), InBucket(width, b), t);
    KeepMember(server, InHour(start, end, k), t);
    InHourMeaning(start, end, k, t);
    KeepMember(server, Between(Ms(), start, end - 1), t);
    DueGroup(server, start, end, width, k, b);
    GroupWithin(server, start, end, width, b);
    OneHourGroup(Group(Span(server, start, end), width, b), start, k);
  }

  /** If hour by hour equals one pass and no bucket straddles an hour, no bucket of any hour lost volume. */
  lemma NoBucketLostVolume(hourly: seq<Bucket>, server: seq<Trade>, start: int, end: int, limit: nat, width: int,
                           k: nat, b: int)
    requires width > 0 && NoStraddle(Span(server, start, end), start, width)
    requires IsHourly(hourly, server, start, end, limit, width, Hours(start, end))
             && IsBucketing(hourly, Span(server, start, end), width)
    ensures SumBy(Group(HourTrades(server, start, end, limit, k), width, b), Qty())
         == SumBy(Group(Keep(server, InHour(start, end, k)), width, b), Qty())
  {
    hide Keep, SumBy, BucketFloor, HourOf, InHour, HourTrades, LastBucket, Rising, MakeBucket, VolumesOf, Span, Hours,
        Group;
    var loaded, due := Group(HourTrades(server, start, end, limit, k), width, b),
        Group(Keep(server, InHour(start, end, k)), width, b);
    LoadedIsDue(server, start, end, limit, width, k, b);
    if |due| == 0 {
      assert loaded == due;
    } else {
      DueIsWhole(server, start, end, width, k, b, due[0]);
      BucketAtTime(Span(server, start, end), width, b);
      assert BucketAt(Span(server, start, end), width, b) in hourly;
      var m := LastBucketOfSomeHour(server, start, end, limit, width, Hours(start, end), b);
      var last := Group(HourTrades(server, start, end, limit, m), width, b);
      LoadedIsDue(server, start, end, limit, width, m, b);
      DueIsWhole(server, start, end, width, m, b, last[0]);
      assert m == k;
      BucketTotal(b, loaded);
      BucketTotal(b, due);
    }
  }

  /** From a start on a quarter of an hour and with clean page boundaries, hour by hour gives what one pass gives. */
  lemma CleanHistoryIsOnePass(hourly: seq<Bucket>, whole: seq<Bucket>, server: seq<Trade>, start: int, end: int,
                              limit: nat, width: int)
    requires width == MINUTE_BUCKET || width == QUARTER_BUCKET
    requires InTimeOrder(server, Ms()) && limit > 0 && start >= 0 && start % (QUARTER_BUCKET * 1000) == 0
    requires IsHourly(hourly, server, start, end, limit, width, Hours(start, end))
             && IsBucketing(whole, Span(server, start, end), width)
    requires CleanHours(server, start, end, limit)
    ensures hourly == whole
  {
    hide CleanHours, PagesComplete, IsHourly, IsBucketing, NoStraddle;
    CleanHoursLoseNothing(server, start, end, limit);
    AlignedStartNeverStraddles(server, start, end);
    HourlyIsOnePass(hourly, whole, server, start, end, limit, width);
  }

  /** The trades of one kind between two positions have a volume of at least zero. */
  lemma KeptSlices(server: seq<Trade>, i: nat, j: nat, k: nat, p: Trade -> bool)
    requires i <= j <= k <= |server| && forall t | t in server :: t.qty > 0.0
    ensures SumBy(Keep(server[i..k], p), Qty())
         == SumBy(Keep(server[i..j], p), Qty()) + SumBy(Keep(server[j..k], p), Qty())
    ensures SumBy(Keep(server[j..k], p), Qty()) >= 0.0
  {
    hide SumBy, Keep;
    assert server[i..k] == server[i..j] + server[j..k];
    KeepSplits(server[i..j], server[j..k], p);
    SumByAppend(Keep(server[i..j], p), Keep(server[j..k], p), Qty());
    forall t | t in Keep(server[j..k], p) ensures t.qty > 0.0 {
      KeepMember(server[j..k], p, t);
    }
    SumPositive(Keep(server[j..k], p));
  }

  /** Of any kind of trade, paging returns no more volume than the window holds. */
  lemma {:induction false} PagedPart(server: seq<Trade>, cursor: int, to: int, limit: nat, p: Trade -> bool)
    requires InTimeOrder(server, Ms()) && cursor <= to + 1 && limit > 0 && forall t | t in server :: t.qty > 0.0
    ensures Position(server, Ms(), cursor) <= Position(server, Ms(), to + 1)
    ensures SumBy(Keep(PagedByTime(server, cursor, to, limit), p), Qty())
         <= SumBy(Keep(server[Position(server, Ms(), cursor)..Position(server, Ms(), to + 1)], p), Qty())
    decreases 1 + to - cursor
  {
    hide SumBy, Keep, Position, PagedByTime, InTimeOrder;
    var k, b := Position(server, Ms(), cursor), Position(server, Ms(), to + 1);
    PositionGrows(server, Ms(), cursor, to + 1);
    if cursor > to {
      PagedNothing(server, cursor, to, limit);
      assert server[k..b] == [];
    } else {
      PagedStep(server, cursor, to, limit);
      if k + limit < b {
        var last := server[k + limit - 1].ms;
        KeptSlices(server, k, k + limit, b, p);
        if last < to {
          var next, rest := Position(server, Ms(), last + 1), PagedByTime(server, last + 1, to, limit);
          AfterPage(server, k + limit, to);
          PagedPart(server, last + 1, to, limit, p);
          KeptSlices(server, k + limit, next, b, p);
          KeptSlices(server, k + limit, k + limit, next, p);
          KeepSplits(server[k..k + limit], rest, p);
          SumByAppend(Keep(server[k..k + limit], p), Keep(rest, p), Qty());
        }
      }
    }
  }

  lemma LoadedAtMostDue(server: seq<Trade>, start: int, end: int, limit: nat, width: int, k: nat, b: int)
    requires InTimeOrder(server, Ms()) && limit > 0 && width > 0 && forall t | t in server :: t.qty > 0.0
    ensures SumBy(Group(HourTrades(server, start, end, limit, k), width, b), Qty())
         <= SumBy(Group(Keep(server, InHour(start, end, k)), width, b), Qty())
  {
    hide Keep, SumBy, Position, PagedByTime, BucketFloor;
    BetweenIsSlice(server, Ms(), HourStart(start, end, k), HourStart(start, end, k + 1) - 1);
    PagedPart(server, HourStart(start, end, k), HourStart(start, end, k + 1) - 1, limit, InBucket(width, b));
  }

  /** A bucket with trades of two hours comes out short, whatever paging lost besides. */
  lemma StraddledIsShort(hourly: seq<Bucket>, server: seq<Trade>, start: int, end: int, limit: nat, width: int,
                         t: Trade, u: Trade)
    requires InTimeOrder(server, Ms()) && limit > 0 && width > 0 && forall x | x in server :: x.qty > 0.0
    requires IsHourly(hourly, server, start, end, limit, width, Hours(start, end))
    requires t in Span(server, start, end) && u in Span(server, start, end)
    requires BucketFloor(t, width) == BucketFloor(u, width) && HourOf(start, t) != HourOf(start, u)
    ensures BucketAt(Span(server, start, end), width, BucketFloor(t, width)) !in hourly
  {
    hide Keep, SumBy, BucketFloor, MakeBucket, VolumesOf, LastBucket, HourOf, HourTrades, Hours, Rising, Span;
    var b := BucketFloor(t, width);
    var group := Group(Span(server, start, end), width, b);
    BucketAtTime(Span(server, start, end), width, b);
    if LastBucket(server, start, end, limit, width, Hours(start, end), b).Some? {
      var m := LastBucketOfSomeHour(server, start, end, limit, width, Hours(start, end), b);
      var inHour := (x: Trade) => HourOf(start, x) == m;
      DueGroup(server, start, end, width, m, b);
      LoadedAtMostDue(server, start, end, limit, width, m, b);
      BucketTotal(b, group);
      BucketTotal(b, Group(HourTrades(server, start, end, limit, m), width, b));
      GroupWithin(server, start, end, width, b);
      forall x | x in group ensures x.qty > 0.0 {
        InServer(server, start, end, x);
      }
      LeavingOutIsLess(group, inHour, if inHour(t) then u else t);
    }
  }

  lemma InServer(server: seq<Trade>, start: int, end: int, t: Trade)
    requires t in Span(server, start, end)
    ensures t in server
  {
    hide Keep;
    KeepMember(server, Between(Ms(), start, end - 1), t);
  }

  /** With positive quantities, loading hour by hour gives what one pass over all trades gives exactly when paging
      loses no trade and no bucket has trades of two hours, whatever the start and the width. */
  lemma HourlyEqualsOnePassIff(hourly: seq<Bucket>, whole: seq<Bucket>, server: seq<Trade>, start: int, end: int,
                               limit: nat, width: int)
    requires InTimeOrder(server, Ms()) && limit > 0 && width > 0 && forall t | t in server :: t.qty > 0.0
    requires IsHourly(hourly, server, start, end, limit, width, Hours(start, end))
             && IsBucketing(whole, Span(server, start, end), width)
    ensures hourly == whole
       <==> CleanHours(server, start, end, limit) && NoStraddle(Span(server, start, end), start, width)
  {
    CleanHoursLoseNothing(server, start, end, limit);
    hide CleanHour, IsHourly, Keep, SumBy, Position, CleanCuts, Group, PagesComplete, Span, BucketFloor, HourOf, Hours,
        Rising, BucketAt;
    if CleanHours(server, start, end, limit) && NoStraddle(Span(server, start, end), start, width) {
      HourlyIsOnePass(hourly, whole, server, start, end, limit, width);
    }
    if hourly == whole {
      forall t, u | t in Span(server, start, end) && u in Span(server, start, end)
                    && BucketFloor(t, width) == BucketFloor(u, width)
        ensures HourOf(start, t) == HourOf(start, u)
      {
        if HourOf(start, t) != HourOf(start, u) {
          StraddledIsShort(hourly, server, start, end, limit, width, t, u);
          BucketOfTrade(whole, server, start, end, width, t);
        }
      }
      forall k: nat | k < Hours(start, end) ensures CleanHour(server, start, end, limit, k) {
        VolumeIsClean(hourly, server, start, end, limit, width, k);
      }
    }
  }

  lemma BucketOfTrade(whole: seq<Bucket>, server: seq<Trade>, start: int, end: int, width: int, t: Trade)
    requires width > 0 && IsBucketing(whole, Span(server, start, end), width) && t in Span(server, start, end)
    ensures BucketAt(Span(server, start, end), width, BucketFloor(t, width)) in whole
  {
    hide Rising, Span, BucketFloor, MakeBucket;
    BucketAtTime(Span(server, start, end), width, BucketFloor(t, width));
  }

  lemma VolumeIsClean(hourly: seq<Bucket>, server: seq<Trade>, start: int, end: int, limit: nat, width: int, k: nat)
    requires InTimeOrder(server, Ms()) && limit > 0 && width > 0 && forall t | t in server :: t.qty > 0.0
    requires NoStraddle(Span(server, start, end), start, width)
    requires IsHourly(hourly, server, start, end, limit, width, Hours(start, end))
             && IsBucketing(hourly, Span(server, start, end), width)
    ensures CleanHour(server, start, end, limit, k)
  {
    hide CleanHour, IsHourly, IsBucketing, NoStraddle, Keep, SumBy, Group;
    forall b: int
      ensures SumBy(Group(HourTrades(server, start, end, limit, k), width, b), Qty())
           == SumBy(Group(Keep(server, InHour(start, end, k)), width, b), Qty())
    {
      NoBucketLostVolume(hourly, server, start, end, limit, width, k, b);
    }
    FullVolumeIsClean(server, start, end, limit, width, k);
  }

  /** From a start on a quarter of an hour, then, exactly when paging loses no trade. */
  lemma HistoryIsOnePassIff(hourly: seq<Bucket>, whole: seq<Bucket>, server: seq<Trade>, start: int, end: int,
                            limit: nat, width: int)
    requires width == MINUTE_BUCKET || width == QUARTER_BUCKET
    requires InTimeOrder(server, Ms()) && limit > 0 && start >= 0 && start % (QUARTER_BUCKET * 1000) == 0
    requires forall t | t in server :: t.qty > 0.0
    requires IsHourly(hourly, server, start, end, limit, width, Hours(start, end))
             && IsBucketing(whole, Span(server, start, end), width)
    ensures hourly == whole <==> CleanHours(server, start, end, limit)
  {
    hide CleanHours, IsHourly, IsBucketing, NoStraddle;
    AlignedStartNeverStraddles(server, start, end);
    HourlyEqualsOnePassIff(hourly, whole, server, start, end, limit, width);
  }

  lemma FullVolumeIsClean(server: seq<Trade>, start: int, end: int, limit: nat, width: int, k: nat)
    requires InTimeOrder(server, Ms()) && limit > 0 && width > 0 && forall t | t in server :: t.qty > 0.0
    requires forall b: int :: SumBy(Group(HourTrades(server, start, end, limit, k), width, b), Qty())
                           == SumBy(Group(Keep(server, InHour(start, end, k)), width, b), Qty())
    ensures CleanHour(server, start, end, limit, k)
  {
    hide Keep, SumBy, Position, CleanCuts, Group, PagedByTime;
    GroupsTellTotal(HourTrades(server, start, end, limit, k), Keep(server, InHour(start, end, k)), width);
    BetweenIsSlice(server, Ms(), HourStart(start, end, k), HourStart(start, end, k + 1) - 1);
    PagedVolume(server, HourStart(start, end, k), HourStart(start, end, k + 1) - 1, limit);
  }

  // ---------------------------------------------------------------- two histories that come out short

  function Bought(ms: int): Trade {
    Trade(ms, 1.0, false)
  }

  /** Two trades in one millisecond and pages of one: the second is lost. */
  lemma LostTradeExample()
    ensures var server := [Bought(0), Bought(0)];
            PagedByTime(server, 0, 1, 1) == [Bought(0)] && Keep(server, Between(Ms(), 0, 1)) == server
  {
    var server := [Bought(0), Bought(0)];
    KeepAll(server, Between(Ms(), 0, 1));
    assert PageFrom(server, 0, 1, 1) == [Bought(0)];
    KeepNone(server, Between(Ms(), 1, 1));
    assert PagedByTime(server, 1, 1, 1) == [];
  }

  /** Loading from one minute past the hour cuts the quarter that begins on the hour: the first of its
      two trades is overwritten, whatever the page limit. */
  lemma MisalignedStartExample(hourly: seq<Bucket>, whole: seq<Bucket>, limit: nat)
    requires limit >= 2
    requires IsHourly(hourly, [Bought(3_605_000), Bought(3_700_000)], 60_000, 7_260_000, limit, QUARTER_BUCKET, 2)
    requires IsBucketing(whole, Span([Bought(3_605_000), Bought(3_700_000)], 60_000, 7_260_000), QUARTER_BUCKET)
    ensures hourly != whole
  {
    MisalignedIsComplete(limit);
    SameBucketLaterHour();
    hide IsHourly, IsBucketing, PagesComplete, Span, NoStraddle, Hours, BucketFloor, HourOf;
    TwoHoursStraddle(Bought(3_605_000), Bought(3_700_000), 60_000, 7_260_000, QUARTER_BUCKET);
    HourlyIsOnePassIff(hourly, whole, [Bought(3_605_000), Bought(3_700_000)], 60_000, 7_260_000, limit, QUARTER_BUCKET);
  }

  lemma TwoHoursStraddle(t: Trade, u: Trade, start: int, end: int, width: int)
    requires width > 0 && start <= t.ms < end && start <= u.ms < end
    requires BucketFloor(t, width) == BucketFloor(u, width) && HourOf(start, t) != HourOf(start, u)
    ensures !NoStraddle(Span([t, u], start, end), start, width)
  {
    hide BucketFloor, HourOf;
    KeepAll([t, u], Between(Ms(), start, end - 1));
    hide Keep;
    assert t in Span([t, u], start, end) && u in Span([t, u], start, end);
  }

  lemma SameBucketLaterHour()
    ensures BucketFloor(Bought(3_605_000), QUARTER_BUCKET) == BucketFloor(Bought(3_700_000), QUARTER_BUCKET) == 3600
    ensures HourOf(60_000, Bought(3_605_000)) == 0 && HourOf(60_000, Bought(3_700_000)) == 1
  {
  }

  lemma MisalignedIsComplete(limit: nat)
    requires limit >= 2
    ensures Hours(60_000, 7_260_000) == 2
    ensures PagesComplete([Bought(3_605_000), Bought(3_700_000)], 60_000, 7_260_000, limit, 2)
  {
    var server := [Bought(3_605_000), Bought(3_700_000)];
    assert Hours(60_000, 7_260_000) == 2;
    hide Position, PagesComplete;
    forall k: nat | k < 2 ensures CleanHour(server, 60_000, 7_260_000, limit, k) {
      PositionGrows(server, Ms(), HourStart(60_000, 7_260_000, k), HourStart(60_000, 7_260_000, k + 1));
    }
    CleanHoursLoseNothing(server, 60_000, 7_260_000, limit);
  }
}
