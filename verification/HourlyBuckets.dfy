/**
 Loading history hour by hour (scripts/bootstrap_history.py): each hour is paged by time and bucketed by
 itself, and a bucket seen again in a later hour replaces the earlier one.
 */
module HourlyBuckets {
  import opened Prelude
  import opened Sorting
  import opened Timeline
  import opened Buckets

  const HOUR_MS := 3_600_000

  function Ms(): Trade -> int {
    (t: Trade) => t.ms
  }

  // ---------------------------------------------------------------- paging by time

  function PageFrom(server: seq<Trade>, cursor: int, to: int, limit: nat): seq<Trade> {
    First(Keep(server, Between(Ms(), cursor, to)), limit)
  }

  /** Pages from a cursor on; after a full page the cursor moves one millisecond past its last trade. */
  function PagedByTime(server: seq<Trade>, cursor: int, to: int, limit: nat): seq<Trade>
    decreases 1 + to - cursor
  {
    if cursor > to then []
    else
      var batch := PageFrom(server, cursor, to, limit);
      if |batch| == 0 || |batch| < limit then batch
      else
        var last := batch[|batch| - 1].ms;
        if last >= to || last + 1 <= cursor then batch else batch + PagedByTime(server, last + 1, to, limit)
  }

  method FetchWindowTrades(server: seq<Trade>, limit: nat, windowStart: int, windowEnd: int)
    returns (windowTrades: seq<Trade>)
    ensures windowTrades == PagedByTime(server, windowStart, windowEnd - 1, limit)
  {
    hide PageFrom;
    var cursorMs := windowStart;
    windowTrades := [];
    while cursorMs < windowEnd
      invariant windowTrades + PagedByTime(server, cursorMs, windowEnd - 1, limit)
                == PagedByTime(server, windowStart, windowEnd - 1, limit)
      decreases windowEnd - cursorMs
    {
      ghost var rest := PagedByTime(server, cursorMs, windowEnd - 1, limit);
      var batch := PageFrom(server, cursorMs, windowEnd - 1, limit);
      if |batch| == 0 {
        assert windowTrades + rest == windowTrades;
        return;
      }
      ghost var before := windowTrades;
      windowTrades := windowTrades + batch;
      var lastEventMs := batch[|batch| - 1].ms;
      if |batch| < limit || lastEventMs >= windowEnd - 1 {
        return;
      }
      var nextCursor := lastEventMs + 1;
      if nextCursor <= cursorMs {
        return;
      }
      assert before + rest == windowTrades + PagedByTime(server, nextCursor, windowEnd - 1, limit);
      cursorMs := nextCursor;
    }
    assert windowTrades + [] == windowTrades;
  }

  /** No page boundary in a stretch falls between two trades of one millisecond. */
  ghost predicate CleanCuts(server: seq<Trade>, k: nat, b: nat, limit: nat)
    requires k <= b <= |server| && limit > 0
    decreases b - k
  {
    k + limit < b ==> server[k + limit - 1].ms < server[k + limit].ms && CleanCuts(server, k + limit, b, limit)
  }

  /** A window with no trades in it pages to nothing. */
  lemma PagedNothing(server: seq<Trade>, cursor: int, to: int, limit: nat)
    requires InTimeOrder(server, Ms()) && cursor <= to + 1
    requires Position(server, Ms(), cursor) == Position(server, Ms(), to + 1)
    ensures PagedByTime(server, cursor, to, limit) == []
  {
    hide Keep, Position;
    BetweenIsSlice(server, Ms(), cursor, to);
  }

  /** The first page of a window: the last one, or a full one cut after `limit` trades. */
  lemma FirstPage(server: seq<Trade>, cursor: int, to: int, limit: nat)
    requires InTimeOrder(server, Ms()) && cursor <= to && limit > 0
    ensures var k, b := Position(server, Ms(), cursor), Position(server, Ms(), to + 1);
            && k <= b
            && PageFrom(server, cursor, to, limit) == server[k..MinInt(k + limit, b)]
            && forall i | k <= i < b :: cursor <= server[i].ms <= to
  {
    hide Keep, Position;
    BetweenIsSlice(server, Ms(), cursor, to);
    PositionMeaning(server, Ms(), cursor);
    PositionMeaning(server, Ms(), to + 1);
  }

  /** Behind the last millisecond of a page: no further than the end, and right behind the page just
      when the next trade is later. */
  lemma AfterPage(server: seq<Trade>, p: nat, to: int)
    requires InTimeOrder(server, Ms()) && 0 < p <= Position(server, Ms(), to + 1) && server[p - 1].ms <= to
    ensures p <= Position(server, Ms(), server[p - 1].ms + 1) <= Position(server, Ms(), to + 1)
    ensures p < |server| ==> (server[p].ms > server[p - 1].ms <==> Position(server, Ms(), server[p - 1].ms + 1) == p)
  {
    hide Position;
    PositionMeaning(server, Ms(), server[p - 1].ms + 1);
    PositionGrows(server, Ms(), server[p - 1].ms + 1, to + 1);
  }

  /** One step of paging by time, told by positions. */
  lemma PagedStep(server: seq<Trade>, cursor: int, to: int, limit: nat)
    requires InTimeOrder(server, Ms()) && cursor <= to && limit > 0
    ensures var k, b := Position(server, Ms(), cursor), Position(server, Ms(), to + 1);
            && k <= b
            && (k + limit >= b ==> PagedByTime(server, cursor, to, limit) == server[k..b])
            && (k + limit < b ==>
                  var last := server[k + limit - 1].ms;
                  && cursor <= last <= to
                  && (last == to ==>
                        server[k + limit].ms == last && PagedByTime(server, cursor, to, limit) == server[k..k + limit])
                  && (last < to ==>
                        PagedByTime(server, cursor, to, limit)
                        == server[k..k + limit] + PagedByTime(server, last + 1, to, limit)))
  {
    hide PageFrom, Position, InTimeOrder;
    var k, b := Position(server, Ms(), cursor), Position(server, Ms(), to + 1);
    FirstPage(server, cursor, to, limit);
    if k + limit == b {
      AfterPage(server, b, to);
      if server[b - 1].ms < to {
        PagedNothing(server, server[b - 1].ms + 1, to, limit);
        assert server[k..b] + [] == server[k..b];
      }
    } else if k + limit < b {
      NextNotEarlier(server, k + limit);
    }
  }

  lemma NextNotEarlier(server: seq<Trade>, p: nat)
    requires InTimeOrder(server, Ms()) && 0 < p < |server|
    ensures server[p - 1].ms <= server[p].ms
  {
    assert Ms()(server[p - 1]) <= Ms()(server[p]);
  }

  lemma {:induction false} PagedNoLonger(server: seq<Trade>, cursor: int, to: int, limit: nat)
    requires InTimeOrder(server, Ms()) && cursor <= to + 1 && limit > 0
    ensures |PagedByTime(server, cursor, to, limit)| <= Position(server, Ms(), to + 1) - Position(server, Ms(), cursor)
    decreases 1 + to - cursor
  {
    hide PagedByTime, Position, InTimeOrder;
    if cursor > to {
      PagedNothing(server, cursor, to, limit);
    } else {
      PagedStep(server, cursor, to, limit);
      var k, b := Position(server, Ms(), cursor), Position(server, Ms(), to + 1);
      if k + limit < b && server[k + limit - 1].ms < to {
        AfterPage(server, k + limit, to);
        PagedNoLonger(server, server[k + limit - 1].ms + 1, to, limit);
      }
    }
  }

  /** Paging by time returns every trade of the window just when no page boundary falls inside a millisecond. */
  lemma {:induction false} PagingIsComplete(server: seq<Trade>, cursor: int, to: int, limit: nat)
    requires InTimeOrder(server, Ms()) && cursor <= to + 1 && limit > 0
    ensures Position(server, Ms(), cursor) <= Position(server, Ms(), to + 1)
    ensures PagedByTime(server, cursor, to, limit) == Keep(server, Between(Ms(), cursor, to))
       <==> CleanCuts(server, Position(server, Ms(), cursor), Position(server, Ms(), to + 1), limit)
    decreases 1 + to - cursor
  {
    hide Keep, Position, CleanCuts, PagedByTime, InTimeOrder;
    var k, b := Position(server, Ms(), cursor), Position(server, Ms(), to + 1);
    BetweenIsSlice(server, Ms(), cursor, to);
    CleanStep(server, k, b, limit);
    if cursor > to {
      PagedNothing(server, cursor, to, limit);
    } else {
      PagedStep(server, cursor, to, limit);
      if k + limit < b && server[k + limit - 1].ms < to {
        var next := server[k + limit - 1].ms + 1;
        AfterPage(server, k + limit, to);
        NextNotEarlier(server, k + limit);
        PagingIsComplete(server, next, to, limit);
        PagedNoLonger(server, next, to, limit);
        BetweenIsSlice(server, Ms(), next, to);
        BatchThenRest(server, k, k + limit, b, PagedByTime(server, next, to, limit));
      }
    }
  }

  lemma CleanStep(server: seq<Trade>, k: nat, b: nat, limit: nat)
    requires k <= b <= |server| && limit > 0
    ensures CleanCuts(server, k, b, limit) <==>
              (k + limit < b ==>
                 server[k + limit - 1].ms < server[k + limit].ms && CleanCuts(server, k + limit, b, limit))
  {
  }

  lemma BatchThenRest(server: seq<Trade>, k: nat, next: nat, b: nat, rest: seq<Trade>)
    requires k <= next <= b <= |server|
    ensures server[k..next] + rest == server[k..b] <==> rest == server[next..b]
  {
    assert server[k..b] == server[k..next] + server[next..b];
    if server[k..next] + rest == server[k..b] {
      assert rest == (server[k..next] + rest)[next - k..];
      assert server[next..b] == server[k..b][next - k..];
    }
  }

  // ---------------------------------------------------------------- later buckets replace earlier ones

  /** The last row with the given time. */
  function LastAt(rows: seq<Bucket>, b: int): Option<Bucket> {
    if |rows| == 0 then None
    else if rows[|rows| - 1].time == b then Some(rows[|rows| - 1])
    else LastAt(rows[..|rows| - 1], b)
  }

  lemma {:induction false} LastAtSplits(rows: seq<Bucket>, more: seq<Bucket>, b: int)
    ensures LastAt(rows + more, b) == if LastAt(more, b).Some? then LastAt(more, b) else LastAt(rows, b)
  {
    if |more| == 0 {
      assert rows + more == rows;
    } else {
      assert (rows + more)[..|rows + more| - 1] == rows + more[..|more| - 1];
      LastAtSplits(rows, more[..|more| - 1], b);
    }
  }

  lemma {:induction false} LastAtMember(rows: seq<Bucket>, b: int)
    ensures LastAt(rows, b).None? <==> forall x | x in rows :: x.time != b
    ensures LastAt(rows, b).Some? ==> LastAt(rows, b).value in rows && LastAt(rows, b).value.time == b
  {
    if |rows| > 0 {
      LastAtMember(rows[..|rows| - 1], b);
      assert rows == rows[..|rows| - 1] + [rows[|rows| - 1]];
    }
  }

  /** The rows, one for every time, as the dictionary of last rows holds them. */
  ghost predicate Latest(d: Dict<Bucket>, rows: seq<Bucket>) {
    && d.Valid()
    && forall b :: if b in d.cells then LastAt(rows, b) == Some(d.cells[b]) else LastAt(rows, b).None?
  }

  method DedupeRows(rows: seq<Bucket>) returns (deduped: seq<Bucket>)
    ensures forall i, j | 0 <= i < j < |deduped| :: deduped[i].time != deduped[j].time
    ensures forall x :: x in deduped <==> LastAt(rows, x.time) == Some(x)
  {
    var d: Dict<Bucket> := Dict([], map[]);
    for i := 0 to |rows|
      invariant Latest(d, rows[..i])
    {
      assert rows[..i + 1][..i] == rows[..i];
      d := d.Put(rows[i].time, rows[i]);
    }
    assert rows[..|rows|] == rows;
    deduped := [];
    for i := 0 to |d.keys|
      invariant |deduped| == i
      invariant forall k | 0 <= k < i :: d.keys[k] in d.cells && deduped[k] == d.cells[d.keys[k]]
    {
      assert d.keys[i] in d.keys;
      deduped := deduped + [d.cells[d.keys[i]]];
    }
    ValuesAreLatest(d, rows, deduped);
  }

  lemma ValuesAreLatest(d: Dict<Bucket>, rows: seq<Bucket>, values: seq<Bucket>)
    requires Latest(d, rows) && |values| == |d.keys|
    requires forall k | 0 <= k < |values| :: d.keys[k] in d.cells && values[k] == d.cells[d.keys[k]]
    ensures forall i, j | 0 <= i < j < |values| :: values[i].time != values[j].time
    ensures forall x :: x in values <==> LastAt(rows, x.time) == Some(x)
  {
    hide LastAt;
    forall k | 0 <= k < |values| ensures values[k].time == d.keys[k] {
      LastAtMember(rows, d.keys[k]);
    }
    forall x ensures x in values <==> LastAt(rows, x.time) == Some(x) {
      if LastAt(rows, x.time) == Some(x) {
        assert x.time in d.keys;
        var k :| 0 <= k < |d.keys| && d.keys[k] == x.time;
        assert values[k] == x;
      }
    }
  }

  // ---------------------------------------------------------------- hour by hour

  function HourStart(start: int, end: int, k: nat): int {
    MinInt(start + k * HOUR_MS, end)
  }

  function HourTrades(server: seq<Trade>, start: int, end: int, limit: nat, k: nat): seq<Trade> {
    PagedByTime(server, HourStart(start, end, k), HourStart(start, end, k + 1) - 1, limit)
  }

  /** How many windows of an hour the span takes, the last one possibly shorter. */
  function Hours(start: int, end: int): nat {
    if end <= start then 0 else (end - start + HOUR_MS - 1) / HOUR_MS
  }

  function TradesIn(server: seq<Trade>, start: int, end: int, limit: nat, k: nat): nat {
    if k == 0 then 0 else TradesIn(server, start, end, limit, k - 1) + |HourTrades(server, start, end, limit, k - 1)|
  }

  /** The bucket of the last hour, among the first `k`, in which some trade loaded falls in it. */
  function LastBucket(server: seq<Trade>, start: int, end: int, limit: nat, width: int, k: nat, b: int): Option<Bucket>
    requires width > 0
  {
    if k == 0 then None
    else
      var group := Group(HourTrades(server, start, end, limit, k - 1), width, b);
      if |group| > 0 then Some(MakeBucket(b, VolumesOf(group)))
      else LastBucket(server, start, end, limit, width, k - 1, b)
  }

  ghost predicate Accumulated(rows: seq<Bucket>, server: seq<Trade>, start: int, end: int, limit: nat, width: int,
                              k: nat)
    requires width > 0
  {
    forall b :: LastAt(rows, b) == LastBucket(server, start, end, limit, width, k, b)
  }

  /** In time order, the bucket of the last hour for every bucket time. */
  ghost predicate IsHourly(buckets: seq<Bucket>, server: seq<Trade>, start: int, end: int, limit: nat, width: int,
                           k: nat)
    requires width > 0
  {
    Rising(buckets) && forall x :: x in buckets <==> LastBucket(server, start, end, limit, width, k, x.time) == Some(x)
  }

  lemma HourAccumulates(rows: seq<Bucket>, more: seq<Bucket>, server: seq<Trade>, start: int, end: int, limit: nat,
                        width: int, k: nat)
    requires width > 0 && Accumulated(rows, server, start, end, limit, width, k)
    requires IsBucketing(more, HourTrades(server, start, end, limit, k), width)
    ensures Accumulated(rows + more, server, start, end, limit, width, k + 1)
  {
    hide LastAt, MakeBucket, VolumesOf, HourTrades, BucketFloor, Group;
    var trades := HourTrades(server, start, end, limit, k);
    forall b ensures LastAt(rows + more, b) == LastBucket(server, start, end, limit, width, k + 1, b) {
      LastAtSplits(rows, more, b);
      LastAtMember(more, b);
      BucketAtTime(trades, width, b);
      OccupiedHasGroup(trades, width, b);
      if Occupied(trades, width, b) {
        assert BucketAt(trades, width, b) in more;
      }
    }
  }

  lemma OccupiedHasGroup(trades: seq<Trade>, width: int, b: int)
    requires width > 0
    ensures Occupied(trades, width, b) <==> |Group(trades, width, b)| > 0
  {
    hide BucketFloor, Keep;
    if Occupied(trades, width, b) {
      var t :| t in trades && BucketFloor(t, width) == b;
      KeepMember(trades, InBucket(width, b), t);
    } else {
      KeepNone(trades, InBucket(width, b));
    }
  }

  lemma SortedIsHourly(rows: seq<Bucket>, deduped: seq<Bucket>, server: seq<Trade>, start: int, end: int, limit: nat,
                       width: int, k: nat)
    requires width > 0 && Accumulated(rows, server, start, end, limit, width, k)
    requires forall i, j | 0 <= i < j < |deduped| :: deduped[i].time != deduped[j].time
    requires forall x :: x in deduped <==> LastAt(rows, x.time) == Some(x)
    ensures IsHourly(StableSort(deduped, Earlier), server, start, end, limit, width, k)
  {
    hide LastAt, LastBucket, Rising;
    SortRises(deduped);
  }

  method FetchAggtradeBucketsPaginated(server: seq<Trade>, start: int, end: int, limit: nat)
    returns (deduped60s: seq<Bucket>, deduped15m: seq<Bucket>, totalTrades: nat)
    ensures IsHourly(deduped60s, server, start, end, limit, MINUTE_BUCKET, Hours(start, end))
    ensures IsHourly(deduped15m, server, start, end, limit, QUARTER_BUCKET, Hours(start, end))
    ensures totalTrades == TradesIn(server, start, end, limit, Hours(start, end))
  {
    hide LastAt, LastBucket, PagedByTime, Rising, Occupied, BucketAt, Accumulated, IsHourly, IsBucketing;
    var buckets60s: seq<Bucket>, buckets15m: seq<Bucket> := [], [];
    totalTrades := 0;
    ghost var hours := 0;
    NothingAccumulated(server, start, end, limit, MINUTE_BUCKET);
    NothingAccumulated(server, start, end, limit, QUARTER_BUCKET);
    var windowStart := start;
    while windowStart < end
      invariant if start < end then windowStart == HourStart(start, end, hours) else hours == 0 && windowStart == start
      invariant hours > 0 ==> HourStart(start, end, hours - 1) < end
      invariant totalTrades == TradesIn(server, start, end, limit, hours)
      invariant Accumulated(buckets60s, server, start, end, limit, MINUTE_BUCKET, hours)
      invariant Accumulated(buckets15m, server, start, end, limit, QUARTER_BUCKET, hours)
      decreases end - windowStart
    {
      var windowEnd := MinInt(windowStart + HOUR_MS, end);
      var windowTrades := FetchWindowTrades(server, limit, windowStart, windowEnd);
      totalTrades := totalTrades + |windowTrades|;
      assert windowTrades == HourTrades(server, start, end, limit, hours);
      var more60s: seq<Bucket>, more15m: seq<Bucket> := [], [];
      NothingBucketed(MINUTE_BUCKET);
      NothingBucketed(QUARTER_BUCKET);
      if |windowTrades| > 0 {
        more60s := BuildAggtradeBuckets(windowTrades, MINUTE_BUCKET);
        more15m := BuildAggtradeBuckets(windowTrades, QUARTER_BUCKET);
      }
      HourAccumulates(buckets60s, more60s, server, start, end, limit, MINUTE_BUCKET, hours);
      HourAccumulates(buckets15m, more15m, server, start, end, limit, QUARTER_BUCKET, hours);
      buckets60s := buckets60s + more60s;
      buckets15m := buckets15m + more15m;
      windowStart, hours := windowEnd, hours + 1;
    }
    assert hours == Hours(start, end);
    deduped60s := DedupeRows(buckets60s);
    deduped15m := DedupeRows(buckets15m);
    SortedIsHourly(buckets60s, deduped60s, server, start, end, limit, MINUTE_BUCKET, hours);
    SortedIsHourly(buckets15m, deduped15m, server, start, end, limit, QUARTER_BUCKET, hours);
    deduped60s := StableSort(deduped60s, Earlier);
    deduped15m := StableSort(deduped15m, Earlier);
  }

  lemma NothingAccumulated(server: seq<Trade>, start: int, end: int, limit: nat, width: int)
    requires width > 0
    ensures Accumulated([], server, start, end, limit, width, 0)
  {
  }

  lemma NothingBucketed(width: int)
    requires width > 0
    ensures IsBucketing([], [], width)
  {
  }

  // ---------------------------------------------------------------- hour by hour against one pass

  /** The trades of the whole span. */
  function Span(server: seq<Trade>, start: int, end: int): seq<Trade> {
    Keep(server, Between(Ms(), start, end - 1))
  }

  function InHour(start: int, end: int, k: nat): Trade -> bool {
    Between(Ms(), HourStart(start, end, k), HourStart(start, end, k + 1) - 1)
  }

  function HourOf(start: int, t: Trade): int {
    (t.ms - start) / HOUR_MS
  }

  /** Paging loses no trade of any hour. */
  ghost predicate PagesComplete(server: seq<Trade>, start: int, end: int, limit: nat, hours: nat) {
    forall k | 0 <= k < hours :: HourTrades(server, start, end, limit, k) == Keep(server, InHour(start, end, k))
  }

  /** No bucket holds trades of two hours. */
  ghost predicate NoStraddle(trades: seq<Trade>, start: int, width: int)
    requires width > 0
  {
    forall t, u | t in trades && u in trades && BucketFloor(t, width) == BucketFloor(u, width) ::
        HourOf(start, t) == HourOf(start, u)
  }

  lemma InHourMeaning(start: int, end: int, k: nat, t: Trade)
    ensures InHour(start, end, k)(t) <==> start <= t.ms < end && HourOf(start, t) == k
  {
    var h, r := (t.ms - start) / HOUR_MS, (t.ms - start) % HOUR_MS;
    assert t.ms == start + h * HOUR_MS + r;
  }

  lemma InSpanMeaning(start: int, end: int, t: Trade)
    ensures Between(Ms(), start, end - 1)(t) <==> start <= t.ms < end
  {
  }

  /** The trades of one hour in one bucket, read off the whole span. */
  lemma DueGroup(server: seq<Trade>, start: int, end: int, width: int, k: nat, b: int)
    requires width > 0
    ensures Group(Keep(server, InHour(start, end, k)), width, b)
         == Keep(Group(Span(server, start, end), width, b), (t: Trade) => HourOf(start, t) == k)
  {
    hide Keep, BucketFloor, HourOf, InHour;
    var inHour := (t: Trade) => HourOf(start, t) == k;
    var whole := (t: Trade) => InHour(start, end, k)(t) && InBucket(width, b)(t);
    var part := (t: Trade) => Between(Ms(), start, end - 1)(t) && InBucket(width, b)(t);
    forall t | t in server ensures whole(t) <==> part(t) && inHour(t) {
      InHourMeaning(start, end, k, t);
      InSpanMeaning(start, end, t);
    }
    KeepTwice(server, InHour(start, end, k), InBucket(width, b), whole);
    KeepTwice(server, Between(Ms(), start, end - 1), InBucket(width, b), part);
    KeepTwice(server, part, inHour, whole);
  }

  /** Some trade of the group falls in an hour before the k-th. */
  ghost predicate SomeBefore(group: seq<Trade>, start: int, k: nat) {
    exists t | t in group :: HourOf(start, t) < k
  }

  ghost predicate OneHour(group: seq<Trade>, start: int) {
    forall t, u | t in group && u in group :: HourOf(start, t) == HourOf(start, u)
  }

  lemma OneHourGroup(group: seq<Trade>, start: int, k: nat)
    requires OneHour(group, start)
    ensures var inHour := (t: Trade) => HourOf(start, t) == k;
            && (|Keep(group, inHour)| > 0 <==> exists t | t in group :: HourOf(start, t) == k)
            && (|Keep(group, inHour)| > 0 ==> Keep(group, inHour) == group)
  {
    hide Keep, HourOf;
    var inHour := (t: Trade) => HourOf(start, t) == k;
    if t :| t in group && HourOf(start, t) == k {
      KeepMember(group, inHour, t);
      KeepAll(group, inHour);
    } else {
      KeepNone(group, inHour);
    }
  }

  /** Without straddling, the last hour's bucket is the bucket of the whole span. */
  lemma {:induction false} LastBucketIsWhole(server: seq<Trade>, start: int, end: int, limit: nat, width: int, k: nat,
                                             b: int)
    requires width > 0 && PagesComplete(server, start, end, limit, k)
    requires OneHour(Group(Span(server, start, end), width, b), start)
    requires forall t | t in Span(server, start, end) :: HourOf(start, t) >= 0
    ensures LastBucket(server, start, end, limit, width, k, b)
         == if SomeBefore(Group(Span(server, start, end), width, b), start, k)
            then Some(BucketAt(Span(server, start, end), width, b))
            else None
  {
    hide Keep, HourOf, HourTrades, MakeBucket, VolumesOf, BucketFloor, Span;
    var group := Group(Span(server, start, end), width, b);
    GroupWithin(server, start, end, width, b);
    if k > 0 {
      LastBucketIsWhole(server, start, end, limit, width, k - 1, b);
      DueGroup(server, start, end, width, k - 1, b);
      OneHourGroup(group, start, k - 1);
    }
  }

  lemma GroupWithin(server: seq<Trade>, start: int, end: int, width: int, b: int)
    requires width > 0
    ensures forall t ::
              t in Group(Span(server, start, end), width, b)
              <==> t in Span(server, start, end) && BucketFloor(t, width) == b
    ensures forall t | t in Span(server, start, end) :: start <= t.ms < end && HourOf(start, t) >= 0
  {
    hide Keep, BucketFloor;
    forall t ensures t in Group(Span(server, start, end), width, b)
        <==> t in Span(server, start, end) && BucketFloor(t, width) == b {
      KeepMember(Span(server, start, end), InBucket(width, b), t);
    }
    forall t | t in Span(server, start, end) ensures start <= t.ms < end {
      KeepMember(server, Between(Ms(), start, end - 1), t);
    }
  }

  /** Hour by hour gives what one pass over the whole span gives, when no bucket straddles an hour. */
  lemma HourlyIsOnePass(hourly: seq<Bucket>, whole: seq<Bucket>, server: seq<Trade>, start: int, end: int, limit: nat,
                        width: int)
    requires width > 0
    requires IsHourly(hourly, server, start, end, limit, width, Hours(start, end))
             && IsBucketing(whole, Span(server, start, end), width)
    requires PagesComplete(server, start, end, limit, Hours(start, end))
    requires NoStraddle(Span(server, start, end), start, width)
    ensures hourly == whole
  {
    hide Keep, BucketFloor, Rising, Span, MakeBucket, VolumesOf, Group, LastBucket, HourOf;
    var hours := Hours(start, end);
    forall x ensures x in hourly <==> x in whole {
      var group := Group(Span(server, start, end), width, x.time);
      GroupWithin(server, start, end, width, x.time);
      LastBucketIsWhole(server, start, end, limit, width, hours, x.time);
      HoursCoverSpan(server, start, end);
      if Occupied(Span(server, start, end), width, x.time) {
        var t :| t in Span(server, start, end) && BucketFloor(t, width) == x.time;
        assert t in group;
      }
    }
    RisingIsUnique(hourly, whole);
  }

  lemma HoursCoverSpan(server: seq<Trade>, start: int, end: int)
    ensures forall t | t in Span(server, start, end) :: HourOf(start, t) < Hours(start, end)
  {
    hide Keep;
    forall t | t in Span(server, start, end) ensures HourOf(start, t) < Hours(start, end) {
      KeepMember(server, Between(Ms(), start, end - 1), t);
    }
  }

  /** From a start on a quarter of an hour, at or after the epoch, no bucket of either width straddles an hour. */
  lemma AlignedStartNeverStraddles(server: seq<Trade>, start: int, end: int)
    requires start >= 0 && start % (QUARTER_BUCKET * 1000) == 0
    ensures NoStraddle(Span(server, start, end), start, MINUTE_BUCKET)
    ensures NoStraddle(Span(server, start, end), start, QUARTER_BUCKET)
  {
    hide Keep, Floor;
    GroupWithin(server, start, end, QUARTER_BUCKET, 0);
    forall t, u | t in Span(server, start, end) && u in Span(server, start, end)
                  && (BucketFloor(t, MINUTE_BUCKET) == BucketFloor(u, MINUTE_BUCKET)
                      || BucketFloor(t, QUARTER_BUCKET) == BucketFloor(u, QUARTER_BUCKET))
      ensures HourOf(start, t) == HourOf(start, u)
    {
      FloorNests(Seconds(t.ms));
      FloorNests(Seconds(u.ms));
      HourFromQuarter(start, t);
      HourFromQuarter(start, u);
    }
  }

  /** The hour is read off the fifteen-minute bucket. */
  lemma HourFromQuarter(start: int, t: Trade)
    requires 0 <= start <= t.ms && start % (QUARTER_BUCKET * 1000) == 0
    ensures HourOf(start, t) == (BucketFloor(t, QUARTER_BUCKET) - start / 1000) / 3600
  {
    var q := start / 900_000;
    var rest := t.ms - start;
    var m, r := rest / 900_000, rest % 900_000;
    assert start == 900_000 * q && rest == 900_000 * m + r;
    var seconds := r / 1000;
    assert t.ms / 1000 == 900 * (q + m) + seconds;
    QuarterRemainder(t.ms / 1000, q + m, seconds);
    assert BucketFloor(t, QUARTER_BUCKET) == 900 * (q + m);
    assert start / 1000 == 900 * q;
    var a, c := m / 4, m % 4;
    assert 900 * m == 3600 * a + 900 * c;
    assert rest == 3_600_000 * a + (900_000 * c + r);
  }

  // ---------------------------------------------------------------- and only then

  lemma {:induction false} SumPositive(trades: seq<Trade>)
    requires forall t | t in trades :: t.qty > 0.0
    ensures SumBy(trades, Qty()) >= 0.0 && (|trades| > 0 ==> SumBy(trades, Qty()) > 0.0)
  {
    if |trades| > 0 {
      SumPositive(trades[..|trades| - 1]);
    }
  }

  /** Leaving a trade out leaves less volume. */
  lemma LeavingOutIsLess(group: seq<Trade>, p: Trade -> bool, t: Trade)
    requires forall x | x in group :: x.qty > 0.0
    requires t in group && !p(t)
    ensures SumBy(Keep(group, p), Qty()) < SumBy(group, Qty())
  {
    hide Keep, SumBy;
    var out, all := (x: Trade) => !p(x), (x: Trade) => true;
    KeepDisjointSum(group, p, out, all, Qty());
    KeepAll(group, all);
    KeepMember(group, out, t);
    forall x | x in Keep(group, out) ensures x.qty > 0.0 {
      KeepMember(group, out, x);
    }
    SumPositive(Keep(group, out));
  }

  lemma BucketTotal(b: int, group: seq<Trade>)
    ensures MakeBucket(b, VolumesOf(group)).takerBuyVolume + MakeBucket(b, VolumesOf(group)).takerSellVolume
            == SumBy(group, Qty())
  {
    SumByPlus(group, BuyQty(), SellQty(), Qty());
  }

  lemma {:induction false} LastBucketOfSomeHour(server: seq<Trade>, start: int, end: int, limit: nat, width: int,
                                                k: nat, b: int) returns (m: nat)
    requires width > 0 && LastBucket(server, start, end, limit, width, k, b).Some?
    ensures m < k && |Group(HourTrades(server, start, end, limit, m), width, b)| > 0
    ensures LastBucket(server, start, end, limit, width, k, b).value
            == MakeBucket(b, VolumesOf(Group(HourTrades(server, start, end, limit, m), width, b)))
  {
    if |Group(HourTrades(server, start, end, limit, k - 1), width, b)| > 0 {
      m := k - 1;
    } else {
      m := LastBucketOfSomeHour(server, start, end, limit, width, k - 1, b);
    }
  }

  /** A bucket with trades of two hours keeps only those of one. */
  lemma StraddledBucketIsShort(server: seq<Trade>, start: int, end: int, limit: nat, width: int, hours: nat, t: Trade,
                               u: Trade)
    requires width > 0 && PagesComplete(server, start, end, limit, hours)
    requires forall x | x in server :: x.qty > 0.0
    requires t in Span(server, start, end) && u in Span(server, start, end)
    requires BucketFloor(t, width) == BucketFloor(u, width) && HourOf(start, t) != HourOf(start, u)
    ensures var b := BucketFloor(t, width);
            LastBucket(server, start, end, limit, width, hours, b) != Some(BucketAt(Span(server, start, end), width, b))
  {
    hide Keep, SumBy, BucketFloor, MakeBucket, VolumesOf, LastBucket, HourOf, HourTrades;
    var b := BucketFloor(t, width);
    var group := Group(Span(server, start, end), width, b);
    if LastBucket(server, start, end, limit, width, hours, b).Some? {
      var m := LastBucketOfSomeHour(server, start, end, limit, width, hours, b);
      var inHour := (x: Trade) => HourOf(start, x) == m;
      DueGroup(server, start, end, width, m, b);
      BucketTotal(b, group);
      BucketTotal(b, Keep(group, inHour));
      GroupWithin(server, start, end, width, b);
      forall x | x in group ensures x.qty > 0.0 {
        KeepMember(server, Between(Ms(), start, end - 1), x);
      }
      LeavingOutIsLess(group, inHour, if inHour(t) then u else t);
    }
  }

  /** With positive quantities and complete pages, hour by hour equals one pass exactly when no bucket straddles an
      hour. */
  lemma HourlyIsOnePassIff(hourly: seq<Bucket>, whole: seq<Bucket>, server: seq<Trade>, start: int, end: int,
                           limit: nat, width: int)
    requires width > 0
    requires IsHourly(hourly, server, start, end, limit, width, Hours(start, end))
             && IsBucketing(whole, Span(server, start, end), width)
    requires PagesComplete(server, start, end, limit, Hours(start, end))
    requires forall t | t in server :: t.qty > 0.0
    ensures hourly == whole <==> NoStraddle(Span(server, start, end), start, width)
  {
    hide Keep, BucketFloor, Rising, Span, MakeBucket, VolumesOf, Group, LastBucket, HourOf, PagesComplete;
    if NoStraddle(Span(server, start, end), start, width) {
      HourlyIsOnePass(hourly, whole, server, start, end, limit, width);
    } else {
      var t, u :| t in Span(server, start, end) && u in Span(server, start, end)
                  && BucketFloor(t, width) == BucketFloor(u, width) && HourOf(start, t) != HourOf(start, u);
      StraddledBucketIsShort(server, start, end, limit, width, Hours(start, end), t, u);
      var b := BucketFloor(t, width);
      BucketAtTime(Span(server, start, end), width, b);
      assert BucketAt(Span(server, start, end), width, b) in whole;
      assert BucketAt(Span(server, start, end), width, b) !in hourly;
    }
  }
}
