/**
 Aggregating trades into one-minute and fifteen-minute buckets: the streaming fold of
 scripts/bootstrap_from_zip.py and the group-then-sum of scripts/bootstrap_history.py.
 */
module Buckets {
  import opened Prelude
  import opened RealArith
  import opened Sorting

  datatype Trade = Trade(ms: int, qty: real, buyerMaker: bool)

  datatype Volumes = Volumes(buy: real, sell: real)

  datatype Bucket = Bucket(time: int, takerBuyVolume: real, takerSellVolume: real, tfi: real, cvd: real)

  /** A dictionary with whole numbers as keys, which remembers the order in which keys came. */
  datatype Dict<V> = Dict(keys: seq<int>, cells: map<int, V>) {
    ghost predicate Valid() {
      && (forall i, j | 0 <= i < j < |keys| :: keys[i] != keys[j])
      && (forall k :: k in cells <==> k in keys)
    }

    function Put(k: int, v: V): (d: Dict<V>)
      requires Valid()
      ensures d.Valid() && d.cells == cells[k := v]
    {
      Dict(if k in cells then keys else keys + [k], cells[k := v])
    }
  }

  const MINUTE_BUCKET := 60
  const QUARTER_BUCKET := 900

  /** `int()` of the timestamp in seconds: towards zero. */
  function Seconds(ms: int): int {
    if ms >= 0 then ms / 1000 else -((-ms) / 1000)
  }

  function Floor(seconds: int, width: int): int
    requires width > 0
  {
    seconds - seconds % width
  }

  function BucketFloor(t: Trade, width: int): int
    requires width > 0
  {
    Floor(Seconds(t.ms), width)
  }

  function InBucket(width: int, b: int): Trade -> bool
    requires width > 0
  {
    (t: Trade) => BucketFloor(t, width) == b
  }

  function BuyQty(): Trade -> real {
    (t: Trade) => if t.buyerMaker then 0.0 else t.qty
  }

  function SellQty(): Trade -> real {
    (t: Trade) => if t.buyerMaker then t.qty else 0.0
  }

  function VolumesOf(group: seq<Trade>): Volumes {
    Volumes(SumBy(group, BuyQty()), SumBy(group, SellQty()))
  }

  function MakeBucket(time: int, v: Volumes): Bucket {
    var total, cvd := v.buy + v.sell, v.buy - v.sell;
    Bucket(time, v.buy, v.sell, if total == 0.0 then 0.0 else cvd / total, cvd)
  }

  function Group(trades: seq<Trade>, width: int, b: int): seq<Trade>
    requires width > 0
  {
    Keep(trades, InBucket(width, b))
  }

  function BucketAt(trades: seq<Trade>, width: int, b: int): Bucket
    requires width > 0
  {
    MakeBucket(b, VolumesOf(Group(trades, width, b)))
  }

  ghost predicate Rising(buckets: seq<Bucket>) {
    forall i, j | 0 <= i < j < |buckets| :: buckets[i].time < buckets[j].time
  }

  ghost predicate Occupied(trades: seq<Trade>, width: int, b: int)
    requires width > 0
  {
    exists t | t in trades :: BucketFloor(t, width) == b
  }

  /** In time order, one bucket for every bucket time that some trade falls in, holding the volumes of those trades. */
  ghost predicate IsBucketing(buckets: seq<Bucket>, trades: seq<Trade>, width: int)
    requires width > 0
  {
    && Rising(buckets)
    && forall x :: x in buckets <==> Occupied(trades, width, x.time) && x == BucketAt(trades, width, x.time)
  }

  // ---------------------------------------------------------------- sorting buckets

  function Earlier(a: Bucket, b: Bucket): bool {
    a.time <= b.time
  }

  lemma InsertMember(s: seq<Bucket>, x: Bucket, y: Bucket)
    ensures y in Insert(s, x, Earlier) <==> y in s || y == x
  {
    InsertKeepsElements(s, x, Earlier);
    assert y in Insert(s, x, Earlier) <==> y in multiset(Insert(s, x, Earlier));
  }

  lemma {:induction false} InsertRises(s: seq<Bucket>, x: Bucket)
    requires Rising(s) && forall y | y in s :: y.time != x.time
    ensures Rising(Insert(s, x, Earlier))
  {
    if |s| == 0 || Earlier(s[|s| - 1], x) {
    } else {
      var n := |s| - 1;
      InsertRises(s[..n], x);
      forall y | y in Insert(s[..n], x, Earlier) ensures y.time < s[n].time {
        InsertMember(s[..n], x, y);
      }
    }
  }

  /** Sorting buckets with distinct times puts them in strictly rising order and keeps them all. */
  lemma {:induction false} SortRises(s: seq<Bucket>)
    requires forall i, j | 0 <= i < j < |s| :: s[i].time != s[j].time
    ensures Rising(StableSort(s, Earlier))
    ensures forall x :: x in StableSort(s, Earlier) <==> x in s
  {
    hide Insert, Rising;
    if |s| > 0 {
      var n := |s| - 1;
      assert s == s[..n] + [s[n]];
      SortRises(s[..n]);
      InsertRises(StableSort(s[..n], Earlier), s[n]);
      forall x ensures x in StableSort(s, Earlier) <==> x in s {
        InsertMember(StableSort(s[..n], Earlier), s[n], x);
      }
    } else {
      NothingRises();
    }
  }

  lemma NothingRises()
    ensures Rising([])
  {
  }

  /** There is only one way to list the same buckets in rising order. */
  lemma {:induction false} RisingIsUnique(a: seq<Bucket>, b: seq<Bucket>)
    requires Rising(a) && Rising(b) && forall x :: x in a <==> x in b
    ensures a == b
  {
    SomeTogether(a, b);
    SomeTogether(b, a);
    if |a| > 0 {
      var m, n := |a| - 1, |b| - 1;
      SameLast(a, b);
      forall x ensures x in a[..m] <==> x in b[..n] {
        WithoutLast(a, x);
        WithoutLast(b, x);
      }
      RisingIsUnique(a[..m], b[..n]);
      assert a == a[..m] + [a[m]] && b == b[..n] + [b[n]];
    }
  }

  lemma SomeTogether(a: seq<Bucket>, b: seq<Bucket>)
    requires forall x :: x in a ==> x in b
    ensures |a| > 0 ==> |b| > 0
  {
    if |a| > 0 {
      assert a[0] in b;
    }
  }

  lemma SameLast(a: seq<Bucket>, b: seq<Bucket>)
    requires Rising(a) && Rising(b) && |a| > 0 && |b| > 0 && forall x :: x in a <==> x in b
    ensures a[|a| - 1] == b[|b| - 1]
  {
    var x, y := a[|a| - 1], b[|b| - 1];
    assert x in b && y in a;
    var i :| 0 <= i < |a| && a[i] == y;
    var j :| 0 <= j < |b| && b[j] == x;
  }

  lemma WithoutLast(a: seq<Bucket>, x: Bucket)
    requires Rising(a) && |a| > 0
    ensures x in a[..|a| - 1] <==> x in a && x != a[|a| - 1]
  {
    assert a == a[..|a| - 1] + [a[|a| - 1]];
  }

  /** Any two bucketings of the same trades are the same list. */
  lemma BucketingIsUnique(a: seq<Bucket>, b: seq<Bucket>, trades: seq<Trade>, width: int)
    requires width > 0 && IsBucketing(a, trades, width) && IsBucketing(b, trades, width)
    ensures a == b
  {
    hide Rising;
    RisingIsUnique(a, b);
  }

  // ---------------------------------------------------------------- one more trade

  /** The running volumes: a cell for every occupied bucket time, holding the volumes so far. */
  ghost predicate Totals(d: Dict<Volumes>, trades: seq<Trade>, width: int)
    requires width > 0
  {
    && d.Valid()
    && (forall b :: b in d.cells <==> Occupied(trades, width, b))
    && (forall b | b in d.cells :: d.cells[b] == VolumesOf(Group(trades, width, b)))
  }

  function Added(v: Volumes, t: Trade): Volumes {
    if t.buyerMaker then v.(sell := v.sell + t.qty) else v.(buy := v.buy + t.qty)
  }

  function CellOf(d: Dict<Volumes>, b: int): Volumes {
    if b in d.cells then d.cells[b] else Volumes(0.0, 0.0)
  }

  lemma GroupSnoc(trades: seq<Trade>, t: Trade, width: int, b: int)
    requires width > 0
    ensures Group(trades + [t], width, b) == Group(trades, width, b) + (if BucketFloor(t, width) == b then [t] else [])
    ensures VolumesOf(Group(trades, width, b) + [t]) == Added(VolumesOf(Group(trades, width, b)), t)
    ensures Occupied(trades + [t], width, b) <==> Occupied(trades, width, b) || BucketFloor(t, width) == b
  {
    hide BucketFloor;
    var longer, group := trades + [t], Group(trades, width, b);
    assert longer[..|trades|] == trades;
    assert (group + [t])[..|group|] == group;
    assert t in longer;
  }

  lemma UnoccupiedIsEmpty(trades: seq<Trade>, width: int, b: int)
    requires width > 0 && !Occupied(trades, width, b)
    ensures Group(trades, width, b) == [] && VolumesOf(Group(trades, width, b)) == Volumes(0.0, 0.0)
  {
    hide BucketFloor;
    KeepNone(trades, InBucket(width, b));
  }

  lemma AddKeepsTotals(d: Dict<Volumes>, trades: seq<Trade>, t: Trade, width: int)
    requires width > 0 && Totals(d, trades, width)
    ensures Totals(d.Put(BucketFloor(t, width), Added(CellOf(d, BucketFloor(t, width)), t)), trades + [t], width)
  {
    hide BucketFloor, VolumesOf, Group, Occupied, Added;
    var b := BucketFloor(t, width);
    var d' := d.Put(b, Added(CellOf(d, b), t));
    if b !in d.cells {
      UnoccupiedIsEmpty(trades, width, b);
    }
    forall c ensures c in d'.cells <==> Occupied(trades + [t], width, c) {
      GroupSnoc(trades, t, width, c);
    }
    forall c | c in d'.cells ensures d'.cells[c] == VolumesOf(Group(trades + [t], width, c)) {
      GroupSnoc(trades, t, width, c);
      assert Group(trades, width, c) + [] == Group(trades, width, c);
    }
  }

  // ---------------------------------------------------------------- the streaming fold

  method FinalizeBuckets(grouped: Dict<Volumes>, ghost trades: seq<Trade>, width: int) returns (buckets: seq<Bucket>)
    requires width > 0 && Totals(grouped, trades, width)
    ensures IsBucketing(buckets, trades, width)
  {
    hide MakeBucket, VolumesOf, Group, Occupied;
    buckets := [];
    for i := 0 to |grouped.keys|
      invariant |buckets| == i
      invariant forall k | 0 <= k < i ::
                grouped.keys[k] in grouped.cells
                    && buckets[k] == MakeBucket(grouped.keys[k], grouped.cells[grouped.keys[k]])
    {
      var bucketTime := grouped.keys[i];
      assert bucketTime in grouped.keys;
      buckets := buckets + [MakeBucket(bucketTime, grouped.cells[bucketTime])];
    }
    ListedIsBucketing(buckets, grouped.keys, trades, width);
    buckets := StableSort(buckets, Earlier);
  }

  /** Buckets listed once per occupied time, in any order, sort to the bucketing. */
  lemma ListedIsBucketing(buckets: seq<Bucket>, keys: seq<int>, trades: seq<Trade>, width: int)
    requires width > 0 && |buckets| == |keys|
    requires forall i, j | 0 <= i < j < |keys| :: keys[i] != keys[j]
    requires forall b :: b in keys <==> Occupied(trades, width, b)
    requires forall k | 0 <= k < |keys| :: buckets[k] == BucketAt(trades, width, keys[k])
    ensures IsBucketing(StableSort(buckets, Earlier), trades, width)
  {
    hide VolumesOf, Group, Occupied, StableSort;
    SortRises(buckets);
    var sorted := StableSort(buckets, Earlier);
    forall x ensures x in sorted <==> Occupied(trades, width, x.time) && x == BucketAt(trades, width, x.time) {
      if x in buckets {
        var k :| 0 <= k < |buckets| && buckets[k] == x;
        assert x.time == keys[k] && keys[k] in keys;
      }
      if Occupied(trades, width, x.time) {
        var k :| 0 <= k < |keys| && keys[k] == x.time;
        assert buckets[k] in buckets;
      }
    }
  }

  /** One pass over the trades fills both tables of running volumes. */
  method StreamBuckets(trades: seq<Trade>) returns (tradeCount: nat, buckets60s: seq<Bucket>, buckets15m: seq<Bucket>)
    ensures tradeCount == |trades|
    ensures IsBucketing(buckets60s, trades, MINUTE_BUCKET)
    ensures IsBucketing(buckets15m, trades, QUARTER_BUCKET)
  {
    hide Totals, BucketFloor, Added, CellOf;
    var grouped60s: Dict<Volumes>, grouped15m: Dict<Volumes> := Dict([], map[]), Dict([], map[]);
    tradeCount := 0;
    NoTotals();
    for i := 0 to |trades|
      invariant tradeCount == i
      invariant Totals(grouped60s, trades[..i], MINUTE_BUCKET)
      invariant Totals(grouped15m, trades[..i], QUARTER_BUCKET)
    {
      var t := trades[i];
      assert trades[..i + 1] == trades[..i] + [t];
      TotalsValid(grouped60s, trades[..i], MINUTE_BUCKET);
      TotalsValid(grouped15m, trades[..i], QUARTER_BUCKET);
      AddKeepsTotals(grouped60s, trades[..i], t, MINUTE_BUCKET);
      AddKeepsTotals(grouped15m, trades[..i], t, QUARTER_BUCKET);
      var bucket60s, bucket15m := BucketFloor(t, MINUTE_BUCKET), BucketFloor(t, QUARTER_BUCKET);
      grouped60s := grouped60s.Put(bucket60s, Added(CellOf(grouped60s, bucket60s), t));
      grouped15m := grouped15m.Put(bucket15m, Added(CellOf(grouped15m, bucket15m), t));
      tradeCount := tradeCount + 1;
    }
    assert trades[..|trades|] == trades;
    buckets60s := FinalizeBuckets(grouped60s, trades, MINUTE_BUCKET);
    buckets15m := FinalizeBuckets(grouped15m, trades, QUARTER_BUCKET);
  }

  lemma NoTotals()
    ensures Totals(Dict([], map[]), [], MINUTE_BUCKET) && Totals(Dict([], map[]), [], QUARTER_BUCKET)
  {
  }

  lemma TotalsValid(d: Dict<Volumes>, trades: seq<Trade>, width: int)
    requires width > 0 && Totals(d, trades, width)
    ensures d.Valid()
  {
  }

  // ---------------------------------------------------------------- group, then sum

  ghost predicate Groups(d: Dict<seq<Trade>>, trades: seq<Trade>, width: int)
    requires width > 0
  {
    && d.Valid()
    && (forall b :: b in d.cells <==> Occupied(trades, width, b))
    && (forall b | b in d.cells :: d.cells[b] == Group(trades, width, b))
  }

  function GroupSoFar(d: Dict<seq<Trade>>, b: int): seq<Trade> {
    if b in d.cells then d.cells[b] else []
  }

  lemma AddKeepsGroups(d: Dict<seq<Trade>>, trades: seq<Trade>, t: Trade, width: int)
    requires width > 0 && Groups(d, trades, width)
    ensures Groups(d.Put(BucketFloor(t, width), GroupSoFar(d, BucketFloor(t, width)) + [t]), trades + [t], width)
  {
    hide BucketFloor, Group, Occupied;
    var b := BucketFloor(t, width);
    var d' := d.Put(b, GroupSoFar(d, b) + [t]);
    if b !in d.cells {
      UnoccupiedIsEmpty(trades, width, b);
    }
    forall c ensures c in d'.cells <==> Occupied(trades + [t], width, c) {
      GroupSnoc(trades, t, width, c);
    }
    forall c | c in d'.cells ensures d'.cells[c] == Group(trades + [t], width, c) {
      GroupSnoc(trades, t, width, c);
      assert Group(trades, width, c) + [] == Group(trades, width, c);
    }
  }

  method SumGroup(group: seq<Trade>) returns (v: Volumes)
    ensures v == VolumesOf(group)
  {
    var takerBuyVolume, takerSellVolume := 0.0, 0.0;
    for i := 0 to |group|
      invariant takerBuyVolume == SumBy(group[..i], BuyQty()) && takerSellVolume == SumBy(group[..i], SellQty())
    {
      assert group[..i + 1][..i] == group[..i];
      if group[i].buyerMaker {
        takerSellVolume := takerSellVolume + group[i].qty;
      } else {
        takerBuyVolume := takerBuyVolume + group[i].qty;
      }
    }
    assert group[..|group|] == group;
    v := Volumes(takerBuyVolume, takerSellVolume);
  }

  method BuildAggtradeBuckets(trades: seq<Trade>, width: int) returns (buckets: seq<Bucket>)
    requires width > 0
    ensures IsBucketing(buckets, trades, width)
  {
    hide MakeBucket, VolumesOf, Group, Occupied, BucketFloor, GroupSoFar;
    var groups: Dict<seq<Trade>> := Dict([], map[]);
    NothingOccupied(width);
    for i := 0 to |trades|
      invariant Groups(groups, trades[..i], width)
    {
      var t := trades[i];
      assert trades[..i + 1] == trades[..i] + [t];
      AddKeepsGroups(groups, trades[..i], t, width);
      var b := BucketFloor(t, width);
      groups := groups.Put(b, GroupSoFar(groups, b) + [t]);
    }
    assert trades[..|trades|] == trades;
    buckets := [];
    for i := 0 to |groups.keys|
      invariant |buckets| == i
      invariant forall k | 0 <= k < i :: buckets[k] == BucketAt(trades, width, groups.keys[k])
    {
      var bucketTime := groups.keys[i];
      assert bucketTime in groups.keys;
      var v := SumGroup(groups.cells[bucketTime]);
      buckets := buckets + [MakeBucket(bucketTime, v)];
    }
    ListedIsBucketing(buckets, groups.keys, trades, width);
    buckets := StableSort(buckets, Earlier);
  }

  lemma NothingOccupied(width: int)
    requires width > 0
    ensures forall b :: !Occupied([], width, b)
  {
  }

  // ---------------------------------------------------------------- volumes are kept

  function BuyOf(): Bucket -> real {
    (x: Bucket) => x.takerBuyVolume
  }

  function SellOf(): Bucket -> real {
    (x: Bucket) => x.takerSellVolume
  }

  function TimeIn(p: int -> bool): Bucket -> bool {
    (x: Bucket) => p(x.time)
  }

  function FloorIn(width: int, p: int -> bool): Trade -> bool
    requires width > 0
  {
    (t: Trade) => p(BucketFloor(t, width))
  }

  ghost function FloorListed(buckets: seq<Bucket>, width: int, p: int -> bool): Trade -> bool
    requires width > 0
  {
    (t: Trade) => p(BucketFloor(t, width)) && exists x | x in buckets :: x.time == BucketFloor(t, width)
  }

  /** Summing a volume over some of the buckets is summing it over the trades that fall in them. */
  lemma {:induction false} SumOverBuckets(buckets: seq<Bucket>, trades: seq<Trade>, width: int, p: int -> bool,
                                          f: Trade -> real, g: Bucket -> real)
    requires width > 0 && Rising(buckets)
    requires forall x | x in buckets :: g(x) == SumBy(Group(trades, width, x.time), f)
    ensures SumBy(Keep(buckets, TimeIn(p)), g) == SumBy(Keep(trades, FloorListed(buckets, width, p)), f)
  {
    hide BucketFloor, SumBy, Keep;
    var n := |buckets| - 1;
    if n < 0 {
      KeepNone(buckets, TimeIn(p));
      KeepNone(trades, FloorListed(buckets, width, p));
      SumOfNone(f);
      SumOfNone(g);
    } else {
      var init, last := buckets[..n], buckets[n];
      assert buckets == init + [last];
      SumOverBuckets(init, trades, width, p, f, g);
      KeepSplits(init, [last], TimeIn(p));
      if p(last.time) {
        KeepAll([last], TimeIn(p));
        SumBySnoc(Keep(init, TimeIn(p)), last, g);
        KeepDisjointSum(trades, FloorListed(init, width, p), InBucket(width, last.time),
                        FloorListed(buckets, width, p), f);
      } else {
        KeepNone([last], TimeIn(p));
        assert Keep(init, TimeIn(p)) + [] == Keep(init, TimeIn(p));
        KeepSame(trades, FloorListed(init, width, p), FloorListed(buckets, width, p));
      }
    }
  }

  lemma SumOfNone<T>(f: T -> real)
    ensures SumBy([], f) == 0.0
  {
  }

  lemma BucketingSums(buckets: seq<Bucket>, trades: seq<Trade>, width: int, p: int -> bool, f: Trade -> real,
                      g: Bucket -> real)
    requires width > 0 && IsBucketing(buckets, trades, width)
    requires forall x | x in buckets :: g(x) == SumBy(Group(trades, width, x.time), f)
    ensures SumBy(Keep(buckets, TimeIn(p)), g) == SumBy(Keep(trades, FloorIn(width, p)), f)
  {
    hide BucketFloor, SumBy, Keep, MakeBucket, VolumesOf, Group;
    SumOverBuckets(buckets, trades, width, p, f, g);
    forall t | t in trades ensures FloorIn(width, p)(t) == FloorListed(buckets, width, p)(t) {
      var b := BucketFloor(t, width);
      assert Occupied(trades, width, b);
      BucketAtTime(trades, width, b);
      assert BucketAt(trades, width, b) in buckets;
    }
    KeepSame(trades, FloorIn(width, p), FloorListed(buckets, width, p));
  }

  lemma BucketAtTime(trades: seq<Trade>, width: int, b: int)
    requires width > 0
    ensures BucketAt(trades, width, b).time == b
    ensures BucketAt(trades, width, b).takerBuyVolume == SumBy(Group(trades, width, b), BuyQty())
    ensures BucketAt(trades, width, b).takerSellVolume == SumBy(Group(trades, width, b), SellQty())
  {
  }

  lemma BucketingHolds(buckets: seq<Bucket>, trades: seq<Trade>, width: int)
    requires width > 0 && IsBucketing(buckets, trades, width)
    ensures forall x | x in buckets :: BuyOf()(x) == SumBy(Group(trades, width, x.time), BuyQty())
    ensures forall x | x in buckets :: SellOf()(x) == SumBy(Group(trades, width, x.time), SellQty())
  {
    hide SumBy, Group, MakeBucket, VolumesOf;
    forall x | x in buckets
      ensures BuyOf()(x) == SumBy(Group(trades, width, x.time), BuyQty())
              && SellOf()(x) == SumBy(Group(trades, width, x.time), SellQty())
    {
      BucketAtTime(trades, width, x.time);
    }
  }

  /** A minute lies in one quarter of an hour. */
  lemma FloorNests(seconds: int)
    ensures Floor(Floor(seconds, MINUTE_BUCKET), QUARTER_BUCKET) == Floor(seconds, QUARTER_BUCKET)
  {
    var k, s := seconds / MINUTE_BUCKET, seconds % MINUTE_BUCKET;
    var j, l := k / 15, k % 15;
    QuarterRemainder(seconds, j, 60 * l + s);
    QuarterRemainder(60 * k, j, 60 * l);
  }

  lemma QuarterRemainder(seconds: int, quarters: int, rest: int)
    requires seconds == QUARTER_BUCKET * quarters + rest && 0 <= rest < QUARTER_BUCKET
    ensures seconds % QUARTER_BUCKET == rest
  {
  }

  function InQuarter(b: int): int -> bool {
    (time: int) => Floor(time, QUARTER_BUCKET) == b
  }

  /** Every fifteen-minute bucket holds the sum of its one-minute buckets, bought and sold. */
  lemma QuartersSumMinutes(minutes: seq<Bucket>, quarters: seq<Bucket>, trades: seq<Trade>)
    requires IsBucketing(minutes, trades, MINUTE_BUCKET) && IsBucketing(quarters, trades, QUARTER_BUCKET)
    ensures forall x | x in quarters ::
              && x.takerBuyVolume == SumBy(Keep(minutes, TimeIn(InQuarter(x.time))), BuyOf())
              && x.takerSellVolume == SumBy(Keep(minutes, TimeIn(InQuarter(x.time))), SellOf())
  {
    hide SumBy, Keep, Rising;
    BucketingHolds(minutes, trades, MINUTE_BUCKET);
    BucketingHolds(quarters, trades, QUARTER_BUCKET);
    hide IsBucketing;
    forall x | x in quarters
      ensures BuyOf()(x) == SumBy(Keep(minutes, TimeIn(InQuarter(x.time))), BuyOf())
      ensures SellOf()(x) == SumBy(Keep(minutes, TimeIn(InQuarter(x.time))), SellOf())
    {
      var p := InQuarter(x.time);
      BucketingSums(minutes, trades, MINUTE_BUCKET, p, BuyQty(), BuyOf());
      BucketingSums(minutes, trades, MINUTE_BUCKET, p, SellQty(), SellOf());
      SameQuarter(trades, x.time);
    }
  }

  lemma SameQuarter(trades: seq<Trade>, b: int)
    ensures Keep(trades, FloorIn(MINUTE_BUCKET, InQuarter(b))) == Group(trades, QUARTER_BUCKET, b)
  {
    hide Floor, Seconds;
    forall t | t in trades ensures FloorIn(MINUTE_BUCKET, InQuarter(b))(t) == InBucket(QUARTER_BUCKET, b)(t) {
      FloorNests(Seconds(t.ms));
      assert InQuarter(b)(BucketFloor(t, MINUTE_BUCKET)) <==> Floor(BucketFloor(t, MINUTE_BUCKET), QUARTER_BUCKET) == b;
    }
    KeepSame(trades, FloorIn(MINUTE_BUCKET, InQuarter(b)), InBucket(QUARTER_BUCKET, b));
  }

  function Qty(): Trade -> real {
    (t: Trade) => t.qty
  }

  function VolumeOf(): Bucket -> real {
    (x: Bucket) => x.takerBuyVolume + x.takerSellVolume
  }

  /** The buckets hold the whole quantity traded, no more and no less. */
  lemma VolumeIsConserved(buckets: seq<Bucket>, trades: seq<Trade>, width: int)
    requires width > 0 && IsBucketing(buckets, trades, width)
    ensures SumBy(buckets, VolumeOf()) == SumBy(trades, Qty())
  {
    hide SumBy, Keep, Rising, BucketFloor;
    var all := (time: int) => true;
    BucketingHolds(buckets, trades, width);
    BucketingSums(buckets, trades, width, all, BuyQty(), BuyOf());
    BucketingSums(buckets, trades, width, all, SellQty(), SellOf());
    KeepAll(buckets, TimeIn(all));
    KeepAll(trades, FloorIn(width, all));
    SumByPlus(buckets, BuyOf(), SellOf(), VolumeOf());
    SumByPlus(trades, BuyQty(), SellQty(), Qty());
  }

  /** A trade whose buyer was the maker was sold by the taker, any other was bought; a bucket keeps both volumes, what
      was bought in excess of what was sold, and that excess as a fraction of all. */
  lemma BucketInPlainTerms(time: int, v: Volumes, t: Trade)
    ensures BuyQty()(t) == (if t.buyerMaker then 0.0 else t.qty)
    ensures SellQty()(t) == (if t.buyerMaker then t.qty else 0.0)
    ensures var b := MakeBucket(time, v);
            && b.time == time && b.takerBuyVolume == v.buy && b.takerSellVolume == v.sell
            && b.takerSellVolume + b.cvd == b.takerBuyVolume
            && (v.buy + v.sell != 0.0 ==> Times(b.tfi, v.buy + v.sell) == b.cvd)
            && (v.buy + v.sell == 0.0 ==> b.tfi == 0.0)
  {
    if v.buy + v.sell != 0.0 {
      QuotientTimes(v.buy - v.sell, v.buy + v.sell);
    }
  }

  /** The bucket of a trade from the epoch on begins at a multiple of its width, at most the width before the trade. */
  lemma FloorInPlainTerms(t: Trade, width: int)
    requires width > 0 && t.ms >= 0
    ensures BucketFloor(t, width) % width == 0
    ensures BucketFloor(t, width) * 1000 <= t.ms < (BucketFloor(t, width) + width) * 1000
  {
    var seconds, rest := t.ms / 1000, t.ms % 1000;
    assert t.ms == seconds * 1000 + rest;
    FloorIsMultiple(seconds, width);
  }

  /** Whole seconds are counted towards the epoch. */
  lemma SecondsInPlainTerms(ms: int)
    ensures ms >= 0 ==> Seconds(ms) * 1000 <= ms < Seconds(ms) * 1000 + 1000
    ensures ms < 0 ==> Seconds(ms) * 1000 - 1000 < ms <= Seconds(ms) * 1000
  {
  }

  lemma FloorIsMultiple(seconds: int, width: int)
    requires width > 0
    ensures Floor(seconds, width) % width == 0 && Floor(seconds, width) <= seconds < Floor(seconds, width) + width
  {
    var q := seconds / width;
    assert Floor(seconds, width) == q * width;
    MultipleLeavesNothing(q, width);
  }

  lemma MultipleLeavesNothing(q: int, width: int)
    requires width > 0
    ensures q * width % width == 0
  {
    var q', r := q * width / width, q * width % width;
    var d := q - q';
    assert d * width == r;
    assert d <= 0 || d * width >= width;
  }
}
