/**
 Loading trades and funding over a window by paging (data/market_data.py), against a server that
 answers every request with the first rows that match it, up to the limit.
 */
module MarketData {
  import opened Prelude
  import opened Sorting
  import opened Dedupe
  import opened Timeline

  // Exchange rows are stamped in milliseconds; the window is given in microseconds.
  const MILLISECOND := 1000

  /** A row may come without an identifier. */
  datatype Trade = Trade(id: Option<int>, ms: int)

  function Id(t: Trade): int {
    if t.id.Some? then t.id.value else 0
  }

  datatype FundingRow = FundingRow(ms: int, rate: real)

  /** `int()` of a positive or negative number of milliseconds: towards zero. */
  function Milliseconds(us: int): int {
    if us >= 0 then us / MILLISECOND else -((-us) / MILLISECOND)
  }

  // ---------------------------------------------------------------- the trade server

  function Precedes(a: Trade, b: Trade): bool {
    Id(a) < Id(b) && a.ms <= b.ms
  }

  /** Every trade has an identifier; identifiers rise and times do not fall; any number of trades may share a
      millisecond. */
  ghost predicate ExchangeOrder(trades: seq<Trade>) {
    Identified(trades) && SortedBy(trades, Precedes)
  }

  ghost predicate Identified(trades: seq<Trade>) {
    forall t | t in trades :: t.id.Some?
  }

  function InMilliseconds(start: int, end: int): Trade -> bool {
    Between(TradeTime(), Milliseconds(start), Milliseconds(end))
  }

  function InWindow(start: int, end: int): Trade -> bool {
    (t: Trade) => start <= t.ms * MILLISECOND <= end
  }

  function FromId(id: int): Trade -> bool {
    (t: Trade) => Id(t) >= id
  }

  function TradeId(): Trade -> int {
    (t: Trade) => Id(t)
  }

  function TradeTime(): Trade -> int {
    (t: Trade) => t.ms
  }

  function ByTime(a: Trade, b: Trade): bool {
    a.ms <= b.ms
  }

  /** The server's answer to a request by window, and to a request from an identifier on. */
  function FetchWindow(server: seq<Trade>, start: int, end: int, limit: nat): seq<Trade> {
    First(Keep(server, InMilliseconds(start, end)), limit)
  }

  function FetchFrom(server: seq<Trade>, fromId: int, limit: nat): seq<Trade> {
    First(Keep(server, FromId(fromId)), limit)
  }

  lemma FromIdIsSlice(server: seq<Trade>, k: nat)
    requires ExchangeOrder(server) && 0 < k <= |server|
    ensures Keep(server, FromId(Id(server[k - 1]) + 1)) == server[k..]
  {
    hide Keep;
    var p := FromId(Id(server[k - 1]) + 1);
    forall i | 0 <= i < k ensures !p(server[i]) {
      assert i < k - 1 ==> Precedes(server[i], server[k - 1]);
    }
    forall i | k <= i < |server| ensures p(server[i]) {
      assert Precedes(server[k - 1], server[i]);
    }
    KeepStretch(server, p, k, |server|);
  }

  /** The trades of a window in milliseconds are one stretch of the server's trades. */
  lemma WindowIsSlice(server: seq<Trade>, start: int, end: int) returns (a: nat, b: nat)
    requires ExchangeOrder(server)
    ensures a <= b <= |server| && Keep(server, InMilliseconds(start, end)) == server[a..b]
    ensures forall i | 0 <= i < a || b <= i < |server| :: !InMilliseconds(start, end)(server[i])
  {
    hide Keep, Position;
    TradesInTimeOrder(server);
    a := Position(server, TradeTime(), Milliseconds(start));
    b := MaxInt(a, Position(server, TradeTime(), Milliseconds(end) + 1));
    PositionMeaning(server, TradeTime(), Milliseconds(start));
    PositionMeaning(server, TradeTime(), Milliseconds(end) + 1);
    KeepStretch(server, InMilliseconds(start, end), a, b);
  }

  lemma TradesInTimeOrder(server: seq<Trade>)
    requires ExchangeOrder(server)
    ensures InTimeOrder(server, TradeTime())
  {
    forall i, j | 0 <= i < j < |server| ensures server[i].ms <= server[j].ms {
      assert Precedes(server[i], server[j]);
    }
  }

  /** A trade inside the window lies inside it in whole milliseconds too. */
  lemma WindowWithinMilliseconds(start: int, end: int, t: Trade)
    ensures InWindow(start, end)(t) ==> InMilliseconds(start, end)(t)
  {
  }

  // ---------------------------------------------------------------- loading trades

  function Ids(trades: seq<Trade>): set<int> {
    if |trades| == 0 then {}
    else Ids(trades[..|trades| - 1]) + (if trades[|trades| - 1].id.Some? then {trades[|trades| - 1].id.value} else {})
  }

  /** The trades without an identifier, and the first with every identifier not seen before. */
  function DedupedTrades(trades: seq<Trade>, seen: set<int>): seq<Trade> {
    if |trades| == 0 then []
    else
      var init, last := trades[..|trades| - 1], trades[|trades| - 1];
      DedupedTrades(init, seen) + (if last.id.Some? && last.id.value in seen + Ids(init) then [] else [last])
  }

  method DedupeAggTrades(trades: seq<Trade>, seenIds: set<int>) returns (deduped: seq<Trade>, seen: set<int>)
    ensures deduped == DedupedTrades(trades, seenIds)
    ensures seen == seenIds + Ids(trades)
  {
    deduped, seen := [], seenIds;
    for i := 0 to |trades|
      invariant deduped == DedupedTrades(trades[..i], seenIds)
      invariant seen == seenIds + Ids(trades[..i])
    {
      assert trades[..i + 1][..i] == trades[..i];
      var tradeId := trades[i].id;
      if tradeId.Some? {
        if tradeId.value in seen {
          continue;
        }
        seen := seen + {tradeId.value};
      }
      deduped := deduped + [trades[i]];
    }
    assert trades[..|trades|] == trades;
  }

  ghost predicate FirstOfItsId(trades: seq<Trade>, seen: set<int>, i: nat)
    requires i < |trades|
  {
    trades[i].id.Some? ==>
      trades[i].id.value !in seen && forall j | 0 <= j < i :: trades[j].id != trades[i].id
  }

  lemma {:induction false} IdsMeaning(trades: seq<Trade>, id: int)
    ensures id in Ids(trades) <==> exists i :: 0 <= i < |trades| && trades[i].id == Some(id)
  {
    if |trades| > 0 {
      var n := |trades| - 1;
      IdsMeaning(trades[..n], id);
      if id in Ids(trades[..n]) {
        var i :| 0 <= i < n && trades[..n][i].id == Some(id);
        assert trades[i].id == Some(id);
      }
    }
  }

  /** What is left of a batch is every trade that has no identifier or is the first with a new one. */
  lemma {:induction false} DedupedTradesMeaning(trades: seq<Trade>, seen: set<int>, t: Trade)
    ensures t in DedupedTrades(trades, seen)
       <==> exists i :: 0 <= i < |trades| && trades[i] == t && FirstOfItsId(trades, seen, i)
  {
    if |trades| > 0 {
      var n := |trades| - 1;
      var init := trades[..n];
      DedupedTradesMeaning(init, seen, t);
      if trades[n].id.Some? {
        IdsMeaning(init, trades[n].id.value);
      }
      assert forall i | 0 <= i < n :: init[i] == trades[i];
      assert forall i: nat | i < n :: FirstOfItsId(trades, seen, i) <==> FirstOfItsId(init, seen, i);
      assert trades[n] == t && FirstOfItsId(trades, seen, n) ==> t in DedupedTrades(trades, seen);
      if t in DedupedTrades(init, seen) {
        var i :| 0 <= i < n && init[i] == t && FirstOfItsId(init, seen, i);
        assert trades[i] == t && FirstOfItsId(trades, seen, i);
      }
    }
  }

  /** Where every trade has an identifier this is dropping repeats by key. */
  lemma {:induction false} DedupedByKey(trades: seq<Trade>, seen: set<int>)
    requires Identified(trades)
    ensures DedupedTrades(trades, seen) == Deduped(trades, TradeId(), seen) && Ids(trades) == Keys(trades, TradeId())
  {
    if |trades| > 0 {
      DedupedByKey(trades[..|trades| - 1], seen);
    }
  }

  /** What the loader collects: the whole first page and, if that was full, every later trade of the window. */
  function Collected(server: seq<Trade>, start: int, end: int, limit: nat): seq<Trade> {
    var page := FetchWindow(server, start, end, limit);
    if |page| < limit || |page| == 0 then page
    else page + Keep(Keep(server, FromId(Id(page[|page| - 1]) + 1)), InWindow(start, end))
  }

  ghost predicate SeenUpTo(seen: set<int>, id: int) {
    forall x | x in seen :: x <= id
  }

  /** The identifiers of a later stretch are new, distinct, and bounded by its last. */
  lemma LaterAreNew(server: seq<Trade>, k: nat, next: nat, p: Trade -> bool, seen: set<int>)
    requires ExchangeOrder(server) && k < next <= |server|
    requires SeenUpTo(seen, if k == 0 then Id(server[0]) - 1 else Id(server[k - 1]))
    ensures Deduped(Keep(server[k..next], p), TradeId(), seen) == Keep(server[k..next], p)
    ensures SeenUpTo(seen + Keys(Keep(server[k..next], p), TradeId()), Id(server[next - 1]))
  {
    hide Keep, Deduped, Keys;
    var kept := Keep(server[k..next], p);
    assert SortedBy(server[k..next], Precedes);
    KeepKeepsOrder(server[k..next], p, Precedes);
    forall x | x in kept
      ensures (k > 0 ==> Id(server[k - 1]) < Id(x)) && Id(server[k]) <= Id(x) <= Id(server[next - 1])
    {
      KeepMember(server[k..next], p, x);
      var i :| 0 <= i < next - k && server[k..next][i] == x;
      assert server[k + i] == x;
      assert i > 0 ==> Precedes(server[k], server[k + i]);
      assert k + i < next - 1 ==> Precedes(server[k + i], server[next - 1]);
      assert k > 0 ==> Precedes(server[k - 1], server[k + i]);
    }
    forall i, j | 0 <= i < j < |kept| ensures TradeId()(kept[i]) < TradeId()(kept[j]) {
      assert Precedes(kept[i], kept[j]);
    }
    DistinctKept(kept, TradeId(), seen);
    forall x | x in seen + Keys(kept, TradeId()) ensures x <= Id(server[next - 1]) {
      KeysMeaning(kept, TradeId(), x);
      assert k > 0 ==> Precedes(server[k - 1], server[next - 1]);
      assert k < next - 1 ==> Precedes(server[k], server[next - 1]);
    }
  }

  lemma KeptAreIdentified(trades: seq<Trade>, p: Trade -> bool)
    requires Identified(trades)
    ensures Identified(Keep(trades, p))
  {
    hide Keep;
    forall t | t in Keep(trades, p) ensures t.id.Some? {
      KeepMember(trades, p, t);
    }
  }

  lemma KeepGrows(server: seq<Trade>, f: nat, k: nat, next: nat, p: Trade -> bool)
    requires f <= k <= next <= |server|
    ensures Keep(server[f..next], p) == Keep(server[f..k], p) + Keep(server[k..next], p)
  {
    assert server[f..next] == server[f..k] + server[k..next];
    KeepSplits(server[f..k], server[k..next], p);
  }

  /** Past a trade later than the window there is nothing left to load. */
  lemma NothingAfterEnd(server: seq<Trade>, k: nat, next: nat, start: int, end: int)
    requires ExchangeOrder(server) && k < next <= |server| && server[k].ms * MILLISECOND > end
    ensures Keep(server[next..], InWindow(start, end)) == []
  {
    hide Keep;
    forall i | 0 <= i < |server[next..]| ensures !InWindow(start, end)(server[next..][i]) {
      assert Precedes(server[k], server[next + i]);
    }
    KeepNone(server[next..], InWindow(start, end));
  }

  /** Paging by identifier until a page comes back short, empty, or wholly past the window. */
  method LoadRestAggTradeWindow(server: seq<Trade>, aggTradesLimit: int, start: int, end: int)
    returns (allTrades: seq<Trade>)
    requires ExchangeOrder(server)
    ensures allTrades == Collected(server, start, end, MaxInt(aggTradesLimit, 1))
  {
    hide Keep, Deduped, Keys, DedupedTrades, Ids, StableSort, SortedBy, InWindow, SeenUpTo, Collected;
    var batchLimit := MaxInt(aggTradesLimit, 1);
    var batch := FetchWindow(server, start, end, batchLimit);
    ghost var a, b := WindowIsSlice(server, start, end);
    ghost var f := a + |batch|;
    assert batch == server[a..f];
    CollectedIs(server, start, end, batchLimit, a, f);
    var seenIds;
    allTrades, seenIds := DedupeAggTrades(batch, {});
    DedupedByKey(batch, {});
    FirstPageIsNew(server, a, f);
    if |batch| < batchLimit {
      return;
    }
    var later := PageById(server, batch, seenIds, batchLimit, start, end, f);
    CollectedInOrder(server, start, end, batchLimit);
    allTrades := StableSort(allTrades + later, ByTime);
  }

  /** The loop over pages that follow `page`, the last trade of which is the one before position `f`. */
  method PageById(server: seq<Trade>, page: seq<Trade>, seen: set<int>, batchLimit: nat, start: int, end: int,
                  ghost f: nat)
    returns (collected: seq<Trade>)
    requires ExchangeOrder(server) && batchLimit > 0
    requires 0 < f <= |server| && |page| > 0 && page[|page| - 1] == server[f - 1]
    requires SeenUpTo(seen, Id(server[f - 1]))
    ensures collected == Keep(server[f..], InWindow(start, end))
  {
    hide Keep, Deduped, Keys, DedupedTrades, Ids, SortedBy, InWindow, SeenUpTo, FromId;
    var batch, seenIds := page, seen;
    ghost var k, p := f, InWindow(start, end);
    NothingKept(server, f, p);
    collected := [];
    while |batch| > 0
      invariant f <= k <= |server| && |batch| > 0 && batch[|batch| - 1] == server[k - 1]
      invariant collected == Keep(server[f..k], p)
      invariant SeenUpTo(seenIds, Id(server[k - 1]))
      decreases |server| - k
    {
      var lastId := batch[|batch| - 1].id;
      if lastId.None? {
        break;
      }
      FromIdIsSlice(server, k);
      batch := FetchFrom(server, lastId.value + 1, batchLimit);
      if |batch| == 0 {
        break;
      }
      ghost var next := k + |batch|;
      assert batch == server[k..next];
      var inWindow := Keep(batch, InWindow(start, end));
      LaterAreNew(server, k, next, p, seenIds);
      KeepGrows(server, f, k, next, p);
      KeptAreIdentified(batch, p);
      DedupedByKey(inWindow, seenIds);
      var added;
      added, seenIds := DedupeAggTrades(inWindow, seenIds);
      collected := collected + added;
      if |batch| < batchLimit {
        k := next;
        break;
      }
      if batch[0].ms * MILLISECOND > end {
        NothingAfterEnd(server, k, next, start, end);
        KeepGrows(server, f, next, |server|, p);
        assert server[f..|server|] == server[f..] && server[next..|server|] == server[next..];
        return;
      }
      k := next;
    }
    assert server[f..k] == server[f..];
  }

  lemma CollectedIs(server: seq<Trade>, start: int, end: int, limit: nat, a: nat, f: nat)
    requires ExchangeOrder(server) && a <= f <= |server| && FetchWindow(server, start, end, limit) == server[a..f]
             && limit > 0
    ensures f - a < limit ==> Collected(server, start, end, limit) == server[a..f]
    ensures f - a >= limit ==>
            Collected(server, start, end, limit) == server[a..f] + Keep(server[f..], InWindow(start, end))
  {
    hide Keep, FetchWindow, SortedBy, FromId, InWindow;
    if f - a >= limit {
      assert server[a..f][f - a - 1] == server[f - 1];
      FromIdIsSlice(server, f);
    }
  }

  lemma NothingKept(server: seq<Trade>, f: nat, p: Trade -> bool)
    requires f <= |server|
    ensures Keep(server[f..f], p) == []
  {
  }

  lemma FirstPageIsNew(server: seq<Trade>, a: nat, k: nat)
    requires ExchangeOrder(server) && a <= k <= |server|
    ensures Deduped(server[a..k], TradeId(), {}) == server[a..k]
    ensures k > a ==> SeenUpTo({} + Keys(server[a..k], TradeId()), Id(server[k - 1]))
  {
    hide Deduped, Keys;
    var page := server[a..k];
    forall i, j | 0 <= i < j < |page| ensures TradeId()(page[i]) < TradeId()(page[j]) {
      assert Precedes(server[a + i], server[a + j]);
    }
    DistinctKept(page, TradeId(), {});
    if k > a {
      forall x | x in {} + Keys(page, TradeId()) ensures x <= Id(server[k - 1]) {
        KeysMeaning(page, TradeId(), x);
        var i :| 0 <= i < |page| && Id(page[i]) == x;
        assert a + i < k - 1 ==> Precedes(server[a + i], server[k - 1]);
      }
    }
  }

  /** The collected trades stand in exchange order; in particular no trade appears twice. */
  lemma CollectedInOrder(server: seq<Trade>, start: int, end: int, limit: nat)
    requires ExchangeOrder(server)
    ensures SortedBy(Collected(server, start, end, limit), Precedes)
    ensures StableSort(Collected(server, start, end, limit), ByTime) == Collected(server, start, end, limit)
  {
    hide Keep, StableSort, FetchWindow, InWindow, InMilliseconds, FromId;
    var page := FetchWindow(server, start, end, limit);
    var all := Collected(server, start, end, limit);
    var a, f := PageIsSlice(server, start, end, limit);
    if !(|page| < limit || |page| == 0) {
      FromIdIsSlice(server, f);
      var later := Keep(server[f..], InWindow(start, end));
      KeepKeepsOrder(server[f..], InWindow(start, end), Precedes);
      forall x, y | x in page && y in later ensures Precedes(x, y) {
        KeepMember(server[f..], InWindow(start, end), y);
        EarlierStretchPrecedes(server, a, f, x, y);
      }
      forall i, j | 0 <= i < j < |all| ensures Precedes(all[i], all[j]) {
        if i < |page| <= j {
          assert all[i] in page && all[j] in later;
        }
      }
    }
    forall i, j | 0 <= i < j < |all| ensures ByTime(all[i], all[j]) {
      assert Precedes(all[i], all[j]);
    }
    SortOfSorted(all, ByTime);
  }

  lemma EarlierStretchPrecedes(server: seq<Trade>, a: nat, f: nat, x: Trade, y: Trade)
    requires ExchangeOrder(server) && a <= f <= |server| && x in server[a..f] && y in server[f..]
    ensures Precedes(x, y)
  {
    var i :| 0 <= i < f - a && server[a..f][i] == x;
    var j :| 0 <= j < |server| - f && server[f..][j] == y;
    assert Precedes(server[a + i], server[f + j]);
  }

  // ---------------------------------------------------------------- what loading achieves

  /** The first page holds a trade from outside the window. */
  ghost predicate Stray(server: seq<Trade>, start: int, end: int, limit: nat) {
    exists t | t in FetchWindow(server, start, end, limit) :: !InWindow(start, end)(t)
  }

  /**
   The loader returns every trade of the window exactly once, in exchange order, and nothing else,
   just when the first page holds no trade from outside the window.
   */
  lemma LoadsEveryTradeOnce(server: seq<Trade>, start: int, end: int, limit: nat)
    requires ExchangeOrder(server) && limit > 0
    ensures Collected(server, start, end, limit) == Keep(server, InWindow(start, end))
            <==> !Stray(server, start, end, limit)
    ensures forall t | t in server && InWindow(start, end)(t) :: t in Collected(server, start, end, limit)
    ensures SortedBy(Collected(server, start, end, limit), Precedes)
  {
    hide Keep, FetchWindow, SortedBy, InWindow, InMilliseconds, Collected;
    CollectedInOrder(server, start, end, limit);
    var p := InWindow(start, end);
    var a, f := PageIsSlice(server, start, end, limit);
    var page := FetchWindow(server, start, end, limit);
    CollectedIs(server, start, end, limit, a, f);
    SplitAtPage(server, start, end, limit, a, f);
    if Stray(server, start, end, limit) {
      var t :| t in page && !p(t);
      KeepMember(server, p, t);
      assert t in Collected(server, start, end, limit);
    } else {
      KeepAll(page, p);
    }
    forall t | t in server && p(t) ensures t in Collected(server, start, end, limit) {
      KeepMember(server, p, t);
      KeepMember(page, p, t);
    }
  }

  /** The first page is a stretch; if it was not cut short by the limit, no later trade is in the window. */
  lemma PageIsSlice(server: seq<Trade>, start: int, end: int, limit: nat) returns (a: nat, f: nat)
    requires ExchangeOrder(server)
    ensures a <= f <= |server| && FetchWindow(server, start, end, limit) == server[a..f]
    ensures forall i | 0 <= i < a :: !InWindow(start, end)(server[i])
    ensures f - a < limit ==> forall i | f <= i < |server| :: !InWindow(start, end)(server[i])
  {
    hide Keep, InMilliseconds, InWindow;
    var b;
    a, b := WindowIsSlice(server, start, end);
    f := if b - a <= limit then b else a + limit;
    forall i | 0 <= i < |server| ensures InWindow(start, end)(server[i]) ==> InMilliseconds(start, end)(server[i]) {
      WindowWithinMilliseconds(start, end, server[i]);
    }
  }

  lemma SplitAtPage(server: seq<Trade>, start: int, end: int, limit: nat, a: nat, f: nat)
    requires a <= f <= |server|
    requires forall i | 0 <= i < a :: !InWindow(start, end)(server[i])
    ensures Keep(server, InWindow(start, end))
            == Keep(server[a..f], InWindow(start, end)) + Keep(server[f..], InWindow(start, end))
    ensures (forall i | f <= i < |server| :: !InWindow(start, end)(server[i])) ==>
            Keep(server[f..], InWindow(start, end)) == []
  {
    hide Keep, InWindow;
    var p := InWindow(start, end);
    assert server == server[..a] + (server[a..f] + server[f..]);
    KeepSplits(server[..a], server[a..f] + server[f..], p);
    KeepSplits(server[a..f], server[f..], p);
    KeepNone(server[..a], p);
    if forall i | f <= i < |server| :: !p(server[i]) {
      KeepNone(server[f..], p);
    }
  }

  /** For moments since the epoch: a stray trade is one stamped in the millisecond the window's start
      falls inside of, so a start on a whole millisecond always loads exactly the window. */
  lemma StrayMeaning(server: seq<Trade>, start: int, end: int, limit: nat)
    requires ExchangeOrder(server) && limit > 0 && 0 <= start <= end
    ensures Stray(server, start, end, limit)
            <==> start % MILLISECOND != 0 && exists t | t in server :: t.ms == start / MILLISECOND
  {
    hide Keep, SortedBy;
    var p := InMilliseconds(start, end);
    if Stray(server, start, end, limit) {
      var t :| t in FetchWindow(server, start, end, limit) && !InWindow(start, end)(t);
      KeepMember(server, p, t);
    }
    if start % MILLISECOND != 0 {
      if t :| t in server && t.ms == start / MILLISECOND {
        KeepMember(server, p, t);
        FirstIsEarliest(server, p, t);
        var first := Keep(server, p)[0];
        KeepMember(server, p, first);
        assert FetchWindow(server, start, end, limit)[0] == first;
        assert first.ms == start / MILLISECOND;
        assert first in FetchWindow(server, start, end, limit) && !InWindow(start, end)(first);
      }
    }
  }

  lemma FirstIsEarliest(server: seq<Trade>, p: Trade -> bool, t: Trade)
    requires ExchangeOrder(server) && t in Keep(server, p)
    ensures |Keep(server, p)| > 0 && Keep(server, p)[0].ms <= t.ms
  {
    hide Keep;
    var kept := Keep(server, p);
    KeepKeepsOrder(server, p, Precedes);
    var i :| 0 <= i < |kept| && kept[i] == t;
    assert i > 0 ==> Precedes(kept[0], kept[i]);
  }

  /** A window that starts a microsecond after the epoch loads the trade of the millisecond before it. */
  lemma StrayExample()
    ensures var server := [Trade(Some(1), 0)];
            && ExchangeOrder(server) && Stray(server, 1, 1, 1)
            && Collected(server, 1, 1, 1) == server && Keep(server, InWindow(1, 1)) == []
  {
    hide Keep, Collected, Stray;
    StrayAlone(Trade(Some(1), 0), 1, 1);
  }

  lemma StrayAlone(t: Trade, start: int, end: int)
    requires t.id.Some? && InMilliseconds(start, end)(t) && !InWindow(start, end)(t)
    ensures ExchangeOrder([t]) && Stray([t], start, end, 1)
    ensures Collected([t], start, end, 1) == [t] && Keep([t], InWindow(start, end)) == []
  {
    KeepAll([t], InMilliseconds(start, end));
    KeepNone([t], InWindow(start, end));
    KeepNone([t][1..], InWindow(start, end));
    hide Keep, InWindow, InMilliseconds;
    assert FetchWindow([t], start, end, 1) == [t][0..1] && t in [t];
    hide FetchWindow, Collected;
    CollectedIs([t], start, end, 1, 0, 1);
  }

  // ---------------------------------------------------------------- funding

  function FundingTime(): FundingRow -> int {
    (r: FundingRow) => r.ms
  }

  function Earlier(a: FundingRow, b: FundingRow): bool {
    a.ms <= b.ms
  }

  /** The first row of every funding time, between two milliseconds. */
  function FirstPerTime(server: seq<FundingRow>, from: int, to: int): seq<FundingRow> {
    Deduped(Keep(server, Between(FundingTime(), from, to)), FundingTime(), {})
  }

  function FetchFunding(server: seq<FundingRow>, limit: nat, from: int, to: int): seq<FundingRow> {
    First(Keep(server, Between(FundingTime(), from, to)), limit)
  }

  /** One page: the rows with a new time are kept, and the last of those times is returned. */
  method TakePage(batch: seq<FundingRow>, seen: set<int>)
    returns (added: seq<FundingRow>, seenTimes: set<int>, lastMs: Option<int>)
    requires SortedBy(batch, Earlier)
    ensures added == Deduped(batch, FundingTime(), seen)
    ensures seenTimes == seen + Keys(batch, FundingTime())
    ensures lastMs == if |added| > 0 then Some(added[|added| - 1].ms) else None
  {
    added, seenTimes, lastMs := [], seen, None;
    for i := 0 to |batch|
      invariant added == Deduped(batch[..i], FundingTime(), seen)
      invariant seenTimes == seen + Keys(batch[..i], FundingTime())
      invariant lastMs == if |added| > 0 then Some(added[|added| - 1].ms) else None
    {
      assert batch[..i + 1][..i] == batch[..i];
      var row := batch[i];
      if row.ms in seenTimes {
        continue;
      }
      seenTimes := seenTimes + {row.ms};
      added := added + [row];
      lastMs := Some(row.ms);
    }
    assert batch[..|batch|] == batch;
  }

  ghost predicate TimesBelow(seen: set<int>, cursor: int) {
    forall t | t in seen :: t < cursor
  }

  /** Paging by a time cursor until a page comes back short, empty or without a new time. */
  method LoadFundingWindow(server: seq<FundingRow>, fundingLimit: int, windowStart: int, windowEnd: int)
    returns (rows: seq<FundingRow>)
    requires SortedBy(server, Earlier)
    ensures rows == FirstPerTime(server, Milliseconds(windowStart), Milliseconds(windowEnd))
  {
    hide Keep, Deduped, Keys, StableSort, SortedBy, Between, TimesBelow, First, Milliseconds, FirstPerTime;
    var batchLimit := MaxInt(MinInt(fundingLimit, 1000), 1);
    var startMs, endMs := Milliseconds(windowStart), Milliseconds(windowEnd);
    var cursorMs := startMs;
    var seenTimes: set<int> := {};
    rows := [];
    NothingYet(server, startMs, endMs);
    while cursorMs <= endMs
      invariant startMs <= cursorMs && (cursorMs <= endMs + 1 || cursorMs == startMs)
      invariant TimesBelow(seenTimes, cursorMs)
      invariant rows == FirstPerTime(server, startMs, cursorMs - 1)
      decreases endMs - cursorMs
    {
      var batch := FetchFunding(server, batchLimit, cursorMs, endMs);
      FundingPage(server, startMs, cursorMs, endMs, batchLimit, seenTimes);
      if |batch| == 0 {
        assert rows + [] == rows;
        break;
      }
      var added, lastTsMs;
      added, seenTimes, lastTsMs := TakePage(batch, seenTimes);
      rows := rows + added;
      if lastTsMs.None? || |batch| < batchLimit {
        break;
      }
      cursorMs := lastTsMs.value + 1;
    }
    FirstPerTimeInOrder(server, startMs, endMs);
    rows := StableSort(rows, Earlier);
  }

  lemma NothingYet(server: seq<FundingRow>, from: int, to: int)
    ensures TimesBelow({}, from)
    ensures FirstPerTime(server, from, from - 1) == []
    ensures to < from ==> FirstPerTime(server, from, to) == []
  {
    KeepNone(server, Between(FundingTime(), from, from - 1));
    if to < from {
      KeepNone(server, Between(FundingTime(), from, to));
    }
  }

  lemma FirstPerTimeInOrder(server: seq<FundingRow>, from: int, to: int)
    requires SortedBy(server, Earlier)
    ensures StableSort(FirstPerTime(server, from, to), Earlier) == FirstPerTime(server, from, to)
  {
    hide Keep, Deduped;
    KeepKeepsOrder(server, Between(FundingTime(), from, to), Earlier);
    DedupedKeepsOrder(Keep(server, Between(FundingTime(), from, to)), FundingTime(), {}, Earlier);
    SortOfSorted(FirstPerTime(server, from, to), Earlier);
  }

  /** Cutting a span of time in two cuts the rows kept from it in two. */
  lemma SplitAtTime(server: seq<FundingRow>, from: int, cursor: int, to: int)
    requires SortedBy(server, Earlier) && from <= cursor <= to + 1
    ensures FirstPerTime(server, from, to) == FirstPerTime(server, from, cursor - 1) + FirstPerTime(server, cursor, to)
  {
    hide Keep, Position, Deduped, Keys;
    var early, late := Keep(server, Between(FundingTime(), from, cursor - 1)),
        Keep(server, Between(FundingTime(), cursor, to));
    BetweenIsSlice(server, FundingTime(), from, to);
    BetweenIsSlice(server, FundingTime(), from, cursor - 1);
    BetweenIsSlice(server, FundingTime(), cursor, to);
    assert Keep(server, Between(FundingTime(), from, to)) == early + late;
    DedupedSplits(early, late, FundingTime(), {});
    forall i | 0 <= i < |late| ensures late[i].ms !in Keys(early, FundingTime()) {
      KeysMeaning(early, FundingTime(), late[i].ms);
      KeepMember(server, Between(FundingTime(), cursor, to), late[i]);
      forall j | 0 <= j < |early| ensures early[j].ms != late[i].ms {
        KeepMember(server, Between(FundingTime(), from, cursor - 1), early[j]);
      }
    }
    assert {} + Keys(early, FundingTime()) == Keys(early, FundingTime());
    UnseenDoesNotMatter(late, FundingTime(), Keys(early, FundingTime()));
  }

  /** The last row's time is the last time kept. */
  lemma {:induction false} LastTimeKept(s: seq<FundingRow>)
    requires SortedBy(s, Earlier) && |s| > 0
    ensures |Deduped(s, FundingTime(), {})| > 0
    ensures Deduped(s, FundingTime(), {})[|Deduped(s, FundingTime(), {})| - 1].ms == s[|s| - 1].ms
  {
    var init, last := s[..|s| - 1], s[|s| - 1];
    if last.ms in Keys(init, FundingTime()) {
      KeysMeaning(init, FundingTime(), last.ms);
      var i :| 0 <= i < |init| && FundingTime()(init[i]) == last.ms;
      assert Earlier(init[|init| - 1], last);
      assert i < |init| - 1 ==> Earlier(init[i], init[|init| - 1]);
      LastTimeKept(init);
    }
  }

  /** Extending a page to the end of its last millisecond adds only repeated times. */
  lemma PageToLastTime(server: seq<FundingRow>, cursor: int, to: int, limit: nat)
    requires SortedBy(server, Earlier) && cursor <= to && |FetchFunding(server, limit, cursor, to)| == limit > 0
    ensures var batch := FetchFunding(server, limit, cursor, to);
            cursor <= batch[limit - 1].ms <= to
                && FirstPerTime(server, cursor, batch[limit - 1].ms) == Deduped(batch, FundingTime(), {})
  {
    hide Keep, Position, Deduped, Keys;
    var batch := FetchFunding(server, limit, cursor, to);
    var last := batch[limit - 1].ms;
    var a := Position(server, FundingTime(), cursor);
    BetweenIsSlice(server, FundingTime(), cursor, to);
    assert batch[limit - 1] == server[a + limit - 1];
    KeepMember(server, Between(FundingTime(), cursor, to), batch[limit - 1]);
    BetweenIsSlice(server, FundingTime(), cursor, last);
    PositionMeaning(server, FundingTime(), last + 1);
    var rest := server[a + limit..Position(server, FundingTime(), last + 1)];
    assert Keep(server, Between(FundingTime(), cursor, last)) == batch + rest;
    DedupedSplits(batch, rest, FundingTime(), {});
    KeysMeaning(batch, FundingTime(), last);
    forall i | 0 <= i < |rest| ensures rest[i].ms in {} + Keys(batch, FundingTime()) {
      assert Earlier(server[a + limit - 1], server[a + limit + i]);
    }
    RepeatsDropped(rest, FundingTime(), {} + Keys(batch, FundingTime()));
  }

  /** What one page contributes: everything left when it is short, else everything up to its last time. */
  lemma FundingPage(server: seq<FundingRow>, from: int, cursor: int, to: int, limit: nat, seen: set<int>)
    requires SortedBy(server, Earlier) && from <= cursor <= to && limit > 0 && TimesBelow(seen, cursor)
    ensures var batch, added := FetchFunding(server, limit, cursor, to),
            Deduped(FetchFunding(server, limit, cursor, to), FundingTime(), seen);
            && |batch| <= limit
            && SortedBy(batch, Earlier)
            && (|batch| == 0 ==> added == [])
            && (|batch| > 0 ==> |added| > 0)
            && (|batch| < limit ==> FirstPerTime(server, from, to) == FirstPerTime(server, from, cursor - 1) + added)
            && (|batch| == limit ==>
                  && cursor <= added[|added| - 1].ms <= to
                  && TimesBelow(seen + Keys(batch, FundingTime()), added[|added| - 1].ms + 1)
                  && FirstPerTime(server, from, added[|added| - 1].ms)
                      == FirstPerTime(server, from, cursor - 1) + added)
  {
    hide Keep, Deduped, Keys;
    var late, batch := Keep(server, Between(FundingTime(), cursor, to)), FetchFunding(server, limit, cursor, to);
    KeepKeepsOrder(server, Between(FundingTime(), cursor, to), Earlier);
    forall i | 0 <= i < |batch| ensures batch[i].ms !in seen {
      KeepMember(server, Between(FundingTime(), cursor, to), late[i]);
    }
    UnseenDoesNotMatter(batch, FundingTime(), seen);
    NothingDeduped(seen);
    if |batch| < limit {
      SplitAtTime(server, from, cursor, to);
    } else {
      PageToLastTime(server, cursor, to, limit);
      LastTimeKept(batch);
      SplitAtTime(server, from, cursor, batch[limit - 1].ms);
      SeenToLastTime(batch, seen, cursor);
    }
  }

  lemma NothingDeduped(seen: set<int>)
    ensures Deduped([], FundingTime(), seen) == []
  {
  }

  lemma SeenToLastTime(batch: seq<FundingRow>, seen: set<int>, cursor: int)
    requires SortedBy(batch, Earlier) && |batch| > 0 && TimesBelow(seen, cursor) && cursor <= batch[|batch| - 1].ms
    ensures TimesBelow(seen + Keys(batch, FundingTime()), batch[|batch| - 1].ms + 1)
  {
    forall t | t in Keys(batch, FundingTime()) ensures t <= batch[|batch| - 1].ms {
      KeysMeaning(batch, FundingTime(), t);
      var i :| 0 <= i < |batch| && FundingTime()(batch[i]) == t;
      assert i < |batch| - 1 ==> Earlier(batch[i], batch[|batch| - 1]);
    }
  }

  function FundingInWindow(start: int, end: int): FundingRow -> bool {
    (r: FundingRow) => start <= r.ms * MILLISECOND <= end
  }

  /**
   Over distinct funding times, what is loaded is every row of the window once, unless a row is stamped
   in the millisecond the window's start falls inside of.
   */
  lemma LoadsEveryFundingRowOnce(server: seq<FundingRow>, start: int, end: int)
    requires forall i, j | 0 <= i < j < |server| :: server[i].ms < server[j].ms
    requires 0 <= start <= end
    ensures FirstPerTime(server, Milliseconds(start), Milliseconds(end)) == Keep(server, FundingInWindow(start, end))
       <==> !(start % MILLISECOND != 0 && exists r | r in server :: r.ms == start / MILLISECOND)
  {
    hide Keep, Deduped;
    var p, q := Between(FundingTime(), Milliseconds(start), Milliseconds(end)), FundingInWindow(start, end);
    KeepKeepsOrder(server, p, Sooner);
    DistinctKept(Keep(server, p), FundingTime(), {});
    if start % MILLISECOND != 0 && exists r | r in server :: r.ms == start / MILLISECOND {
      var r :| r in server && r.ms == start / MILLISECOND;
      KeepMember(server, p, r);
      KeepMember(server, q, r);
    } else {
      KeepSame(server, p, q);
    }
  }

  /** The same happens to a funding row. */
  lemma FundingStrayExample()
    ensures var server := [FundingRow(0, 0.0)];
            && FirstPerTime(server, Milliseconds(1), Milliseconds(1)) == server
            && Keep(server, FundingInWindow(1, 1)) == []
  {
    hide FirstPerTime, Keep;
    FundingStrayAlone(FundingRow(0, 0.0), 1, 1);
  }

  lemma FundingStrayAlone(r: FundingRow, start: int, end: int)
    requires Milliseconds(start) <= r.ms <= Milliseconds(end) && !FundingInWindow(start, end)(r)
    ensures FirstPerTime([r], Milliseconds(start), Milliseconds(end)) == [r]
    ensures Keep([r], FundingInWindow(start, end)) == []
  {
    KeepAll([r], Between(FundingTime(), Milliseconds(start), Milliseconds(end)));
    KeepNone([r], FundingInWindow(start, end));
    hide Keep;
    DistinctKept([r], FundingTime(), {});
    hide Deduped;
  }

  function Sooner(a: FundingRow, b: FundingRow): bool {
    a.ms < b.ms
  }

  /** The millisecond a moment falls inside of; before the epoch, the one it has just left. */
  lemma MillisecondHolds(us: int)
    ensures us >= 0 ==> Milliseconds(us) * 1000 <= us < Milliseconds(us) * 1000 + 1000
    ensures us < 0 ==> Milliseconds(us) * 1000 - 1000 < us <= Milliseconds(us) * 1000
  {
  }
}
