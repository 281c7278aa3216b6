/**
 The rolling windows of the feature engine (core/feature_engine.py): the open-interest deque, trimmed
 by time, the CVD deque, capped at 500 bars, and the deque of forced-order rates, capped as configured.
 Each is compared with the whole history.
 */
module FeatureWindows {
  import opened Prelude
  import opened RealArith
  import Calendar

  datatype Stamped<T> = Stamped(at: int, value: T)

  datatype Bar = Bar(price: real, cvd: real)

  datatype FeatureEngineConfig = FeatureEngineConfig(
    oiZWindowDays: int,
    oiBaselineDays: int,
    cvdDivergenceWindowBars: int,
    cvdDivergenceBars: int,
    forceOrderHistoryPoints: nat)

  datatype Quality = Ready | Degraded | Unavailable

  datatype OiStats = OiStats(value: real, zscore: real, deltaPct: real, quality: Quality)

  // The CVD bars are kept in a deque of this length.
  const MAX_BARS: nat := 500

  function Last<T>(s: seq<T>): T
    requires |s| > 0
  {
    s[|s| - 1]
  }

  // ---------------------------------------------------------------- the whole history

  /** A sample stamped like the last one takes its place; any other is appended. */
  function Recorded<T>(history: seq<Stamped<T>>, sample: Stamped<T>): seq<Stamped<T>> {
    if |history| > 0 && Last(history).at == sample.at then history[..|history| - 1] + [sample] else history + [sample]
  }

  /** Everything recorded, nothing forgotten, on top of the rows `loaded` at start-up. */
  function History<T>(loaded: seq<Stamped<T>>, stream: seq<Stamped<T>>): seq<Stamped<T>> {
    if |stream| == 0 then loaded else Recorded(History(loaded, stream[..|stream| - 1]), Last(stream))
  }

  ghost predicate InOrder<T>(s: seq<Stamped<T>>) {
    forall i, j | 0 <= i < j < |s| :: s[i].at <= s[j].at
  }

  function AtLeast<T>(start: int): Stamped<T> -> bool {
    (x: Stamped<T>) => x.at >= start
  }

  function From<T>(s: seq<Stamped<T>>, start: int): seq<Stamped<T>> {
    Keep(s, AtLeast(start))
  }

  /** No later sample of the stream carries the same stamp. */
  ghost predicate LastOfItsStamp<T>(stream: seq<Stamped<T>>, i: nat)
    requires i < |stream|
  {
    forall j | i < j < |stream| :: stream[j].at != stream[i].at
  }

  ghost predicate Rising<T>(s: seq<Stamped<T>>) {
    forall i, j | 0 <= i < j < |s| :: s[i].at < s[j].at
  }

  lemma {:induction false} HistoryEndsWithLast<T>(loaded: seq<Stamped<T>>, stream: seq<Stamped<T>>)
    requires |stream| > 0
    ensures |History(loaded, stream)| > 0 && Last(History(loaded, stream)) == Last(stream)
  {
  }

  lemma {:induction false} HistoryRises<T>(stream: seq<Stamped<T>>)
    requires InOrder(stream)
    ensures Rising(History([], stream))
  {
    hide Rising;
    var n := |stream| - 1;
    if n >= 0 {
      HistoryRises(stream[..n]);
      if n > 0 {
        HistoryEndsWithLast([], stream[..n]);
        assert stream[n - 1].at <= stream[n].at;
      }
      RecordedRises(History([], stream[..n]), stream[n]);
    } else {
      NothingRises<T>();
    }
  }

  lemma NothingRises<T>()
    ensures Rising<T>([])
  {
  }

  lemma RecordedRises<T>(s: seq<Stamped<T>>, x: Stamped<T>)
    requires Rising(s) && (|s| > 0 ==> Last(s).at <= x.at)
    ensures Rising(Recorded(s, x))
  {
  }

  lemma OrderOfPrefix<T>(loaded: seq<Stamped<T>>, stream: seq<Stamped<T>>)
    requires InOrder(loaded + stream) && |stream| > 0
    ensures InOrder(loaded + stream[..|stream| - 1])
    ensures |loaded + stream[..|stream| - 1]| > 0 ==> Last(loaded + stream[..|stream| - 1]).at <= Last(stream).at
  {
    var n := |stream| - 1;
    var prefix := loaded + stream[..n];
    assert loaded + stream == prefix + [stream[n]];
    forall i, j | 0 <= i < j < |prefix| ensures prefix[i].at <= prefix[j].at {
      assert prefix[i] == (loaded + stream)[i] && prefix[j] == (loaded + stream)[j];
    }
    if |prefix| > 0 {
      assert (loaded + stream)[|prefix| - 1].at <= (loaded + stream)[|prefix|].at;
    }
  }

  lemma {:induction false} HistoryKeepsOrder<T>(loaded: seq<Stamped<T>>, stream: seq<Stamped<T>>)
    requires InOrder(loaded + stream)
    ensures InOrder(History(loaded, stream))
  {
    hide InOrder, Recorded;
    if |stream| > 0 {
      var n := |stream| - 1;
      OrderOfPrefix(loaded, stream);
      HistoryKeepsOrder(loaded, stream[..n]);
      if n > 0 {
        HistoryEndsWithLast(loaded, stream[..n]);
      } else {
        assert loaded + stream[..n] == loaded;
      }
      RecordedKeepsOrder(History(loaded, stream[..n]), stream[n]);
    } else {
      assert loaded + stream == loaded;
    }
  }

  lemma RecordedKeepsOrder<T>(s: seq<Stamped<T>>, x: Stamped<T>)
    requires InOrder(s) && (|s| > 0 ==> Last(s).at <= x.at)
    ensures InOrder(Recorded(s, x)) && |Recorded(s, x)| > 0 && Last(Recorded(s, x)) == x
  {
  }

  ghost predicate Survives<T(!new)>(stream: seq<Stamped<T>>, s: Stamped<T>) {
    exists i :: 0 <= i < |stream| && stream[i] == s && LastOfItsStamp(stream, i)
  }

  /** In time order, the history holds exactly the last sample of every stamp. */
  lemma {:induction false} HistoryKeepsLastPerStamp<T(!new)>(stream: seq<Stamped<T>>, s: Stamped<T>)
    requires InOrder(stream)
    ensures s in History([], stream) <==> Survives(stream, s)
  {
    hide Survives;
    var n := |stream| - 1;
    if n < 0 {
      NoneSurvive(stream, s);
    } else {
      var before := History([], stream[..n]);
      HistoryKeepsLastPerStamp(stream[..n], s);
      HistoryRises(stream[..n]);
      if n > 0 {
        HistoryEndsWithLast([], stream[..n]);
      }
      LastSurvives(stream);
      if s != Last(stream) {
        SurvivesUnlessRestamped(stream, s);
        RecordedMembers(before, Last(stream), s);
        if s in before {
          StampedBefore(stream[..n], s);
        }
      }
    }
  }

  lemma NoneSurvive<T(!new)>(stream: seq<Stamped<T>>, s: Stamped<T>)
    requires |stream| == 0
    ensures !Survives(stream, s)
  {
  }

  lemma LastSurvives<T(!new)>(stream: seq<Stamped<T>>)
    requires |stream| > 0
    ensures Survives(stream, Last(stream))
  {
    assert LastOfItsStamp(stream, |stream| - 1);
  }

  lemma SurvivesUnlessRestamped<T(!new)>(stream: seq<Stamped<T>>, s: Stamped<T>)
    requires |stream| > 0 && s != Last(stream)
    ensures Survives(stream, s) <==> Survives(stream[..|stream| - 1], s) && s.at != Last(stream).at
  {
    var n := |stream| - 1;
    var init := stream[..n];
    if Survives(stream, s) {
      var i :| 0 <= i < |stream| && stream[i] == s && LastOfItsStamp(stream, i);
      assert forall j | i < j < n :: init[j] == stream[j];
      assert LastOfItsStamp(init, i) && init[i] == s;
    }
    if Survives(init, s) && s.at != stream[n].at {
      var i :| 0 <= i < n && init[i] == s && LastOfItsStamp(init, i);
      assert forall j | i < j < n :: stream[j] == init[j];
      assert LastOfItsStamp(stream, i) && stream[i] == s;
    }
  }

  lemma RecordedMembers<T(!new)>(before: seq<Stamped<T>>, last: Stamped<T>, s: Stamped<T>)
    requires Rising(before) && s != last
    requires |before| > 0 ==> Last(before).at <= last.at
    ensures s in Recorded(before, last) <==> s in before && s.at != last.at
  {
  }

  lemma StampedBefore<T(!new)>(stream: seq<Stamped<T>>, s: Stamped<T>)
    requires InOrder(stream) && |stream| > 0
    ensures Survives(stream, s) ==> s.at <= Last(stream).at
  {
  }

  // ---------------------------------------------------------------- open interest

  function DropBefore<T>(s: seq<Stamped<T>>, start: int): seq<Stamped<T>> {
    if |s| > 0 && s[0].at < start then DropBefore(s[1..], start) else s
  }

  /** The open-interest deque after one more sample. */
  function OiStep(window: seq<Stamped<real>>, sample: Stamped<real>, days: int): seq<Stamped<real>> {
    DropBefore(Recorded(window, sample), sample.at - days * Calendar.DAY)
  }

  function OiWindow(loaded: seq<Stamped<real>>, stream: seq<Stamped<real>>, days: int): seq<Stamped<real>> {
    if |stream| == 0 then loaded else OiStep(OiWindow(loaded, stream[..|stream| - 1], days), Last(stream), days)
  }

  /** In time order, dropping from the front is filtering. */
  lemma {:induction false} DropIsFilter<T>(s: seq<Stamped<T>>, start: int)
    requires InOrder(s)
    ensures DropBefore(s, start) == From(s, start)
  {
    hide Keep;
    if |s| > 0 && s[0].at < start {
      DropIsFilter(s[1..], start);
      assert s == [s[0]] + s[1..];
      KeepSplits([s[0]], s[1..], AtLeast(start));
      KeepNone([s[0]], AtLeast(start));
    } else {
      KeepAll(s, AtLeast(start));
    }
  }

  lemma FilterTwice<T>(s: seq<Stamped<T>>, start: int, later: int)
    requires start <= later
    ensures From(From(s, start), later) == From(s, later)
  {
    KeepTwice(s, AtLeast(start), AtLeast(later), AtLeast(later));
  }

  lemma {:induction false} FilterKeepsOrder<T(!new)>(s: seq<Stamped<T>>, start: int)
    requires InOrder(s)
    ensures InOrder(From(s, start))
    ensures |From(s, start)| > 0 ==> |s| > 0 && Last(From(s, start)).at <= Last(s).at
  {
    if |s| > 0 {
      var n := |s| - 1;
      FilterKeepsOrder(s[..n], start);
      forall x | x in From(s[..n], start) ensures x.at <= s[n].at {
        KeepMember(s[..n], AtLeast(start), x);
      }
      var kept := From(s, start);
      assert From(s[..n], start) + [] == From(s[..n], start);
      forall i | 0 <= i < |kept| ensures kept[i].at <= s[n].at {
        assert i < |From(s[..n], start)| ==> kept[i] == From(s[..n], start)[i];
      }
    }
  }

  /** Filtering before recording makes no difference after it, while the last sample is still in the window. */
  lemma RecordIntoFiltered<T>(history: seq<Stamped<T>>, sample: Stamped<T>, start: int, later: int)
    requires start <= later && |history| > 0 && Last(history).at >= start
    ensures From(Recorded(From(history, start), sample), later) == From(Recorded(history, sample), later)
  {
    var kept, n := From(history, start), |history| - 1;
    assert kept == From(history[..n], start) + [Last(history)];
    assert kept[..|kept| - 1] == From(history[..n], start);
    FilterTwice(history, start, later);
    FilterTwice(history[..n], start, later);
    hide Keep;
    KeepSnoc(kept, sample, AtLeast(later));
    KeepSnoc(history, sample, AtLeast(later));
    KeepSnoc(kept[..|kept| - 1], sample, AtLeast(later));
    KeepSnoc(history[..n], sample, AtLeast(later));
  }

  /**
   The open-interest deque is the whole history filtered to the window, for any rows loaded at start-up
   and any samples after them, as long as both are in time order.
   */
  lemma {:induction false} OiWindowIsHistory(loaded: seq<Stamped<real>>, stream: seq<Stamped<real>>, days: int)
    requires InOrder(loaded + stream) && |stream| > 0
    ensures OiWindow(loaded, stream, days) == From(History(loaded, stream), Last(stream).at - days * Calendar.DAY)
  {
    hide From, InOrder, DropBefore, Recorded;
    var n := |stream| - 1;
    var history, sample := History(loaded, stream[..n]), stream[n];
    var later := sample.at - days * Calendar.DAY;
    OrderOfPrefix(loaded, stream);
    HistoryKeepsOrder(loaded, stream[..n]);
    HistoryKeepsOrder(loaded, stream);
    if n == 0 {
      DropIsFilter(Recorded(loaded, sample), later);
    } else {
      var start := stream[n - 1].at - days * Calendar.DAY;
      OiWindowIsHistory(loaded, stream[..n], days);
      HistoryEndsWithLast(loaded, stream[..n]);
      FilterKeepsOrder(history, start);
      RecordedKeepsOrder(From(history, start), sample);
      DropIsFilter(Recorded(From(history, start), sample), later);
      if days >= 0 {
        RecordIntoFiltered(history, sample, start, later);
      } else {
        AllBefore(Recorded(From(history, start), sample), sample.at, later);
        HistoryEndsWithLast(loaded, stream);
        AllBefore(History(loaded, stream), sample.at, later);
      }
    }
  }

  lemma AllBefore<T>(s: seq<Stamped<T>>, at: int, start: int)
    requires InOrder(s) && |s| > 0 && Last(s).at == at < start
    ensures From(s, start) == []
  {
    KeepNone(s, AtLeast(start));
  }

  /** The statistics read off a window; the z-score is some function of the values in it and the new one. */
  function StatsOf(window: seq<Stamped<real>>, oiValue: real, baselineDays: int,
                   zscore: (seq<real>, real) -> real): OiStats {
    var values := Values(window);
    var prev := if |values| >= 2 then values[|values| - 2] else oiValue;
    OiStats(oiValue, zscore(values, oiValue), if prev == 0.0 then 0.0 else (oiValue - prev) / prev,
            OiQuality(window, baselineDays))
  }

  function Values(window: seq<Stamped<real>>): seq<real> {
    seq(|window|, i requires 0 <= i < |window| => window[i].value)
  }

  function OiQuality(window: seq<Stamped<real>>, baselineDays: int): Quality {
    if |window| < 2 then Unavailable
    else if MaxInt(Last(window).at - window[0].at, 0) >= MaxInt(baselineDays, 0) * Calendar.DAY then Ready
    else Degraded
  }

  /**
   After any samples in time order, the statistics are those of the whole history filtered to the
   window; in particular the change is measured from the last sample of the previous stamp in it.
   */
  lemma OiStatsFromScratch(loaded: seq<Stamped<real>>, stream: seq<Stamped<real>>, config: FeatureEngineConfig,
                           zscore: (seq<real>, real) -> real)
    requires InOrder(loaded + stream) && |stream| > 0
    ensures StatsOf(OiWindow(loaded, stream, config.oiZWindowDays), Last(stream).value, config.oiBaselineDays, zscore)
         == StatsOf(From(History(loaded, stream), Last(stream).at - config.oiZWindowDays * Calendar.DAY),
                    Last(stream).value, config.oiBaselineDays, zscore)
  {
    OiWindowIsHistory(loaded, stream, config.oiZWindowDays);
  }

  // ---------------------------------------------------------------- cumulative volume delta

  function Suffix<T>(s: seq<T>, n: nat): seq<T> {
    if |s| <= n then s else s[|s| - n..]
  }

  /** The capped deque after one more bar: a replaced bar frees nothing, an appended one may push out the oldest. */
  function CvdStep(bars: seq<Stamped<Bar>>, bar: Stamped<Bar>): seq<Stamped<Bar>> {
    if |bars| > 0 && Last(bars).at == bar.at then bars[..|bars| - 1] + [bar]
    else if |bars| >= MAX_BARS then bars[|bars| - MAX_BARS + 1..] + [bar]
    else bars + [bar]
  }

  function CvdWindow(loaded: seq<Stamped<Bar>>, stream: seq<Stamped<Bar>>): seq<Stamped<Bar>> {
    if |stream| == 0 then Suffix(loaded, MAX_BARS) else CvdStep(CvdWindow(loaded, stream[..|stream| - 1]), Last(stream))
  }

  /** The capped deque is the last 500 bars of the whole history. */
  lemma {:induction false} CvdWindowIsSuffix(loaded: seq<Stamped<Bar>>, stream: seq<Stamped<Bar>>)
    ensures CvdWindow(loaded, stream) == Suffix(History(loaded, stream), MAX_BARS)
  {
    if |stream| > 0 {
      var n := |stream| - 1;
      CvdWindowIsSuffix(loaded, stream[..n]);
      SuffixStep(History(loaded, stream[..n]), stream[n]);
    }
  }

  lemma SuffixStep(history: seq<Stamped<Bar>>, bar: Stamped<Bar>)
    ensures CvdStep(Suffix(history, MAX_BARS), bar) == Suffix(Recorded(history, bar), MAX_BARS)
  {
    if |history| > MAX_BARS {
      if Last(history).at == bar.at {
        ReplacedInSuffix(history, bar, MAX_BARS);
      } else {
        AppendedInSuffix(history, bar, MAX_BARS);
      }
    }
  }

  lemma ReplacedInSuffix<T>(s: seq<T>, x: T, n: nat)
    requires 0 < n <= |s|
    ensures (s[..|s| - 1] + [x])[|s| - n..] == s[|s| - n..][..n - 1] + [x]
  {
  }

  lemma AppendedInSuffix<T>(s: seq<T>, x: T, n: nat)
    requires 0 < n <= |s|
    ensures (s + [x])[|s| + 1 - n..] == s[|s| - n..][1..] + [x]
  {
  }

  function Cvd(): Stamped<Bar> -> real {
    (b: Stamped<Bar>) => b.value.cvd
  }

  ghost predicate FirstHighest(bars: seq<Stamped<Bar>>, i: nat) {
    && i < |bars|
    && (forall j | 0 <= j < |bars| :: bars[j].value.price <= bars[i].value.price)
    && (forall j | 0 <= j < i :: bars[j].value.price < bars[i].value.price)
  }

  ghost predicate FirstLowest(bars: seq<Stamped<Bar>>, i: nat) {
    && i < |bars|
    && (forall j | 0 <= j < |bars| :: bars[j].value.price >= bars[i].value.price)
    && (forall j | 0 <= j < i :: bars[j].value.price > bars[i].value.price)
  }

  /** Index of the first bar with the highest price. */
  function HighIdx(bars: seq<Stamped<Bar>>): (i: nat)
    requires |bars| > 0
    ensures FirstHighest(bars, i)
  {
    if |bars| == 1 then 0
    else
      var i := HighIdx(bars[..|bars| - 1]);
      if Last(bars).value.price > bars[i].value.price then |bars| - 1 else i
  }

  /** Index of the first bar with the lowest price. */
  function LowIdx(bars: seq<Stamped<Bar>>): (i: nat)
    requires |bars| > 0
    ensures FirstLowest(bars, i)
  {
    if |bars| == 1 then 0
    else
      var i := LowIdx(bars[..|bars| - 1]);
      if Last(bars).value.price < bars[i].value.price then |bars| - 1 else i
  }

  datatype Divergence = Divergence(bullish: bool, bearish: bool)

  const NO_DIVERGENCE := Divergence(false, false)

  function DivergenceWindow(config: FeatureEngineConfig): (n: nat)
    ensures n >= 3
  {
    MaxInt(config.cvdDivergenceWindowBars, 3)
  }

  ghost predicate Undercuts(price: real, bars: seq<Stamped<Bar>>) {
    forall b | b in bars :: price < b.value.price
  }

  ghost predicate Exceeds(price: real, bars: seq<Stamped<Bar>>) {
    forall b | b in bars :: price > b.value.price
  }

  /** A new low below every earlier bar while the net delta since the first lowest bar is positive, or the mirror
      image. */
  ghost function DivergenceIn(recent: seq<Stamped<Bar>>): Divergence
    requires |recent| >= 2
  {
    var previous := recent[..|recent| - 1];
    var current := Last(recent).value.price;
    Divergence(
      Undercuts(current, previous) && SumBy(recent[LowIdx(previous) + 1..], Cvd()) > 0.0,
      Exceeds(current, previous) && SumBy(recent[HighIdx(previous) + 1..], Cvd()) < 0.0)
  }

  ghost function DivergenceOf(bars: seq<Stamped<Bar>>, config: FeatureEngineConfig): Divergence {
    var window := DivergenceWindow(config);
    if |bars| < window then NO_DIVERGENCE else DivergenceIn(bars[|bars| - window..])
  }

  /** The flags the engine reports: none until enough bars are loaded. */
  ghost function FlagsOf(bars: seq<Stamped<Bar>>, config: FeatureEngineConfig): Divergence {
    if |bars| >= MaxInt(config.cvdDivergenceBars, 1) then DivergenceOf(bars, config) else NO_DIVERGENCE
  }

  /** Up to 500 bars asked for, the capped deque gives the flags of the whole history. */
  lemma CvdFlagsFromScratch(loaded: seq<Stamped<Bar>>, stream: seq<Stamped<Bar>>, config: FeatureEngineConfig)
    requires config.cvdDivergenceWindowBars <= MAX_BARS && config.cvdDivergenceBars <= MAX_BARS
    ensures FlagsOf(CvdWindow(loaded, stream), config) == FlagsOf(History(loaded, stream), config)
  {
    hide DivergenceIn, CvdWindow, History;
    CvdWindowIsSuffix(loaded, stream);
    var history, kept := History(loaded, stream), CvdWindow(loaded, stream);
    var window := DivergenceWindow(config);
    if |kept| >= window {
      assert kept[|kept| - window..] == history[|history| - window..];
    }
  }

  /** Beyond 500 bars asked for, the capped deque never reports a divergence. */
  lemma CvdFlagsBeyondCap(loaded: seq<Stamped<Bar>>, stream: seq<Stamped<Bar>>, config: FeatureEngineConfig)
    requires config.cvdDivergenceWindowBars > MAX_BARS || config.cvdDivergenceBars > MAX_BARS
    ensures FlagsOf(CvdWindow(loaded, stream), config) == NO_DIVERGENCE
  {
    CvdWindowIsSuffix(loaded, stream);
  }

  /** A quiet history at one price, */
  function QuietBars(n: nat): seq<Stamped<Bar>> {
    seq(n, i => Stamped(i, Bar(1.0, 0.0)))
  }

  /** and a last bar at a new low that was bought. */
  function BoughtLow(n: nat): Stamped<Bar> {
    Stamped(n, Bar(0.5, 1.0))
  }

  /** The bars the engine waits for before it looks for a divergence. */
  function BarsNeeded(config: FeatureEngineConfig): (n: nat)
    ensures n >= 3
  {
    MaxInt(DivergenceWindow(config), config.cvdDivergenceBars)
  }

  /** Whenever more than 500 bars are asked for, a history just long enough shows a bullish divergence
      and the deque shows none. */
  lemma BeyondCapSpeaks(config: FeatureEngineConfig)
    requires config.cvdDivergenceWindowBars > MAX_BARS || config.cvdDivergenceBars > MAX_BARS
    ensures var n := BarsNeeded(config) - 1;
            && FlagsOf(History(QuietBars(n), [BoughtLow(n)]), config).bullish
            && FlagsOf(CvdWindow(QuietBars(n), [BoughtLow(n)]), config) == NO_DIVERGENCE
  {
    hide DivergenceIn;
    var n, window := BarsNeeded(config) - 1, DivergenceWindow(config);
    var quiet, last := QuietBars(n), BoughtLow(n);
    CvdFlagsBeyondCap(quiet, [last], config);
    hide CvdWindow;
    assert [last][..0] == [];
    var history := quiet + [last];
    assert History(quiet, [last]) == history;
    var previous := quiet[n + 1 - window..];
    assert history[|history| - window..] == previous + [last];
    BoughtLowDiverges(previous, last);
  }

  lemma BoughtLowDiverges(quiet: seq<Stamped<Bar>>, last: Stamped<Bar>)
    requires |quiet| > 0 && forall b | b in quiet :: b.value == Bar(1.0, 0.0)
    requires last.value == Bar(0.5, 1.0)
    ensures DivergenceIn(quiet + [last]).bullish
  {
    var recent := quiet + [last];
    assert recent[..|recent| - 1] == quiet;
    QuietLow(quiet);
    assert recent[1..] == quiet[1..] + [last];
    QuietSum(quiet[1..]);
    SumByAppend(quiet[1..], [last], Cvd());
    LastSum(last);
    hide SumBy, LowIdx, HighIdx;
  }

  /** The capped deque always gives the flags of the whole history exactly when at most 500 bars are
      asked for. */
  lemma CvdFlagsAgreeIff(config: FeatureEngineConfig)
    ensures (forall loaded, stream ::
               FlagsOf(CvdWindow(loaded, stream), config) == FlagsOf(History(loaded, stream), config))
       <==> config.cvdDivergenceWindowBars <= MAX_BARS && config.cvdDivergenceBars <= MAX_BARS
  {
    hide FlagsOf, CvdWindow, History, QuietBars, BoughtLow;
    if config.cvdDivergenceWindowBars <= MAX_BARS && config.cvdDivergenceBars <= MAX_BARS {
      forall loaded, stream
        ensures FlagsOf(CvdWindow(loaded, stream), config) == FlagsOf(History(loaded, stream), config)
      {
        CvdFlagsFromScratch(loaded, stream, config);
      }
    } else {
      var n := BarsNeeded(config) - 1;
      BeyondCapSpeaks(config);
      assert FlagsOf(CvdWindow(QuietBars(n), [BoughtLow(n)]), config)
          != FlagsOf(History(QuietBars(n), [BoughtLow(n)]), config);
    }
  }

  /** In numbers: with a window of 501 bars, 500 quiet bars and one more. */
  lemma BeyondCapExample(config: FeatureEngineConfig)
    requires config.cvdDivergenceWindowBars == MAX_BARS + 1 && config.cvdDivergenceBars <= MAX_BARS + 1
    ensures FlagsOf(History(QuietBars(MAX_BARS), [Stamped(MAX_BARS, Bar(0.5, 1.0))]), config).bullish
    ensures FlagsOf(CvdWindow(QuietBars(MAX_BARS), [Stamped(MAX_BARS, Bar(0.5, 1.0))]), config) == NO_DIVERGENCE
  {
    hide FlagsOf, CvdWindow, History, QuietBars;
    BeyondCapSpeaks(config);
  }

  lemma QuietLow(bars: seq<Stamped<Bar>>)
    requires |bars| > 0 && forall b | b in bars :: b.value.price == 1.0
    ensures LowIdx(bars) == 0
  {
    assert bars[0] in bars && bars[LowIdx(bars)] in bars;
  }

  lemma LastSum(last: Stamped<Bar>)
    ensures SumBy([last], Cvd()) == last.value.cvd
  {
  }

  lemma {:induction false} QuietSum(bars: seq<Stamped<Bar>>)
    requires forall b | b in bars :: b.value.cvd == 0.0
    ensures SumBy(bars, Cvd()) == 0.0
  {
    if |bars| > 0 {
      QuietSum(bars[..|bars| - 1]);
    }
  }

  lemma SumOfRest(bars: seq<Stamped<Bar>>, i: nat)
    requires i <= |bars|
    ensures SumBy(bars, Cvd()) - SumBy(bars[..i], Cvd()) == SumBy(bars[i..], Cvd())
  {
    assert bars == bars[..i] + bars[i..];
    SumByAppend(bars[..i], bars[i..], Cvd());
  }

  /** Comparing running totals at the two bars is asking for the net delta between them. */
  lemma DivergenceByRollingSums(recent: seq<Stamped<Bar>>)
    requires |recent| >= 2
    ensures DivergenceIn(recent).bullish <==>
              && Last(recent).value.price < recent[LowIdx(recent[..|recent| - 1])].value.price
              && SumBy(recent, Cvd()) > SumBy(recent[..LowIdx(recent[..|recent| - 1]) + 1], Cvd())
    ensures DivergenceIn(recent).bearish <==>
              && Last(recent).value.price > recent[HighIdx(recent[..|recent| - 1])].value.price
              && SumBy(recent, Cvd()) < SumBy(recent[..HighIdx(recent[..|recent| - 1]) + 1], Cvd())
  {
    hide SumBy, LowIdx, HighIdx, FirstLowest, FirstHighest, Undercuts, Exceeds;
    var previous, price := recent[..|recent| - 1], Last(recent).value.price;
    IndexInRange(previous);
    BeyondAll(previous, price);
    assert recent[LowIdx(previous)] == previous[LowIdx(previous)];
    assert recent[HighIdx(previous)] == previous[HighIdx(previous)];
    SumOfRest(recent, HighIdx(previous) + 1);
    SumOfRest(recent, LowIdx(previous) + 1);
  }

  lemma IndexInRange(bars: seq<Stamped<Bar>>)
    requires |bars| > 0
    ensures LowIdx(bars) < |bars| && HighIdx(bars) < |bars|
  {
  }

  lemma BeyondAll(bars: seq<Stamped<Bar>>, price: real)
    requires |bars| > 0
    ensures price < bars[LowIdx(bars)].value.price <==> Undercuts(price, bars)
    ensures price > bars[HighIdx(bars)].value.price <==> Exceeds(price, bars)
  {
    hide LowIdx, HighIdx;
    assert bars[LowIdx(bars)] in bars && bars[HighIdx(bars)] in bars;
  }

  // ---------------------------------------------------------------- forced orders

  /** Forced orders a second over the last minute. */
  function Rate(count: nat): real {
    count as real / 60.0
  }

  /** The deque of rates after one more bar, capped at the configured number of points. */
  function RateStep(rates: seq<real>, count: nat, points: nat): seq<real> {
    Suffix(rates + [Rate(count)], points)
  }

  function RateWindow(counts: seq<nat>, points: nat): seq<real> {
    if |counts| == 0 then [] else RateStep(RateWindow(counts[..|counts| - 1], points), counts[|counts| - 1], points)
  }

  function Rates(counts: seq<nat>): seq<real> {
    seq(|counts|, i requires 0 <= i < |counts| => Rate(counts[i]))
  }

  /** The capped deque holds the last rates of the whole stream. */
  lemma {:induction false} RateWindowIsSuffix(counts: seq<nat>, points: nat)
    ensures RateWindow(counts, points) == Suffix(Rates(counts), points)
  {
    hide Rate;
    if |counts| > 0 {
      var n := |counts| - 1;
      RateWindowIsSuffix(counts[..n], points);
      SuffixOfSuffix(Rates(counts[..n]), Rate(counts[n]), points);
      hide Suffix;
      assert Rates(counts) == Rates(counts[..n]) + [Rate(counts[n])];
    }
  }

  /** The rate stands out from those before it; `sd` is some function of the earlier rates. */
  function IsSpike(rates: seq<real>, current: real, sd: seq<real> -> real): bool {
    if |rates| < 6 then false
    else
      var baseline := rates[..|rates| - 1];
      var mean := SumBy(baseline, (x: real) => x) / |baseline| as real;
      if sd(baseline) == 0.0 then current > mean && current > 0.0 else current > mean + 2.0 * sd(baseline)
  }

  function IsDecreasing(rates: seq<real>): bool {
    |rates| >= 3 && rates[|rates| - 1] < rates[|rates| - 2] < rates[|rates| - 3]
  }

  /** Forced orders are reported as decreasing exactly when the last three counts fall and the deque has room
      for three. */
  lemma DecreasingMeaning(counts: seq<nat>, points: nat)
    ensures IsDecreasing(RateWindow(counts, points)) <==>
              var n := |counts|;
              points >= 3 && n >= 3 && counts[n - 1] < counts[n - 2] < counts[n - 3]
  {
    hide Rate, RateWindow, Rates, Suffix, IsDecreasing;
    RateWindowIsSuffix(counts, points);
    SuffixDecreasing(Rates(counts), points);
    RatesDecreasing(counts);
  }

  lemma SuffixDecreasing(rates: seq<real>, points: nat)
    ensures IsDecreasing(Suffix(rates, points)) <==> points >= 3 && IsDecreasing(rates)
  {
  }

  lemma RatesDecreasing(counts: seq<nat>)
    ensures IsDecreasing(Rates(counts)) <==>
              |counts| >= 3 && counts[|counts| - 1] < counts[|counts| - 2] < counts[|counts| - 3]
  {
    hide Rate;
    var n := |counts|;
    if n >= 3 {
      RateOrder(counts[n - 1], counts[n - 2]);
      RateOrder(counts[n - 2], counts[n - 3]);
    }
  }

  lemma SuffixOfSuffix(rates: seq<real>, rate: real, points: nat)
    ensures Suffix(Suffix(rates, points) + [rate], points) == Suffix(rates + [rate], points)
  {
  }

  lemma RateOrder(a: nat, b: nat)
    ensures Rate(a) < Rate(b) <==> a < b
  {
  }

  // ---------------------------------------------------------------- the engine

  class FeatureEngine {
    const config: FeatureEngineConfig
    const zscore: (seq<real>, real) -> real
    const sd: seq<real> -> real
    var oiHistory: seq<Stamped<real>>
    var cvdPriceHistory: seq<Stamped<Bar>>
    var forceOrderRateHistory: seq<real>

    constructor (config: FeatureEngineConfig, zscore: (seq<real>, real) -> real, sd: seq<real> -> real)
      ensures this.config == config && this.zscore == zscore && this.sd == sd
      ensures oiHistory == [] && cvdPriceHistory == [] && forceOrderRateHistory == []
    {
      this.config, this.zscore, this.sd := config, zscore, sd;
      oiHistory, cvdPriceHistory, forceOrderRateHistory := [], [], [];
    }

    method Reset()
      modifies this
      ensures oiHistory == [] && cvdPriceHistory == [] && forceOrderRateHistory == []
    {
      oiHistory, cvdPriceHistory, forceOrderRateHistory := [], [], [];
    }

    method RecordForceOrders(count: nat) returns (spike: bool, decreasing: bool)
      modifies `forceOrderRateHistory
      ensures forceOrderRateHistory == RateStep(old(forceOrderRateHistory), count, config.forceOrderHistoryPoints)
      ensures spike == IsSpike(forceOrderRateHistory, Rate(count), sd)
      ensures decreasing == IsDecreasing(forceOrderRateHistory)
    {
      var forceOrderRate60s := count as real / 60.0;
      forceOrderRateHistory := forceOrderRateHistory + [forceOrderRate60s];
      if |forceOrderRateHistory| > config.forceOrderHistoryPoints {
        forceOrderRateHistory := forceOrderRateHistory[|forceOrderRateHistory| - config.forceOrderHistoryPoints..];
      }
      spike := IsSpike(forceOrderRateHistory, forceOrderRate60s, sd);
      decreasing := IsDecreasing(forceOrderRateHistory);
    }

    method ComputeOiStats(oiValue: real, now: int) returns (stats: OiStats)
      modifies `oiHistory
      ensures oiHistory == OiStep(old(oiHistory), Stamped(now, oiValue), config.oiZWindowDays)
      ensures stats == StatsOf(oiHistory, oiValue, config.oiBaselineDays, zscore)
    {
      var sample := Stamped(now, oiValue);
      if |oiHistory| > 0 && oiHistory[|oiHistory| - 1].at == now {
        oiHistory := oiHistory[|oiHistory| - 1 := sample];
      } else {
        oiHistory := oiHistory + [sample];
      }
      assert oiHistory == Recorded(old(oiHistory), sample);
      var threshold := now - config.oiZWindowDays * Calendar.DAY;
      while |oiHistory| > 0 && oiHistory[0].at < threshold
        invariant DropBefore(oiHistory, threshold) == DropBefore(Recorded(old(oiHistory), sample), threshold)
        decreases |oiHistory|
      {
        oiHistory := oiHistory[1..];
      }
      var values := Values(oiHistory);
      var prev := if |values| >= 2 then values[|values| - 2] else oiValue;
      var deltaPct := if prev == 0.0 then 0.0 else (oiValue - prev) / prev;
      stats := OiStats(oiValue, zscore(values, oiValue), deltaPct, OiQuality(oiHistory, config.oiBaselineDays));
    }

    method RecordCvd(now: int, price: real, cvd: real) returns (flags: Divergence)
      modifies `cvdPriceHistory
      ensures cvdPriceHistory == CvdStep(old(cvdPriceHistory), Stamped(now, Bar(price, cvd)))
      ensures flags == FlagsOf(cvdPriceHistory, config)
    {
      var bar := Stamped(now, Bar(price, cvd));
      if |cvdPriceHistory| > 0 && cvdPriceHistory[|cvdPriceHistory| - 1].at == now {
        cvdPriceHistory := cvdPriceHistory[|cvdPriceHistory| - 1 := bar];
      } else {
        if |cvdPriceHistory| >= MAX_BARS {
          cvdPriceHistory := cvdPriceHistory[|cvdPriceHistory| - MAX_BARS + 1..];
        }
        cvdPriceHistory := cvdPriceHistory + [bar];
      }
      if |cvdPriceHistory| >= MaxInt(config.cvdDivergenceBars, 1) {
        flags := ComputeCvdDivergence();
      } else {
        flags := NO_DIVERGENCE;
      }
    }

    method ComputeCvdDivergence() returns (flags: Divergence)
      ensures flags == DivergenceOf(cvdPriceHistory, config)
    {
      hide DivergenceIn, SumBy, LowIdx, HighIdx, FirstLowest, FirstHighest, MaxInt;
      var window := DivergenceWindow(config);
      if |cvdPriceHistory| < window {
        return NO_DIVERGENCE;
      }
      var recent := cvdPriceHistory[|cvdPriceHistory| - window..];
      var rollingCvd := RollingSums(recent);
      var previous := recent[..window - 1];
      IndexInRange(previous);
      var high, low := HighIdx(previous), LowIdx(previous);
      var currentPrice, currentCvd := recent[window - 1].value.price, rollingCvd[window - 1];
      assert recent[..window] == recent;
      DivergenceByRollingSums(recent);
      flags := Divergence(
        currentPrice < previous[low].value.price && currentCvd > rollingCvd[low],
        currentPrice > previous[high].value.price && currentCvd < rollingCvd[high]);
    }

    static method RollingSums(recent: seq<Stamped<Bar>>) returns (rolling: seq<real>)
      ensures |rolling| == |recent|
      ensures forall k | 0 <= k < |recent| :: rolling[k] == SumBy(recent[..k + 1], Cvd())
    {
      rolling := [];
      var runningCvd := 0.0;
      for i := 0 to |recent|
        invariant |rolling| == i && runningCvd == SumBy(recent[..i], Cvd())
        invariant forall k | 0 <= k < i :: rolling[k] == SumBy(recent[..k + 1], Cvd())
      {
        assert recent[..i + 1][..i] == recent[..i];
        runningCvd := runningCvd + recent[i].value.cvd;
        rolling := rolling + [runningCvd];
      }
    }
  }

  // ---------------------------------------------------------------- in plain terms

  /** The open-interest deque keeps what is at most the configured number of days older than the newest sample; it is
      ready when two samples span the baseline, none when there are fewer than two. */
  lemma OpenInterestInPlainTerms(window: seq<Stamped<real>>, oiValue: real, config: FeatureEngineConfig,
                                 zscore: (seq<real>, real) -> real)
    ensures var stats, n := StatsOf(window, oiValue, config.oiBaselineDays, zscore), |window|;
            && stats.value == oiValue
            && (stats.quality == Unavailable <==> n <= 1)
            && (stats.quality == Ready <==>
                  && n >= 2
                  && (config.oiBaselineDays <= 0
                      || window[n - 1].at - window[0].at >= config.oiBaselineDays * 86_400_000_000))
            && (n >= 2 && window[n - 2].value != 0.0 ==>
                  Times(stats.deltaPct, window[n - 2].value) == oiValue - window[n - 2].value)
            && (n <= 1 || window[n - 2].value == 0.0 ==> stats.deltaPct == 0.0)
            && (forall k | 0 <= k < n :: Values(window)[k] == window[k].value)
            && stats.zscore == zscore(Values(window), oiValue)
  {
    if |window| >= 2 && window[|window| - 2].value != 0.0 {
      QuotientTimes(oiValue - window[|window| - 2].value, window[|window| - 2].value);
    } else if oiValue != 0.0 {
      QuotientTimes(0.0, oiValue);
    }
  }

  lemma OldestIsRecent(window: seq<Stamped<real>>, sample: Stamped<real>, days: int)
    ensures var kept := OiStep(window, sample, days);
            |kept| > 0 ==> kept[0].at >= sample.at - days * 86_400_000_000
  {
    FrontIsRecent(Recorded(window, sample), sample.at - days * Calendar.DAY);
  }

  lemma {:induction false} FrontIsRecent<T>(s: seq<Stamped<T>>, start: int)
    ensures |DropBefore(s, start)| > 0 ==> DropBefore(s, start)[0].at >= start
  {
    if |s| > 0 && s[0].at < start {
      FrontIsRecent(s[1..], start);
    }
  }

  /** The CVD deque never holds more than 500 bars, and all of them up to that. */
  lemma CvdWindowHolds(loaded: seq<Stamped<Bar>>, stream: seq<Stamped<Bar>>)
    ensures |CvdWindow(loaded, stream)|
         == if |History(loaded, stream)| <= 500 then |History(loaded, stream)| else 500
  {
    CvdWindowIsSuffix(loaded, stream);
  }

  /** Divergence looks at the last bars of the configured number, three at the least, and there is none over fewer, nor
      while the history is shorter than required. */
  lemma DivergenceInPlainTerms(bars: seq<Stamped<Bar>>, config: FeatureEngineConfig)
    ensures var window := if config.cvdDivergenceWindowBars < 3 then 3 else config.cvdDivergenceWindowBars;
            var flags := FlagsOf(bars, config);
            if |bars| < window || |bars| < config.cvdDivergenceBars then !flags.bullish && !flags.bearish
            else flags == DivergenceIn(bars[|bars| - window..])
  {
    hide DivergenceIn;
  }

  /** A rate of forced orders is a count over sixty seconds. It is a spike when there are at least five earlier ones
      and it exceeds their mean by more than two deviations, or by anything if they do not vary and it is positive. */
  lemma SpikeInPlainTerms(baseline: seq<real>, current: real, sd: seq<real> -> real)
    ensures var sum, n := SumBy(baseline, (x: real) => x), |baseline|;
            && (n < 5 ==> !IsSpike(baseline + [current], current, sd))
            && (n >= 5 && sd(baseline) != 0.0 ==>
                  (IsSpike(baseline + [current], current, sd) <==>
                     Times(current - 2.0 * sd(baseline), n as real) > sum))
            && (n >= 5 && sd(baseline) == 0.0 ==>
                  (IsSpike(baseline + [current], current, sd) <==> Times(current, n as real) > sum && current > 0.0))
    ensures forall count: nat :: Times(Rate(count), 60.0) == count as real
  {
    assert (baseline + [current])[..|baseline|] == baseline;
    var sum, n := SumBy(baseline, (x: real) => x), |baseline|;
    if n >= 5 {
      QuotientAgainst(sum, n as real, current - 2.0 * sd(baseline));
      QuotientAgainst(sum, n as real, current);
    }
    forall count: nat ensures Times(Rate(count), 60.0) == count as real {
      QuotientTimes(count as real, 60.0);
    }
    hide Times, SumBy;
  }
}
