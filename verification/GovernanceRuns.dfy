/**
 What the bounded memory of accepted levels achieves over any sequence of calls
 (core/governance.py): approvals close in time are apart in level.
 */
module GovernanceRuns {
  import opened Prelude
  import opened Governance

  datatype Call = Call(now: int, entry: real, state: GovernanceRuntimeState)

  /** The deque after some calls, every approval so far, and the horizon of the last duplicate check. */
  datatype History = History(levels: seq<Level>, approvals: seq<Level>, horizon: Option<int>)

  function Next(config: GovernanceConfig, h: History, call: Call): History {
    var outcome := Evaluated(config, h.levels, call.state, call.now, call.entry);
    History(
      outcome.levels,
      if outcome.approved then h.approvals + [Level(call.now, call.entry)] else h.approvals,
      if PassesGates(config, call.state, call.now) then Some(call.now - Window(config)) else h.horizon)
  }

  function Replayed(config: GovernanceConfig, calls: seq<Call>, n: nat): History
    requires n <= |calls|
  {
    if n == 0 then History([], [], None) else Next(config, Replayed(config, calls, n - 1), calls[n - 1])
  }

  ghost predicate InOrder(calls: seq<Call>) {
    forall i, j | 0 <= i < j < |calls| :: calls[i].now <= calls[j].now
  }

  /** Number of the first approval still in the deque. */
  function FirstKept(h: History): int {
    |h.approvals| - |h.levels|
  }

  ghost predicate Within(h: History, i: int)
    requires 0 <= i < |h.approvals|
  {
    |h.approvals| - i <= MAX_LEVELS && (h.horizon.None? || h.approvals[i].at >= h.horizon.value)
  }

  /** The deque holds exactly the approvals that are among the last 200 and not before the horizon. */
  ghost predicate DequeIsWindow(h: History) {
    && 0 <= FirstKept(h)
    && h.levels == h.approvals[FirstKept(h)..]
    && forall i | 0 <= i < |h.approvals| :: i >= FirstKept(h) <==> Within(h, i)
  }

  ghost predicate TimesUpTo(h: History, now: int, config: GovernanceConfig) {
    && (forall i, j | 0 <= i <= j < |h.approvals| :: h.approvals[i].at <= h.approvals[j].at)
    && (forall i | 0 <= i < |h.approvals| :: h.approvals[i].at <= now)
    && (h.horizon.Some? ==> h.horizon.value <= now - Window(config))
  }

  /** Approvals at most 200 apart in order and within the window in time differ in level by more
      than the tolerance. */
  ghost predicate Spaced(config: GovernanceConfig, approvals: seq<Level>) {
    forall i, j | 0 <= i < j < |approvals| && j - i <= MAX_LEVELS
        && approvals[j].at - approvals[i].at <= Window(config) ::
      !TooClose(config, approvals[i].price, approvals[j].price)
  }

  /** How many levels at the front lie before the horizon. */
  lemma {:induction false} DropExpiredIsSuffix(levels: seq<Level>, horizon: int) returns (k: nat)
    ensures k <= |levels| && DropExpired(levels, horizon) == levels[k..]
    ensures forall i | 0 <= i < k :: levels[i].at < horizon
    ensures k < |levels| ==> levels[k].at >= horizon
  {
    if |levels| > 0 && levels[0].at < horizon {
      var k' := DropExpiredIsSuffix(levels[1..], horizon);
      k := k' + 1;
      forall i | 0 <= i < k ensures levels[i].at < horizon {
        if i > 0 {
          assert levels[1..][i - 1] == levels[i];
        }
      }
    } else {
      k := 0;
    }
  }

  /** The duplicate check first moves the window on; the deque stays the window. */
  lemma AfterDrop(config: GovernanceConfig, h: History, now: int)
    requires DequeIsWindow(h) && TimesUpTo(h, now, config)
    ensures DequeIsWindow(History(DropExpired(h.levels, now - Window(config)), h.approvals, Some(now - Window(config))))
  {
    var horizon := now - Window(config);
    var k := DropExpiredIsSuffix(h.levels, horizon);
    var h' := History(DropExpired(h.levels, horizon), h.approvals, Some(horizon));
    assert FirstKept(h') == FirstKept(h) + k;
    assert h.levels[k..] == h.approvals[FirstKept(h)..][k..] == h.approvals[FirstKept(h')..];
    forall i | 0 <= i < |h.approvals| ensures i >= FirstKept(h') <==> Within(h', i) {
      assert i >= FirstKept(h) <==> Within(h, i);
      if i >= FirstKept(h) {
        assert h.approvals[i] == h.levels[i - FirstKept(h)];
        if i >= FirstKept(h') {
          assert h.levels[k] == h.approvals[FirstKept(h')];
        }
      }
    }
  }

  lemma AtMostMaxLevels(h: History)
    requires DequeIsWindow(h)
    ensures |h.levels| <= MAX_LEVELS
  {
    if |h.levels| > 0 {
      assert Within(h, FirstKept(h));
    }
  }

  /** Accepting a level appends it, and pushes out the oldest only when 200 are kept. */
  lemma AfterAppend(config: GovernanceConfig, h: History, now: int, entry: real)
    requires DequeIsWindow(h) && h.horizon.Some? && h.horizon.value <= now
    ensures DequeIsWindow(History(AppendBounded(h.levels, Level(now, entry)), h.approvals + [Level(now, entry)],
                                  h.horizon))
  {
    var level := Level(now, entry);
    var h' := History(AppendBounded(h.levels, level), h.approvals + [level], h.horizon);
    AtMostMaxLevels(h);
    SuffixAppends(h, level);
    forall i | 0 <= i < |h'.approvals| ensures i >= FirstKept(h') <==> Within(h', i) {
      if i < |h.approvals| {
        assert h'.approvals[i] == h.approvals[i];
        assert i >= FirstKept(h) <==> Within(h, i);
      }
    }
  }

  lemma SuffixAppends(h: History, level: Level)
    requires 0 <= FirstKept(h) && h.levels == h.approvals[FirstKept(h)..] && |h.levels| <= MAX_LEVELS
    ensures var h' := History(AppendBounded(h.levels, level), h.approvals + [level], h.horizon);
            && FirstKept(h') == FirstKept(h) + (if |h.levels| == MAX_LEVELS then 1 else 0)
            && h'.levels == h'.approvals[FirstKept(h')..]
  {
    if |h.levels| == MAX_LEVELS {
      assert h.levels[1..] == h.approvals[FirstKept(h) + 1..];
    }
  }

  lemma AcceptedIsSpaced(config: GovernanceConfig, h: History, now: int, entry: real)
    requires DequeIsWindow(h) && Spaced(config, h.approvals) && h.horizon == Some(now - Window(config))
    requires forall l | l in h.levels :: !TooClose(config, l.price, entry)
    ensures Spaced(config, h.approvals + [Level(now, entry)])
  {
    hide TooClose, Window;
    var longer := h.approvals + [Level(now, entry)];
    forall i, j | 0 <= i < j < |longer| && j - i <= MAX_LEVELS && longer[j].at - longer[i].at <= Window(config)
      ensures !TooClose(config, longer[i].price, longer[j].price)
    {
      if j == |h.approvals| {
        assert Within(h, i);
        assert h.levels[i - FirstKept(h)] == h.approvals[i];
        assert h.approvals[i] in h.levels;
      }
    }
  }

  lemma NextKeeps(config: GovernanceConfig, h: History, call: Call)
    requires DequeIsWindow(h) && TimesUpTo(h, call.now, config) && Spaced(config, h.approvals)
    requires config.duplicateLevelWindowHours >= 0
    ensures DequeIsWindow(Next(config, h, call)) && TimesUpTo(Next(config, h, call), call.now, config)
    ensures Spaced(config, Next(config, h, call).approvals)
  {
    hide PassesGates, TooClose, DropExpired, AppendBounded, DequeIsWindow, Spaced;
    if PassesGates(config, call.state, call.now) {
      WindowNotNegative(config);
      AfterDrop(config, h, call.now);
      var dropped := History(DropExpired(h.levels, call.now - Window(config)), h.approvals,
                             Some(call.now - Window(config)));
      if Evaluated(config, h.levels, call.state, call.now, call.entry).approved {
        AfterAppend(config, dropped, call.now, call.entry);
        AcceptedIsSpaced(config, dropped, call.now, call.entry);
      }
    }
  }

  lemma WindowNotNegative(config: GovernanceConfig)
    requires config.duplicateLevelWindowHours >= 0
    ensures Window(config) >= 0
  {
  }

  lemma TimesAdvance(config: GovernanceConfig, h: History, now: int, later: int)
    requires TimesUpTo(h, now, config) && now <= later
    ensures TimesUpTo(h, later, config)
  {
  }

  /** For every sequence of calls in time order: the deque is always the last 200 approvals less
      those already out of the window, and among any 201 consecutive approvals two within the window
      differ by more than the tolerance, relative to the earlier one. */
  lemma {:induction false} ApprovalsAreSpaced(config: GovernanceConfig, calls: seq<Call>, n: nat)
    requires n <= |calls| && InOrder(calls) && config.duplicateLevelWindowHours >= 0
    ensures DequeIsWindow(Replayed(config, calls, n))
    ensures Spaced(config, Replayed(config, calls, n).approvals)
    ensures n > 0 ==> TimesUpTo(Replayed(config, calls, n), calls[n - 1].now, config)
  {
    hide Next, TooClose;
    if n > 0 {
      ApprovalsAreSpaced(config, calls, n - 1);
      var h, call := Replayed(config, calls, n - 1), calls[n - 1];
      if n > 1 {
        TimesAdvance(config, h, calls[n - 2].now, call.now);
      }
      NextKeeps(config, h, call);
    }
  }
}
