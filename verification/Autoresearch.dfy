/**
 Ranking, blocking risks and the approval-bundle decision of the research loop
 (research_lab/autoresearch_loop.py).
 */
module Autoresearch {
  import opened Prelude
  import opened Sorting
  import opened Pareto
  import opened WalkForward

  const NOT_PASSED := "walkforward_not_passed"
  const FRAGILE := "walkforward_fragile"

  /** A candidate that passed the parameter checks, with the evaluations the backtests gave it. */
  datatype Candidate = Candidate(evaluation: TrialEvaluation, windows: seq<WindowEvaluation>)

  datatype CandidateResult = CandidateResult(
    candidateId: int,
    evaluation: TrialEvaluation,
    report: WalkForwardReport,
    blockingRisks: seq<string>,
    rank: nat)

  datatype StopReason = Completed | MaxCandidatesReached | StoreNotWritable

  datatype LoopReport = LoopReport(stopReason: StopReason, results: seq<CandidateResult>, bundle: Option<int>)

  /** Which writes to the store succeed: of the k-th trial, its walk-forward, and the k-th recommendation. */
  datatype Store = Store(saveTrial: nat -> bool, saveWalkforward: nat -> bool, saveRecommendation: nat -> bool)

  predicate BlocksPromotion(reason: string) {
    reason == NOT_PASSED || reason == FRAGILE
  }

  /** The risks, each once, in the order they arise. */
  method BlockingRisks(report: WalkForwardReport) returns (risks: seq<string>)
    ensures forall r :: r in risks <==>
              || (r == NOT_PASSED && !report.passed)
              || (r == FRAGILE && report.fragile)
              || (r in report.reasons && (r == "walkforward_not_passed" || r == "walkforward_fragile"))
    ensures forall i, j | 0 <= i < j < |risks| :: risks[i] != risks[j]
  {
    risks := [];
    if !report.passed {
      risks := risks + [NOT_PASSED];
    }
    if report.fragile {
      assert NOT_PASSED[12] != FRAGILE[12];
      risks := risks + [FRAGILE];
    }
    for i := 0 to |report.reasons|
      invariant forall r :: r in risks <==>
                  || (r == NOT_PASSED && !report.passed)
                  || (r == FRAGILE && report.fragile)
                  || (r in report.reasons[..i] && BlocksPromotion(r))
      invariant forall i, j | 0 <= i < j < |risks| :: risks[i] != risks[j]
    {
      var reason := report.reasons[i];
      assert report.reasons[..i + 1] == report.reasons[..i] + [reason];
      if BlocksPromotion(reason) && reason !in risks {
        risks := risks + [reason];
      }
    }
    assert report.reasons[..|report.reasons|] == report.reasons;
  }

  // ---------------------------------------------------------------- ranking

  function OneIfTrue(b: bool): real {
    if b then 1.0 else 0.0
  }

  /** Passed before not passed, sturdy before fragile, then the metrics, then the identifier. */
  function RankKey(): CandidateResult -> seq<real> {
    (r: CandidateResult) => [
      OneIfTrue(!r.report.passed), OneIfTrue(r.report.fragile), -r.evaluation.metrics.expectancyR,
      r.evaluation.metrics.maxDrawdownPct, -r.evaluation.metrics.profitFactor,
      -(r.evaluation.metrics.tradesCount as real), r.candidateId as real]
  }

  function Ranked(results: seq<CandidateResult>): seq<CandidateResult> {
    StableSort(results, ByKey(RankKey()))
  }

  /** The ranked results, numbered from one. */
  function RankResults(results: seq<CandidateResult>): (r: seq<CandidateResult>)
    ensures |r| == |Ranked(results)|
    ensures forall k | 0 <= k < |r| :: r[k] == Ranked(results)[k].(rank := k + 1)
  {
    var ranked := Ranked(results);
    seq(|ranked|, k requires 0 <= k < |ranked| => ranked[k].(rank := k + 1))
  }

  lemma RankedFirst(results: seq<CandidateResult>)
    ensures |Ranked(results)| == |results|
    ensures forall r :: r in Ranked(results) <==> r in results
    ensures |results| > 0 ==> forall r | r in results :: LexLe(RankKey()(Ranked(results)[0]), RankKey()(r))
  {
    hide StableSort;
    var ranked := Ranked(results);
    ByKeyOrders(RankKey());
    SortIsSortedPermutation(results, ByKey(RankKey()));
    assert |multiset(results)| == |multiset(ranked)|;
    forall r ensures r in ranked <==> r in results {
      assert r in ranked <==> r in multiset(ranked);
      assert r in results <==> r in multiset(results);
    }
    forall r | r in results && |results| > 0 ensures LexLe(RankKey()(ranked[0]), RankKey()(r)) {
      var k :| 0 <= k < |ranked| && ranked[k] == r;
      if k > 0 {
        assert ByKey(RankKey())(ranked[0], ranked[k]);
      } else {
        LexTotal(RankKey()(r), RankKey()(r));
      }
    }
  }

  /** Which of two results deserves the earlier place: a pass before a failure, a sturdy one before a fragile one,
      then the higher expectancy, the lower drawdown, the higher profit factor, the more trades, and at last the
      smaller identifier. */
  predicate DeservesFirst(a: CandidateResult, b: CandidateResult) {
    var x, y := a.evaluation.metrics, b.evaluation.metrics;
    if a.report.passed != b.report.passed then a.report.passed
    else if a.report.fragile != b.report.fragile then b.report.fragile
    else if x.expectancyR != y.expectancyR then x.expectancyR > y.expectancyR
    else if x.maxDrawdownPct != y.maxDrawdownPct then x.maxDrawdownPct < y.maxDrawdownPct
    else if x.profitFactor != y.profitFactor then x.profitFactor > y.profitFactor
    else if x.tradesCount != y.tradesCount then x.tradesCount > y.tradesCount
    else a.candidateId <= b.candidateId
  }

  lemma KeyTellsPlace(a: CandidateResult, b: CandidateResult)
    ensures LexLe(RankKey()(a), RankKey()(b)) <==> DeservesFirst(a, b)
  {
    var x, y := RankKey()(a), RankKey()(b);
    LexLeAt(x, y, 0);
    LexLeAt(x, y, 1);
    LexLeAt(x, y, 2);
    LexLeAt(x, y, 3);
    LexLeAt(x, y, 4);
    LexLeAt(x, y, 5);
    LexLeAt(x, y, 6);
    assert x[0..] == x && y[0..] == y;
    assert LexLe(x[7..], y[7..]);
    hide LexLe;
  }

  /** Every result of the ranking deserves its place before every later one. */
  lemma RankedByMetrics(results: seq<CandidateResult>)
    ensures |Ranked(results)| == |results| && multiset(Ranked(results)) == multiset(results)
    ensures forall i, j | 0 <= i < j < |results| :: DeservesFirst(Ranked(results)[i], Ranked(results)[j])
  {
    hide StableSort, RankKey, DeservesFirst, LexLe;
    var ranked := Ranked(results);
    ByKeyOrders(RankKey());
    SortIsSortedPermutation(results, ByKey(RankKey()));
    assert |multiset(results)| == |multiset(ranked)|;
    forall i, j | 0 <= i < j < |results| ensures DeservesFirst(ranked[i], ranked[j]) {
      assert ByKey(RankKey())(ranked[i], ranked[j]);
      KeyTellsPlace(ranked[i], ranked[j]);
    }
  }

  lemma PassedRanksFirst(a: CandidateResult, b: CandidateResult)
    requires LexLe(RankKey()(a), RankKey()(b)) && b.report.passed
    ensures a.report.passed
  {
  }

  // ---------------------------------------------------------------- the loop

  /** What the loop records about a candidate it evaluated. */
  ghost predicate Records(r: CandidateResult, c: Candidate, p: Protocol) {
    && r.candidateId == c.evaluation.trialId
    && r.evaluation == c.evaluation
    && r.report.passed == Verdict(c.windows, p)
    && r.report.fragile == Fragile(c.windows, p)
    && (r.blockingRisks == [] <==> Verdict(c.windows, p))
    && r.rank == 0
  }

  /** How many candidates are evaluated before a trial or a walk-forward cannot be saved. */
  function Evaluable(n: nat, store: Store): (k: nat)
    ensures k <= n
  {
    if n == 0 then 0
    else
      var before := Evaluable(n - 1, store);
      if before == n - 1 && store.saveTrial(n - 1) && store.saveWalkforward(n - 1) then n else before
  }

  /** A verdict of pass leaves no risk, and no pass leaves one: the reasons never name a risk by themselves. */
  method Assess(c: Candidate, p: Protocol) returns (r: CandidateResult)
    ensures Records(r, c, p)
  {
    hide Verdict, Fragile, Harmless;
    var report := RunWalkforward(c.windows, p);
    var risks := BlockingRisks(report);
    forall reason | reason in report.reasons ensures !BlocksPromotion(reason) {
      HarmlessDoesNotBlock(reason);
    }
    RulesAreOrdered(c.windows, p, p.requiresMedian);
    if report.passed {
      assert forall reason :: reason !in risks;
      EmptyOrHasMember(risks);
    } else {
      assert NOT_PASSED in risks;
    }
    r := CandidateResult(c.evaluation.trialId, c.evaluation, report, risks, 0);
  }

  lemma EmptyOrHasMember(s: seq<string>)
    ensures s == [] || exists x :: x in s
  {
    if s != [] {
      assert s[0] in s;
    }
  }

  lemma HarmlessDoesNotBlock(reason: string)
    requires Harmless(reason)
    ensures !BlocksPromotion(reason)
  {
    assert NOT_PASSED[0] == 'w' && NOT_PASSED[1] == 'a' && FRAGILE[0] == 'w' && FRAGILE[1] == 'a';
  }

  method EvaluateCandidates(candidates: seq<Candidate>, p: Protocol, store: Store)
    returns (results: seq<CandidateResult>, stopped: bool)
    ensures |results| == Evaluable(|candidates|, store)
    ensures stopped <==> |results| < |candidates|
    ensures forall k | 0 <= k < |results| :: Records(results[k], candidates[k], p)
  {
    hide Records;
    results, stopped := [], false;
    for i := 0 to |candidates|
      invariant |results| == i == Evaluable(i, store)
      invariant forall k | 0 <= k < i :: Records(results[k], candidates[k], p)
    {
      if !store.saveTrial(i) {
        StopsThere(i, |candidates|, store);
        return results, true;
      }
      var r := Assess(candidates[i], p);
      if !store.saveWalkforward(i) {
        StopsThere(i, |candidates|, store);
        return results, true;
      }
      results := results + [r];
    }
  }

  lemma {:induction false} StopsThere(i: nat, n: nat, store: Store)
    requires i < n && Evaluable(i, store) == i && !(store.saveTrial(i) && store.saveWalkforward(i))
    ensures Evaluable(n, store) == i
  {
    if i < n - 1 {
      StopsThere(i, n - 1, store);
    }
  }

  /** Every write succeeds that the loop gets to make. */
  ghost predicate StaysWritable(n: nat, store: Store) {
    && (forall k | 0 <= k < n :: store.saveTrial(k) && store.saveWalkforward(k))
    && (forall k | 0 <= k < n :: store.saveRecommendation(k))
  }

  method SaveRecommendations(n: nat, store: Store) returns (ok: bool)
    ensures ok <==> forall k | 0 <= k < n :: store.saveRecommendation(k)
  {
    for k := 0 to n
      invariant forall j | 0 <= j < k :: store.saveRecommendation(j)
    {
      if !store.saveRecommendation(k) {
        return false;
      }
    }
    return true;
  }

  /** Best among the results: it passed, and none of them deserves a place before it. */
  ghost predicate BestPassing(id: int, results: seq<CandidateResult>) {
    exists best | best in results ::
      best.candidateId == id && best.report.passed && forall r | r in results :: DeservesFirst(best, r)
  }

  /** What that says of the metrics, when a pass is never fragile: no passing result has a higher expectancy, none
      of that expectancy a lower drawdown, none equal in both a higher profit factor, none equal in all three more
      trades, and none equal in all four a smaller identifier. */
  lemma BestHasBestMetrics(id: int, results: seq<CandidateResult>)
    requires BestPassing(id, results) && forall r | r in results && r.report.passed :: !r.report.fragile
    ensures exists best | best in results :: best.candidateId == id && best.report.passed && forall r |
              r in results && r.report.passed ::
                var x, y := best.evaluation.metrics, r.evaluation.metrics;
                var alike := y.expectancyR == x.expectancyR;
                var alike2 := alike && y.maxDrawdownPct == x.maxDrawdownPct;
                var alike3 := alike2 && y.profitFactor == x.profitFactor;
                && y.expectancyR <= x.expectancyR
                && (alike ==> y.maxDrawdownPct >= x.maxDrawdownPct)
                && (alike2 ==> y.profitFactor <= x.profitFactor)
                && (alike3 ==> y.tradesCount <= x.tradesCount)
                && (alike3 && y.tradesCount == x.tradesCount ==> id <= r.candidateId)
  {
    var best :| best in results && best.candidateId == id && best.report.passed
      && forall r | r in results :: DeservesFirst(best, r);
    forall r | r in results && r.report.passed ensures DeservesFirst(best, r) {
    }
  }

  method RunAutoresearchLoop(candidates: seq<Candidate>, p: Protocol, maxCandidates: int, store: Store)
    returns (report: LoopReport, ghost evaluated: seq<CandidateResult>)
    ensures |evaluated| == Evaluable(|candidates|, store)
    ensures forall k | 0 <= k < |evaluated| :: Records(evaluated[k], candidates[k], p)
    ensures report.results == RankResults(evaluated)
    ensures report.stopReason.StoreNotWritable? <==> !StaysWritable(|candidates|, store)
    ensures report.stopReason.StoreNotWritable? ==> report.bundle.None?
    ensures !report.stopReason.StoreNotWritable? ==>
              (report.bundle.Some? <==> exists c | c in candidates :: Verdict(c.windows, p))
    ensures report.bundle.Some? ==> BestPassing(report.bundle.value, evaluated)
    ensures report.stopReason.MaxCandidatesReached? ==> |candidates| >= maxCandidates
    ensures report.stopReason.Completed? ==> |candidates| < maxCandidates
  {
    hide Verdict, Fragile, Ranked, LexLe, RankKey, DeservesFirst;
    var results, stopped := EvaluateCandidates(candidates, p, store);
    evaluated := results;
    RankedFirst(results);
    var ranked := RankResults(results);
    EvaluableMeaning(|candidates|, store);
    if stopped {
      return LoopReport(StoreNotWritable, ranked, None), results;
    }
    var saved := SaveRecommendations(|ranked|, store);
    if !saved {
      return LoopReport(StoreNotWritable, ranked, None), results;
    }
    var bundle := None;
    if |ranked| > 0 && ranked[0].blockingRisks == [] {
      bundle := Some(ranked[0].candidateId);
    }
    BundleNamesBest(candidates, results, p);
    report := LoopReport(if |candidates| >= maxCandidates then MaxCandidatesReached else Completed, ranked, bundle);
  }

  lemma {:induction false} EvaluableMeaning(n: nat, store: Store)
    ensures Evaluable(n, store) == n <==> forall k | 0 <= k < n :: store.saveTrial(k) && store.saveWalkforward(k)
  {
    if n > 0 {
      EvaluableMeaning(n - 1, store);
    }
  }

  /** The top of the ranking has no blocking risk just when some candidate's verdict is a pass. */
  lemma BundleNamesBest(candidates: seq<Candidate>, results: seq<CandidateResult>, p: Protocol)
    requires |results| == |candidates| && forall k | 0 <= k < |results| :: Records(results[k], candidates[k], p)
    ensures (|results| > 0 && |Ranked(results)| > 0 && Ranked(results)[0].blockingRisks == [])
        <==> exists c | c in candidates :: Verdict(c.windows, p)
    ensures |results| > 0 && |Ranked(results)| > 0 && Ranked(results)[0].blockingRisks == []
        ==> BestPassing(Ranked(results)[0].candidateId, results)
  {
    hide Verdict, Fragile, Ranked, LexLe, RankKey, DeservesFirst;
    RankedFirst(results);
    forall r | r in results && |results| > 0
      ensures LexLe(RankKey()(Ranked(results)[0]), RankKey()(r)) <==> DeservesFirst(Ranked(results)[0], r)
    {
      KeyTellsPlace(Ranked(results)[0], r);
    }
    if |results| > 0 {
      var top := Ranked(results)[0];
      assert top in results;
      var t :| 0 <= t < |results| && results[t] == top;
      assert Records(results[t], candidates[t], p);
      if c :| c in candidates && Verdict(c.windows, p) {
        var k :| 0 <= k < |candidates| && candidates[k] == c;
        assert Records(results[k], candidates[k], p);
        PassedRanksFirst(top, results[k]);
      }
    }
  }
}
