/** The Pareto frontier of evaluated trials (research_lab/pareto.py). */
module Pareto {
  import opened Prelude
  import opened Sorting

  datatype ObjectiveMetrics = ObjectiveMetrics(
    expectancyR: real,
    profitFactor: real,
    maxDrawdownPct: real,
    tradesCount: int,
    sharpeRatio: real,
    pnlAbs: real)

  datatype TrialEvaluation = TrialEvaluation(trialId: int, metrics: ObjectiveMetrics, rejectedReason: Option<string>)

  predicate Dominates(left: TrialEvaluation, right: TrialEvaluation) {
    && left.metrics.expectancyR >= right.metrics.expectancyR
    && left.metrics.profitFactor >= right.metrics.profitFactor
    && left.metrics.maxDrawdownPct <= right.metrics.maxDrawdownPct
    && (|| left.metrics.expectancyR > right.metrics.expectancyR
        || left.metrics.profitFactor > right.metrics.profitFactor
        || left.metrics.maxDrawdownPct < right.metrics.maxDrawdownPct)
  }

  predicate Dominated(trial: TrialEvaluation, among: seq<TrialEvaluation>) {
    exists other | other in among :: Dominates(other, trial)
  }

  function Accepted(trials: seq<TrialEvaluation>): seq<TrialEvaluation> {
    if |trials| == 0 then []
    else
      var last := trials[|trials| - 1];
      Accepted(trials[..|trials| - 1]) + (if last.rejectedReason.None? then [last] else [])
  }

  /** The members of `trials`, in order, that nothing in `among` dominates. */
  function Undominated(trials: seq<TrialEvaluation>, among: seq<TrialEvaluation>): seq<TrialEvaluation> {
    if |trials| == 0 then []
    else
      var last := trials[|trials| - 1];
      Undominated(trials[..|trials| - 1], among) + (if Dominated(last, among) then [] else [last])
  }

  function Frontier(trials: seq<TrialEvaluation>): seq<TrialEvaluation> {
    Undominated(Accepted(trials), Accepted(trials))
  }

  method ComputeParetoFrontier(trials: seq<TrialEvaluation>) returns (frontier: seq<TrialEvaluation>)
    ensures frontier == Frontier(trials)
  {
    var accepted := Accepted(trials);
    frontier := [];
    for i := 0 to |accepted|
      invariant frontier == Undominated(accepted[..i], accepted)
    {
      assert accepted[..i + 1][..i] == accepted[..i];
      var candidate := accepted[i];
      var dominated := false;
      for j := 0 to |accepted|
        invariant dominated ==> Dominated(candidate, accepted)
        invariant !dominated ==> forall k | 0 <= k < j :: !Dominates(accepted[k], candidate)
      {
        if j == i {
          continue;
        }
        if Dominates(accepted[j], candidate) {
          dominated := true;
          break;
        }
      }
      if !dominated {
        frontier := frontier + [candidate];
      }
    }
    assert accepted[..|accepted|] == accepted;
  }

  // ---------------------------------------------------------------- what the frontier means

  lemma {:induction false} AcceptedMembers(trials: seq<TrialEvaluation>, t: TrialEvaluation)
    ensures t in Accepted(trials) <==> t in trials && t.rejectedReason.None?
  {
    if |trials| > 0 {
      AcceptedMembers(trials[..|trials| - 1], t);
    }
  }

  lemma {:induction false} UndominatedMembers(trials: seq<TrialEvaluation>, among: seq<TrialEvaluation>,
                                              t: TrialEvaluation)
    ensures t in Undominated(trials, among) <==> t in trials && !Dominated(t, among)
  {
    if |trials| > 0 {
      UndominatedMembers(trials[..|trials| - 1], among, t);
    }
  }

  /** Positions of the trials that dominate `trial`. */
  ghost function Above(trial: TrialEvaluation, among: seq<TrialEvaluation>): set<int> {
    set k | 0 <= k < |among| && Dominates(among[k], trial)
  }

  /** Climbing from a dominated trial to one that dominates it ends, and it ends at the frontier. */
  lemma {:induction false} DominatedByUndominated(trial: TrialEvaluation, among: seq<TrialEvaluation>)
    requires Dominated(trial, among)
    ensures exists other | other in among :: Dominates(other, trial) && !Dominated(other, among)
    decreases |Above(trial, among)|
  {
    var other :| other in among && Dominates(other, trial);
    if Dominated(other, among) {
      var k :| 0 <= k < |among| && among[k] == other;
      assert k in Above(trial, among) && k !in Above(other, among);
      assert Above(other, among) < Above(trial, among);
      SmallerSet(Above(other, among), Above(trial, among));
      DominatedByUndominated(other, among);
    }
  }

  lemma {:induction false} SmallerSet<T>(a: set<T>, b: set<T>)
    requires a < b
    ensures |a| < |b|
  {
    var x :| x in b && x !in a;
    assert a <= b - {x};
    SubsetCard(a, b - {x});
  }

  lemma {:induction false} SubsetCard<T>(a: set<T>, b: set<T>)
    requires a <= b
    ensures |a| <= |b|
  {
    if a != {} {
      var x :| x in a;
      SubsetCard(a - {x}, b - {x});
    }
  }

  /** The frontier is complete: every accepted trial left out is dominated by a member; no member is dominated by any
      accepted trial. */
  lemma FrontierIsComplete(trials: seq<TrialEvaluation>)
    ensures forall t | t in trials && t.rejectedReason.None? && t !in Frontier(trials) :: Dominated(t, Frontier(trials))
    ensures forall t | t in Frontier(trials) :: t in trials && t.rejectedReason.None? && !Dominated(t, Accepted(trials))
  {
    hide Accepted, Undominated, Dominated;
    var accepted := Accepted(trials);
    forall t | t in trials && t.rejectedReason.None? && t !in Frontier(trials) ensures Dominated(t, Frontier(trials)) {
      AcceptedMembers(trials, t);
      UndominatedMembers(accepted, accepted, t);
      LeftOutIsDominated(accepted, t);
    }
    forall t | t in Frontier(trials) ensures t in trials && t.rejectedReason.None? && !Dominated(t, accepted) {
      UndominatedMembers(accepted, accepted, t);
      AcceptedMembers(trials, t);
    }
  }

  lemma LeftOutIsDominated(accepted: seq<TrialEvaluation>, t: TrialEvaluation)
    requires Dominated(t, accepted)
    ensures Dominated(t, Undominated(accepted, accepted))
  {
    hide Undominated;
    DominatedByUndominated(t, accepted);
    var other :| other in accepted && Dominates(other, t) && !Dominated(other, accepted);
    UndominatedMembers(accepted, accepted, other);
  }

  /** The positions, increasing, at which `sub` is read off `whole`. */
  ghost predicate ReadsOff(sub: seq<TrialEvaluation>, whole: seq<TrialEvaluation>, at: seq<nat>) {
    && |at| == |sub|
    && (forall k | 0 <= k < |at| :: at[k] < |whole| && whole[at[k]] == sub[k])
    && (forall i, j | 0 <= i < j < |at| :: at[i] < at[j])
  }

  lemma ReadOffMore(sub: seq<TrialEvaluation>, whole: seq<TrialEvaluation>, at: seq<nat>)
    requires |whole| > 0 && ReadsOff(sub, whole[..|whole| - 1], at)
    ensures ReadsOff(sub, whole, at)
    ensures ReadsOff(sub + [whole[|whole| - 1]], whole, at + [|whole| - 1])
  {
    assert forall k | 0 <= k < |at| :: whole[at[k]] == whole[..|whole| - 1][at[k]];
  }

  lemma {:induction false} AcceptedKeepsOrder(trials: seq<TrialEvaluation>) returns (at: seq<nat>)
    ensures ReadsOff(Accepted(trials), trials, at)
  {
    hide ReadsOff;
    if |trials| == 0 {
      at := NothingReadOff();
    } else {
      var init := Accepted(trials[..|trials| - 1]);
      at := AcceptedKeepsOrder(trials[..|trials| - 1]);
      ReadOffMore(init, trials, at);
      assert init + [] == init;
      if trials[|trials| - 1].rejectedReason.None? {
        at := at + [|trials| - 1];
      }
    }
  }

  lemma NothingReadOff() returns (at: seq<nat>)
    ensures ReadsOff([], [], at)
  {
    at := [];
  }

  lemma {:induction false} UndominatedKeepsOrder(trials: seq<TrialEvaluation>, among: seq<TrialEvaluation>)
    returns (at: seq<nat>)
    ensures ReadsOff(Undominated(trials, among), trials, at)
  {
    hide ReadsOff, Dominated;
    if |trials| == 0 {
      at := NothingReadOff();
    } else {
      var init := Undominated(trials[..|trials| - 1], among);
      at := UndominatedKeepsOrder(trials[..|trials| - 1], among);
      ReadOffMore(init, trials, at);
      assert init + [] == init;
      if !Dominated(trials[|trials| - 1], among) {
        at := at + [|trials| - 1];
      }
    }
  }

  /** Members stand in the order of the input, each trial at most as often as it was given. */
  lemma FrontierKeepsOrder(trials: seq<TrialEvaluation>) returns (at: seq<nat>)
    ensures ReadsOff(Frontier(trials), trials, at)
  {
    var outer := AcceptedKeepsOrder(trials);
    var inner := UndominatedKeepsOrder(Accepted(trials), Accepted(trials));
    at := seq(|inner|, k requires 0 <= k < |inner| => outer[inner[k]]);
  }

  lemma {:induction false} AcceptedOfAccepted(trials: seq<TrialEvaluation>)
    requires forall t | t in trials :: t.rejectedReason.None?
    ensures Accepted(trials) == trials
  {
    if |trials| > 0 {
      AcceptedOfAccepted(trials[..|trials| - 1]);
    }
  }

  lemma {:induction false} UndominatedStays(trials: seq<TrialEvaluation>, among: seq<TrialEvaluation>)
    requires forall t | t in trials :: !Dominated(t, among)
    ensures Undominated(trials, among) == trials
  {
    hide Dominated;
    if |trials| > 0 {
      var n := |trials| - 1;
      assert trials == trials[..n] + [trials[n]] && trials[n] in trials;
      UndominatedStays(trials[..n], among);
    }
  }

  /** Computing the frontier of a frontier changes nothing. */
  lemma FrontierIsIdempotent(trials: seq<TrialEvaluation>)
    ensures Frontier(Frontier(trials)) == Frontier(trials)
  {
    hide Accepted, Undominated;
    var frontier := Frontier(trials);
    FrontierIsComplete(trials);
    AcceptedOfAccepted(frontier);
    forall t | t in frontier ensures !Dominated(t, frontier) {
      if other :| other in frontier && Dominates(other, t) {
        AcceptedMembers(trials, other);
      }
    }
    UndominatedStays(frontier, frontier);
  }

  // ---------------------------------------------------------------- ranking

  function ParetoKey(): TrialEvaluation -> seq<real> {
    (t: TrialEvaluation) => [
      -t.metrics.expectancyR, -t.metrics.profitFactor, t.metrics.maxDrawdownPct,
      -(t.metrics.tradesCount as real), t.trialId as real]
  }

  function RankParetoCandidates(frontier: seq<TrialEvaluation>): seq<TrialEvaluation> {
    StableSort(frontier, ByKey(ParetoKey()))
  }

  /** Ranking only reorders, and a trial that dominates another always comes before it. */
  lemma RankingRespectsDominance(trials: seq<TrialEvaluation>)
    ensures multiset(RankParetoCandidates(trials)) == multiset(trials)
    ensures forall i, j | 0 <= i < |trials| == |RankParetoCandidates(trials)| && 0 <= j < |trials|
                          && Dominates(RankParetoCandidates(trials)[i], RankParetoCandidates(trials)[j]) :: i < j
  {
    hide StableSort;
    ByKeyOrders(ParetoKey());
    SortIsSortedPermutation(trials, ByKey(ParetoKey()));
    var ranked := RankParetoCandidates(trials);
    forall i, j | 0 <= i < |ranked| && 0 <= j < |ranked| && Dominates(ranked[i], ranked[j]) ensures i < j {
      SortedBefore(ranked, i, j);
      DominatingRanksFirst(ranked[i], ranked[j]);
    }
  }

  /** Which of two trials stands first: the one of higher expectancy, then of higher profit factor, lower drawdown,
      more trades, and smaller identifier. */
  predicate NoLater(a: TrialEvaluation, b: TrialEvaluation) {
    var x, y := a.metrics, b.metrics;
    if x.expectancyR != y.expectancyR then x.expectancyR > y.expectancyR
    else if x.profitFactor != y.profitFactor then x.profitFactor > y.profitFactor
    else if x.maxDrawdownPct != y.maxDrawdownPct then x.maxDrawdownPct < y.maxDrawdownPct
    else if x.tradesCount != y.tradesCount then x.tradesCount > y.tradesCount
    else a.trialId <= b.trialId
  }

  lemma KeyTellsPlace(a: TrialEvaluation, b: TrialEvaluation)
    ensures LexLe(ParetoKey()(a), ParetoKey()(b)) <==> NoLater(a, b)
  {
    var x, y := ParetoKey()(a), ParetoKey()(b);
    LexLeAt(x, y, 0);
    LexLeAt(x, y, 1);
    LexLeAt(x, y, 2);
    LexLeAt(x, y, 3);
    LexLeAt(x, y, 4);
    assert x[0..] == x && y[0..] == y;
    assert LexLe(x[5..], y[5..]);
    hide LexLe;
  }

  /** Every trial of the ranking belongs before every later one. */
  lemma RankedByMetrics(trials: seq<TrialEvaluation>)
    ensures |RankParetoCandidates(trials)| == |trials|
    ensures forall i, j | 0 <= i < j < |trials| ::
              NoLater(RankParetoCandidates(trials)[i], RankParetoCandidates(trials)[j])
  {
    hide StableSort, ParetoKey, NoLater, LexLe;
    var ranked := RankParetoCandidates(trials);
    ByKeyOrders(ParetoKey());
    SortIsSortedPermutation(trials, ByKey(ParetoKey()));
    assert |multiset(trials)| == |multiset(ranked)|;
    forall i, j | 0 <= i < j < |trials| ensures NoLater(ranked[i], ranked[j]) {
      assert ByKey(ParetoKey())(ranked[i], ranked[j]);
      KeyTellsPlace(ranked[i], ranked[j]);
    }
  }

  lemma SortedBefore(ranked: seq<TrialEvaluation>, i: nat, j: nat)
    requires i < |ranked| && j < |ranked| && SortedBy(ranked, ByKey(ParetoKey()))
    ensures j <= i ==> LexLe(ParetoKey()(ranked[j]), ParetoKey()(ranked[i]))
  {
    LexTotal(ParetoKey()(ranked[j]), ParetoKey()(ranked[i]));
    assert j < i ==> ByKey(ParetoKey())(ranked[j], ranked[i]);
  }

  lemma DominatingRanksFirst(a: TrialEvaluation, b: TrialEvaluation)
    requires Dominates(a, b)
    ensures !LexLe(ParetoKey()(b), ParetoKey()(a))
  {
    var x, y := ParetoKey()(b), ParetoKey()(a);
    if x[0] == y[0] && x[1] == y[1] {
      assert x[1..][0] == x[1] && y[1..][0] == y[1];
      assert x[1..][1..][0] == x[2] && y[1..][1..][0] == y[2];
      assert !LexLe(x[1..][1..], y[1..][1..]);
    } else if x[0] == y[0] {
      assert x[1..][0] == x[1] && y[1..][0] == y[1];
    }
  }

  /** One trial dominates another when it is worse in nothing and better in something. */
  lemma DominatesInPlainTerms(a: TrialEvaluation, b: TrialEvaluation)
    ensures var x, y := a.metrics, b.metrics;
            var worse := x.expectancyR < y.expectancyR || x.profitFactor < y.profitFactor
                         || x.maxDrawdownPct > y.maxDrawdownPct;
            var better := y.expectancyR < x.expectancyR || y.profitFactor < x.profitFactor
                          || y.maxDrawdownPct > x.maxDrawdownPct;
            Dominates(a, b) <==> better && !worse
  {
  }
}
