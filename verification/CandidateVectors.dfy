/**
 Generating the parameter vectors to try next (research_lab/autoresearch_loop.py). A vector stands for
 its canonical text, by which vectors are compared; the random draws are inputs.
 */
module CandidateVectors {
  import opened Prelude
  import opened Sorting
  import opened Dedupe
  import opened Pareto

  type Vector = int

  /** What the seeded random generator makes of a historical vector, and on its own, at an attempt. */
  datatype Sampler = Sampler(mutate: (Vector, nat) -> Vector, random: nat -> Vector)

  function Itself(): Vector -> int {
    (v: Vector) => v
  }

  /** Most recently recommended first, then by the metrics and the identifier. */
  function HistoryKey(priority: map<int, nat>): TrialEvaluation -> seq<real> {
    (t: TrialEvaluation) => [
      if t.trialId in priority then priority[t.trialId] as real else 1000000000.0,
      -t.metrics.expectancyR, -t.metrics.profitFactor, t.metrics.maxDrawdownPct,
      -(t.metrics.tradesCount as real), t.trialId as real]
  }

  function HistoryVectors(trials: seq<TrialEvaluation>, priority: map<int, nat>,
                          vectorOf: TrialEvaluation -> Vector): seq<Vector> {
    var ordered := StableSort(Accepted(trials), ByKey(HistoryKey(priority)));
    seq(|ordered|, k requires 0 <= k < |ordered| => vectorOf(ordered[k]))
  }

  /** The vector drawn at an attempt, counted from one: history is mutated in turn, as long as there is any. */
  function Draw(history: seq<Vector>, sampler: Sampler, maxAttempts: nat, attempt: nat): Vector
    requires attempt > 0
  {
    if attempt <= maxAttempts && |history| > 0 then sampler.mutate(history[(attempt - 1) % |history|], attempt)
    else sampler.random(attempt)
  }

  function Draws(history: seq<Vector>, sampler: Sampler, maxAttempts: nat, n: nat): seq<Vector> {
    if n == 0 then [] else Draws(history, sampler, maxAttempts, n - 1) + [Draw(history, sampler, maxAttempts, n)]
  }

  /** The draws that are neither historical nor drawn before. */
  function NewDraws(history: seq<Vector>, sampler: Sampler, maxAttempts: nat, n: nat): seq<Vector> {
    Deduped(Draws(history, sampler, maxAttempts, n), Itself(), Keys(history, Itself()))
  }

  method CollectHistory(vectors: seq<Vector>) returns (history: seq<Vector>, keys: set<Vector>)
    ensures history == Deduped(vectors, Itself(), {})
    ensures keys == Keys(vectors, Itself())
  {
    history, keys := [], {};
    for i := 0 to |vectors|
      invariant history == Deduped(vectors[..i], Itself(), {})
      invariant keys == Keys(vectors[..i], Itself())
    {
      assert vectors[..i + 1][..i] == vectors[..i];
      if vectors[i] in keys {
        continue;
      }
      history := history + [vectors[i]];
      keys := keys + {vectors[i]};
    }
    assert vectors[..|vectors|] == vectors;
  }

  method GenerateCandidateVectors(seeds: seq<Vector>, trials: seq<TrialEvaluation>, priority: map<int, nat>,
                                  vectorOf: TrialEvaluation -> Vector, sampler: Sampler, maxCandidates: nat)
    returns (generated: seq<Vector>, history: seq<Vector>, attempts: nat)
    ensures history == Deduped(seeds + HistoryVectors(trials, priority, vectorOf), Itself(), {})
    ensures generated == NewDraws(history, sampler, MaxInt(maxCandidates * 25, 100), attempts)
    ensures |generated| <= maxCandidates && attempts <= 2 * MaxInt(maxCandidates * 25, 100)
    ensures |generated| < maxCandidates ==> attempts == 2 * MaxInt(maxCandidates * 25, 100)
  {
    hide Deduped, Keys, HistoryVectors;
    var historicalKeys;
    history, historicalKeys := CollectHistory(seeds + HistoryVectors(trials, priority, vectorOf));
    SameKeys(seeds + HistoryVectors(trials, priority, vectorOf));
    var maxAttempts: nat := MaxInt(maxCandidates * 25, 100);
    var generatedKeys: set<Vector> := {};
    generated, attempts := [], 0;
    NothingDrawn(history, sampler, maxAttempts);
    while |generated| < maxCandidates && attempts < maxAttempts
      invariant attempts <= maxAttempts && |generated| <= maxCandidates
      invariant generated == NewDraws(history, sampler, maxAttempts, attempts)
      invariant generatedKeys == Keys(generated, Itself())
      decreases maxAttempts - attempts
    {
      attempts := attempts + 1;
      var candidate :=
        if |history| > 0 then sampler.mutate(history[(attempts - 1) % |history|], attempts)
        else sampler.random(attempts);
      OneMoreDraw(history, sampler, maxAttempts, attempts);
      if candidate in historicalKeys || candidate in generatedKeys {
        continue;
      }
      KeysSnoc(generated, candidate);
      generated := generated + [candidate];
      generatedKeys := generatedKeys + {candidate};
    }
    while |generated| < maxCandidates && attempts < maxAttempts * 2
      invariant maxAttempts <= attempts || |generated| == maxCandidates
      invariant attempts <= maxAttempts * 2 && |generated| <= maxCandidates
      invariant generated == NewDraws(history, sampler, maxAttempts, attempts)
      invariant generatedKeys == Keys(generated, Itself())
      decreases maxAttempts * 2 - attempts
    {
      attempts := attempts + 1;
      var candidate := sampler.random(attempts);
      OneMoreDraw(history, sampler, maxAttempts, attempts);
      if candidate in historicalKeys || candidate in generatedKeys {
        continue;
      }
      KeysSnoc(generated, candidate);
      generated := generated + [candidate];
      generatedKeys := generatedKeys + {candidate};
    }
  }

  lemma NothingDrawn(history: seq<Vector>, sampler: Sampler, maxAttempts: nat)
    ensures NewDraws(history, sampler, maxAttempts, 0) == [] && Keys<Vector>([], Itself()) == {}
  {
  }

  lemma KeysSnoc(s: seq<Vector>, v: Vector)
    ensures Keys(s + [v], Itself()) == Keys(s, Itself()) + {v}
  {
    assert (s + [v])[..|s|] == s;
  }

  /** Dropping repeats loses no key. */
  lemma SameKeys(s: seq<Vector>)
    ensures Keys(Deduped(s, Itself(), {}), Itself()) == Keys(s, Itself())
  {
    AllKeysKept(s, {});
    assert Keys(s, Itself()) - {} == Keys(s, Itself());
  }

  lemma {:induction false} AllKeysKept(s: seq<Vector>, seen: set<Vector>)
    ensures Keys(Deduped(s, Itself(), seen), Itself()) == Keys(s, Itself()) - seen
  {
    if |s| > 0 {
      var init, last := s[..|s| - 1], s[|s| - 1];
      AllKeysKept(init, seen);
      KeysSnoc(Deduped(init, Itself(), seen), last);
      assert Deduped(init, Itself(), seen) + [] == Deduped(init, Itself(), seen);
    }
  }

  lemma OneMoreDraw(history: seq<Vector>, sampler: Sampler, maxAttempts: nat, n: nat)
    requires n > 0
    ensures NewDraws(history, sampler, maxAttempts, n)
         == NewDraws(history, sampler, maxAttempts, n - 1)
            + if || Draw(history, sampler, maxAttempts, n) in Keys(history, Itself())
                 || Draw(history, sampler, maxAttempts, n)
                    in Keys(NewDraws(history, sampler, maxAttempts, n - 1), Itself())
              then [] else [Draw(history, sampler, maxAttempts, n)]
  {
    hide Keys, Draw;
    var draws := Draws(history, sampler, maxAttempts, n - 1);
    var seen, v := Keys(history, Itself()), Draw(history, sampler, maxAttempts, n);
    AllKeysKept(draws, seen);
    assert (draws + [v])[..n - 1] == draws by {
      DrawsCount(history, sampler, maxAttempts, n - 1);
    }
    DrawsCount(history, sampler, maxAttempts, n - 1);
  }

  lemma {:induction false} DrawsCount(history: seq<Vector>, sampler: Sampler, maxAttempts: nat, n: nat)
    ensures |Draws(history, sampler, maxAttempts, n)| == n
  {
    if n > 0 {
      DrawsCount(history, sampler, maxAttempts, n - 1);
    }
  }

  /** The vectors generated are pairwise different and none is historical; a vector drawn and not
      generated is historical, so falling short means every draw was a repeat or history. */
  lemma GeneratedAreNew(history: seq<Vector>, sampler: Sampler, maxAttempts: nat, n: nat)
    ensures var g := NewDraws(history, sampler, maxAttempts, n);
            && (forall i, j | 0 <= i < j < |g| :: g[i] != g[j])
            && (forall v :: v in g <==> v in Draws(history, sampler, maxAttempts, n) && v !in history)
  {
    hide Keys, Deduped;
    var draws, g := Draws(history, sampler, maxAttempts, n), NewDraws(history, sampler, maxAttempts, n);
    AllKeysKept(draws, Keys(history, Itself()));
    forall v ensures v in g <==> v in draws && v !in history {
      InKeys(g, v);
      InKeys(draws, v);
      InKeys(history, v);
    }
    NoTwice(draws, Keys(history, Itself()));
  }

  lemma InKeys(s: seq<Vector>, v: Vector)
    ensures v in Keys(s, Itself()) <==> v in s
  {
    KeysMeaning(s, Itself(), v);
  }

  lemma {:induction false} NoTwice(s: seq<Vector>, seen: set<Vector>)
    ensures var d := Deduped(s, Itself(), seen); forall i, j | 0 <= i < j < |d| :: d[i] != d[j]
  {
    if |s| > 0 {
      var init, last := s[..|s| - 1], s[|s| - 1];
      NoTwice(init, seen);
      AllKeysKept(init, seen);
      InKeys(Deduped(init, Itself(), seen), last);
    }
  }

  /** Which trial history takes first: the one recommended earlier in the list, any recommended one before the others,
      then by expectancy, profit factor, drawdown, number of trades and identifier. */
  predicate TakenFirst(priority: map<int, nat>, a: TrialEvaluation, b: TrialEvaluation) {
    var m, n := PlaceOf(priority, a.trialId), PlaceOf(priority, b.trialId);
    var x, y := a.metrics, b.metrics;
    if m != n then m < n
    else if x.expectancyR != y.expectancyR then x.expectancyR > y.expectancyR
    else if x.profitFactor != y.profitFactor then x.profitFactor > y.profitFactor
    else if x.maxDrawdownPct != y.maxDrawdownPct then x.maxDrawdownPct < y.maxDrawdownPct
    else if x.tradesCount != y.tradesCount then x.tradesCount > y.tradesCount
    else a.trialId <= b.trialId
  }

  function PlaceOf(priority: map<int, nat>, id: int): int {
    if id in priority then priority[id] else 1_000_000_000
  }

  lemma KeyTellsHistory(priority: map<int, nat>, a: TrialEvaluation, b: TrialEvaluation)
    ensures LexLe(HistoryKey(priority)(a), HistoryKey(priority)(b)) <==> TakenFirst(priority, a, b)
  {
    var x, y := HistoryKey(priority)(a), HistoryKey(priority)(b);
    LexLeAt(x, y, 0);
    LexLeAt(x, y, 1);
    LexLeAt(x, y, 2);
    LexLeAt(x, y, 3);
    LexLeAt(x, y, 4);
    LexLeAt(x, y, 5);
    assert x[0..] == x && y[0..] == y;
    assert LexLe(x[6..], y[6..]);
    hide LexLe;
  }

  /** The history of vectors is that of the accepted trials in this order. */
  lemma HistoryInOrder(trials: seq<TrialEvaluation>, priority: map<int, nat>)
    ensures var ordered := StableSort(Accepted(trials), ByKey(HistoryKey(priority)));
            && multiset(ordered) == multiset(Accepted(trials))
            && forall i, j | 0 <= i < j < |ordered| :: TakenFirst(priority, ordered[i], ordered[j])
  {
    hide StableSort, HistoryKey, TakenFirst, LexLe;
    var ordered := StableSort(Accepted(trials), ByKey(HistoryKey(priority)));
    ByKeyOrders(HistoryKey(priority));
    SortIsSortedPermutation(Accepted(trials), ByKey(HistoryKey(priority)));
    forall i, j | 0 <= i < j < |ordered| ensures TakenFirst(priority, ordered[i], ordered[j]) {
      assert ByKey(HistoryKey(priority))(ordered[i], ordered[j]);
      KeyTellsHistory(priority, ordered[i], ordered[j]);
    }
  }
}
