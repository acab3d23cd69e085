/**
 * The top-down evaluator: a recursion over the branches of each turn that
 * memoizes every position it finishes in a cache shared by the whole descent.
 */
module RecursiveEvaluator {
  import opened GameStates
  import opened Strategies
  import opened WinProbability

  /** The memo table of one evaluation, updated in place by the recursion. */
  class Cache {
    var table: map<GameState, real>

    constructor ()
      ensures table == map[]
    {
      table := map[];
    }
  }

  /** The win probability from `s`, reading and extending the shared cache. */
  method Evaluate(strategy: Strategy, s: GameState, cache: Cache) returns (p: real)
    requires Sorted(s)
    requires Exact(strategy, cache.table)
    modifies cache
    ensures p == WinProb(strategy, s)
    ensures Exact(strategy, cache.table)
    ensures old(cache.table).Keys <= cache.table.Keys
    ensures !IsWin(s) && !IsLose(s) ==> s in cache.table
    decreases Measure(s), 3
  {
    if IsWin(s) {
      return 1.0;
    }
    if IsLose(s) {
      return 0.0;
    }
    if s in cache.table {
      assert cache.table[s] == WinProb(strategy, s);
      return cache.table[s];
    }
    p := TurnMean(strategy, s, cache);
    cache.table := cache.table[s := p];
  }

  /** The mean over the branches of one turn from `s`, each evaluated with the shared cache. */
  method TurnMean(strategy: Strategy, s: GameState, cache: Cache) returns (p: real)
    requires Sorted(s) && !IsWin(s) && !IsLose(s)
    requires Exact(strategy, cache.table)
    modifies cache
    ensures p == WinProb(strategy, s)
    ensures Exact(strategy, cache.table)
    ensures old(cache.table).Keys <= cache.table.Keys
    decreases Measure(s), 2
  {
    var sum, weight := RollBranches(strategy, s, cache);

    // Basket
    var choice := Choose(strategy, s);
    var q := FruitBranch(strategy, s, choice, cache);
    TurnStep(strategy, s, sum + q, weight + 1);
    sum, weight := sum + q, weight + 1;

    p := Mean(sum, weight);
  }

  /** The raven branch and the fruit branches of one turn from `s`: their sum and their number. */
  method RollBranches(strategy: Strategy, s: GameState, cache: Cache) returns (sum: real, weight: nat)
    requires Sorted(s) && !IsWin(s) && !IsLose(s)
    requires Exact(strategy, cache.table)
    modifies cache
    ensures sum == RollSum(strategy, s, 4) && weight == 1 + PositiveBelow(s, 4)
    ensures Exact(strategy, cache.table)
    ensures old(cache.table).Keys <= cache.table.Keys
    decreases Measure(s), 1
  {
    sum := 0.0;
    weight := 0;

    // Raven
    var q := RavenBranch(strategy, s, cache);
    sum, weight := sum + q, weight + 1;

    // Fruits
    var i := 0;
    while i < 4
      invariant 0 <= i <= 4
      invariant Exact(strategy, cache.table)
      invariant old(cache.table).Keys <= cache.table.Keys
      invariant sum == RollSum(strategy, s, i)
      invariant weight == 1 + PositiveBelow(s, i)
    {
      if s.At(i) > 0 {
        q := FruitBranch(strategy, s, i, cache);
        RollSumStep(strategy, s, i, sum, q);
        assert PositiveBelow(s, i + 1) == PositiveBelow(s, i) + 1;
        sum, weight := sum + q, weight + 1;
      } else {
        RollSumStep(strategy, s, i, sum, q);
        assert PositiveBelow(s, i + 1) == PositiveBelow(s, i);
      }
      i := i + 1;
    }
  }

  /** The branch of one turn from `s` where the raven advances. */
  method RavenBranch(strategy: Strategy, s: GameState, cache: Cache) returns (q: real)
    requires Sorted(s) && !IsWin(s) && !IsLose(s)
    requires Exact(strategy, cache.table)
    modifies cache
    ensures q == WinProb(strategy, RollRaven(s))
    ensures Exact(strategy, cache.table)
    ensures old(cache.table).Keys <= cache.table.Keys
    decreases Measure(s), 0
  {
    q := Evaluate(strategy, RollRaven(s), cache);
  }

  /** The branch of one turn from `s` where the fruit at position `i` is picked. */
  method FruitBranch(strategy: Strategy, s: GameState, i: FruitIndex, cache: Cache) returns (q: real)
    requires Sorted(s) && !IsWin(s) && !IsLose(s) && s.At(i) > 0
    requires Exact(strategy, cache.table)
    modifies cache
    ensures q == WinProb(strategy, AfterFruit(s, i))
    ensures Exact(strategy, cache.table)
    ensures old(cache.table).Keys <= cache.table.Keys
    decreases Measure(s), 0
  {
    var t := RollFruit(s, i);
    q := Evaluate(strategy, t, cache);
  }

  /** The win probability of a whole game, with a cache of its own. */
  method CalculateWinChanceRecursive(strategy: Strategy) returns (p: real)
    ensures p == WinProb(strategy, Initial)
  {
    var cache := new Cache();
    p := Evaluate(strategy, Initial, cache);
  }
}
