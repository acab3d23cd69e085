/**
 * The recurrence both evaluators compute: from a position that is neither won
 * nor lost, the win probability is the unweighted mean over one raven branch,
 * one branch per fruit position with fruit left, and one basket branch chosen
 * by the strategy.
 */
module WinProbability {
  import opened GameStates
  import opened Strategies

  /** How many of the fruit positions below `n` still hold fruit. */
  function PositiveBelow(s: GameState, n: nat): (k: nat)
    requires n <= 4
    ensures k <= n
  {
    if n == 0 then 0
    else if s.At(n - 1) > 0 then PositiveBelow(s, n - 1) + 1
    else PositiveBelow(s, n - 1)
  }

  /**
   * The summed win probabilities of the random roll's branches: the raven
   * branch, then one fruit branch for each position below `n` that still
   * holds fruit.
   */
  function RollSum(strategy: Strategy, s: GameState, n: nat): (r: real)
    requires Sorted(s) && !IsWin(s) && !IsLose(s) && n <= 4
    ensures 0.0 <= r <= (1 + PositiveBelow(s, n)) as real
    decreases Measure(s), 0, n
  {
    if n == 0 then WinProb(strategy, RollRaven(s))
    else if s.At(n - 1) > 0 then RollSum(strategy, s, n - 1) + WinProb(strategy, AfterFruit(s, n - 1))
    else RollSum(strategy, s, n - 1)
  }

  /** The number of equally weighted terms in the mean of one turn from `s`. */
  function Weight(s: GameState): (w: nat)
    ensures 2 <= w <= 6
  {
    2 + PositiveBelow(s, 4)
  }

  /**
   * The exact probability of winning from `s` when the basket follows
   * `strategy`: 1 once the fruit is gone (checked first), 0 once the raven
   * has arrived, and otherwise the value of one more turn. Every such value
   * is a probability.
   */
  function WinProb(strategy: Strategy, s: GameState): (p: real)
    requires Sorted(s)
    ensures 0.0 <= p <= 1.0
    decreases Measure(s), 2, 0
  {
    if IsWin(s) then 1.0
    else if IsLose(s) then 0.0
    else TurnValue(strategy, s)
  }

  /**
   * The value of one turn from a position in play: the mean over the raven
   * branch, one branch per fruit position with fruit left, and the basket
   * branch the strategy picks.
   */
  function TurnValue(strategy: Strategy, s: GameState): (v: real)
    requires Sorted(s) && !IsWin(s) && !IsLose(s)
    ensures 0.0 <= v <= 1.0
    decreases Measure(s), 1, 0
  {
    Mean(RollSum(strategy, s, 4) + WinProb(strategy, AfterFruit(s, Choice(strategy, s))), Weight(s))
  }

  /**
   * `sum / weight` for the at most six terms a turn averages, written with
   * one constant divisor per case so that the arithmetic stays linear. The
   * mean of values in [0, 1] lies in [0, 1].
   */
  function Mean(sum: real, weight: nat): (m: real)
    requires 1 <= weight <= 6
    ensures 0.0 <= sum <= weight as real ==> 0.0 <= m <= 1.0
  {
    if weight == 1 then sum
    else if weight == 2 then sum / 2.0
    else if weight == 3 then sum / 3.0
    else if weight == 4 then sum / 4.0
    else if weight == 5 then sum / 5.0
    else sum / 6.0
  }

  /** `Mean` is the quotient of the sum by the number of terms. */
  lemma MeanIsQuotient(sum: real, weight: nat)
    requires 1 <= weight <= 6
    ensures Mean(sum, weight) * weight as real == sum
    ensures Mean(sum, weight) == sum / weight as real
  {
  }

  /** One more fruit position added to a partial roll sum. */
  lemma RollSumStep(strategy: Strategy, s: GameState, i: nat, sum: real, q: real)
    requires Sorted(s) && !IsWin(s) && !IsLose(s) && i < 4
    requires sum == RollSum(strategy, s, i)
    requires s.At(i) > 0 ==> q == WinProb(strategy, AfterFruit(s, i))
    ensures RollSum(strategy, s, i + 1) == if s.At(i) > 0 then sum + q else sum
  {
  }

  /** A turn's mean, once its sum and its number of terms are known. */
  lemma TurnStep(strategy: Strategy, s: GameState, sum: real, weight: nat)
    requires Sorted(s) && !IsWin(s) && !IsLose(s)
    requires sum == RollSum(strategy, s, 4) + WinProb(strategy, AfterFruit(s, Choice(strategy, s)))
    requires weight == Weight(s)
    ensures WinProb(strategy, s) == Mean(sum, weight)
  {
  }

  /** Every entry of `table` is the win probability of its key under `strategy`. */
  ghost predicate Exact(strategy: Strategy, table: map<GameState, real>)
  {
    forall t {:trigger table[t]} :: t in table ==> Sorted(t) && table[t] == WinProb(strategy, t)
  }

  /** Won positions are worth 1 (even when the raven has arrived too), lost ones 0. */
  lemma TerminalValues(strategy: Strategy, s: GameState)
    requires Sorted(s)
    ensures IsWin(s) ==> WinProb(strategy, s) == 1.0
    ensures IsLose(s) && !IsWin(s) ==> WinProb(strategy, s) == 0.0
  {
  }

  /** Two positions whose value does not depend on the strategy. */
  lemma TerminalExamples(strategy: Strategy)
    ensures WinProb(strategy, GameState(0, 0, 0, 0, 3)) == 1.0
    ensures WinProb(strategy, GameState(2, 1, 0, 0, 0)) == 0.0
  {
  }

  /** How many fruit positions still hold fruit. */
  function PositiveCount(s: GameState): nat
  {
    (if s.f0 > 0 then 1 else 0) + (if s.f1 > 0 then 1 else 0) +
    (if s.f2 > 0 then 1 else 0) + (if s.f3 > 0 then 1 else 0)
  }

  /**
   * The mean from a position in play has 2 terms plus one per fruit position
   * with fruit left: between 3 and 6 terms.
   */
  lemma WeightCount(s: GameState)
    requires Sorted(s) && !IsWin(s) && !IsLose(s)
    ensures Weight(s) == 2 + PositiveCount(s)
    ensures 3 <= Weight(s) <= 6
  {
    assert PositiveBelow(s, 1) == (if s.f0 > 0 then 1 else 0);
    assert PositiveBelow(s, 2) == PositiveBelow(s, 1) + (if s.f1 > 0 then 1 else 0);
    assert PositiveBelow(s, 3) == PositiveBelow(s, 2) + (if s.f2 > 0 then 1 else 0);
  }
}
