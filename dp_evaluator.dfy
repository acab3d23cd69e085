/**
 * The bottom-up evaluator: a table over every sorted position, seeded with the
 * won and lost positions and then filled with the raven countdown ascending
 * and, for each countdown, the fruit tuples in ascending lexicographic order,
 * so that every entry a position reads was written before it.
 */
module DpEvaluator {
  import opened GameStates
  import opened Strategies
  import opened WinProbability

  /** Won positions the table is seeded with: no fruit left, raven still on its way. */
  predicate SeededWin(t: GameState)
  {
    IsWin(t) && t.raven > 0
  }

  /**
   * Positions with fruit left that the sweep has covered once it reaches the
   * countdown `r` and the fruit tuple (a, b, c, d); countdown 0 is the lose seeding.
   */
  predicate Covered(t: GameState, r: int, a: int, b: int, c: int, d: int)
  {
    t.f0 > 0 && (t.raven < r || (t.raven == r && FruitsBefore(t, a, b, c, d)))
  }

  /** The table holds the exact value of precisely the seeded and covered sorted positions. */
  ghost predicate Progress(strategy: Strategy, table: map<GameState, real>, r: int, a: int, b: int, c: int, d: int)
  {
    Exact(strategy, table) &&
    forall t :: Sorted(t) ==> (t in table <==> SeededWin(t) || Covered(t, r, a, b, c, d))
  }

  /** Every entry one turn from `s` reads is in the table. */
  predicate Readable(table: map<GameState, real>, s: GameState)
    requires s.raven > 0
  {
    RollRaven(s) in table &&
    (s.f0 > 0 ==> AfterFruit(s, 0) in table) && (s.f1 > 0 ==> AfterFruit(s, 1) in table) &&
    (s.f2 > 0 ==> AfterFruit(s, 2) in table) && (s.f3 > 0 ==> AfterFruit(s, 3) in table)
  }

  /**
   * When the sweep reaches `s`, every entry its turn reads has been seeded
   * or filled already; the all-zero position is never among them.
   */
  lemma ReadsAreFilled(strategy: Strategy, table: map<GameState, real>, s: GameState)
    requires Sorted(s) && !IsWin(s) && !IsLose(s)
    requires Progress(strategy, table, s.raven, s.f0, s.f1, s.f2, s.f3)
    ensures Readable(table, s)
  {
    assert Covered(RollRaven(s), s.raven, s.f0, s.f1, s.f2, s.f3);
    if s.f0 > 0 { FruitReadIsFilled(strategy, table, s, 0); }
    if s.f1 > 0 { FruitReadIsFilled(strategy, table, s, 1); }
    if s.f2 > 0 { FruitReadIsFilled(strategy, table, s, 2); }
    if s.f3 > 0 { FruitReadIsFilled(strategy, table, s, 3); }
  }

  /** A position one fruit down from `s` is either won or comes earlier in the sweep. */
  lemma FruitReadIsFilled(strategy: Strategy, table: map<GameState, real>, s: GameState, i: FruitIndex)
    requires Sorted(s) && !IsLose(s) && s.At(i) > 0
    requires Progress(strategy, table, s.raven, s.f0, s.f1, s.f2, s.f3)
    ensures AfterFruit(s, i) in table
  {
    var t := AfterFruit(s, i);
    assert SeededWin(t) || Covered(t, s.raven, s.f0, s.f1, s.f2, s.f3);
  }

  /** A readable position's fruit branch at any index. */
  lemma FruitBranchReadable(table: map<GameState, real>, s: GameState, i: FruitIndex)
    requires s.raven > 0 && Readable(table, s) && s.At(i) > 0
    ensures AfterFruit(s, i) in table
  {
  }

  /** One read of the table. */
  method Lookup(strategy: Strategy, table: map<GameState, real>, t: GameState) returns (v: real)
    requires Exact(strategy, table) && t in table
    ensures Sorted(t) && v == WinProb(strategy, t)
  {
    v := table[t];
  }

  /** The mean over the branches of one turn from `s`, read from the table. */
  method TableMean(strategy: Strategy, table: map<GameState, real>, s: GameState) returns (p: real)
    requires Sorted(s) && !IsWin(s) && !IsLose(s)
    requires Exact(strategy, table) && Readable(table, s)
    ensures p == WinProb(strategy, s)
  {
    var sum, weight := TableRollBranches(strategy, table, s);

    // Basket
    var choice := Choose(strategy, s);
    var t := RollFruit(s, choice);
    FruitBranchReadable(table, s, choice);
    var q := Lookup(strategy, table, t);
    TurnStep(strategy, s, sum + q, weight + 1);
    sum, weight := sum + q, weight + 1;

    p := Mean(sum, weight);
  }

  /** The raven branch and the fruit branches of one turn from `s`, read from the table. */
  method TableRollBranches(strategy: Strategy, table: map<GameState, real>, s: GameState) returns (sum: real, weight: nat)
    requires Sorted(s) && !IsWin(s) && !IsLose(s)
    requires Exact(strategy, table) && Readable(table, s)
    ensures sum == RollSum(strategy, s, 4) && weight == 1 + PositiveBelow(s, 4)
  {
    sum := 0.0;
    weight := 0;

    // Raven
    var q := Lookup(strategy, table, RollRaven(s));
    sum, weight := sum + q, weight + 1;

    // Fruits
    var i := 0;
    while i < 4
      invariant 0 <= i <= 4
      invariant sum == RollSum(strategy, s, i)
      invariant weight == 1 + PositiveBelow(s, i)
    {
      if s.At(i) > 0 {
        var t := RollFruit(s, i);
        FruitBranchReadable(table, s, i);
        q := Lookup(strategy, table, t);
        RollSumStep(strategy, s, i, sum, q);
        assert PositiveBelow(s, i + 1) == PositiveBelow(s, i) + 1;
        sum, weight := sum + q, weight + 1;
      } else {
        RollSumStep(strategy, s, i, sum, q);
        assert PositiveBelow(s, i + 1) == PositiveBelow(s, i);
      }
      i := i + 1;
    }
  }

  /**
   * Writes the entry of `s` once the sweep reaches it: 0 for a lost
   * position (countdown 0), the mean of its turn otherwise.
   */
  method Store(strategy: Strategy, table: map<GameState, real>, s: GameState) returns (next: map<GameState, real>)
    requires Sorted(s) && s.f0 > 0
    requires Progress(strategy, table, s.raven, s.f0, s.f1, s.f2, s.f3)
    ensures next == table[s := WinProb(strategy, s)]
    ensures Progress(strategy, next, s.raven, s.f0, s.f1, s.f2, s.f3 + 1)
  {
    var p: real;
    if s.raven == 0 {
      p := 0.0;
    } else {
      ReadsAreFilled(strategy, table, s);
      p := TableMean(strategy, table, s);
    }
    next := table[s := p];
    StoreAdvances(strategy, table, s);
  }

  /** Writing the exact value of `s` moves the sweep one tuple on. */
  lemma StoreAdvances(strategy: Strategy, table: map<GameState, real>, s: GameState)
    requires Sorted(s) && s.f0 > 0
    requires Progress(strategy, table, s.raven, s.f0, s.f1, s.f2, s.f3)
    ensures Progress(strategy, table[s := WinProb(strategy, s)], s.raven, s.f0, s.f1, s.f2, s.f3 + 1)
  {
    var next := table[s := WinProb(strategy, s)];
    forall t | t in next
      ensures Sorted(t) && next[t] == WinProb(strategy, t)
    {
      if t != s {
        assert t in table;
      }
    }
    forall t | Sorted(t)
      ensures t in next <==> SeededWin(t) || Covered(t, s.raven, s.f0, s.f1, s.f2, s.f3 + 1)
    {
      assert Covered(t, s.raven, s.f0, s.f1, s.f2, s.f3 + 1) <==> Covered(t, s.raven, s.f0, s.f1, s.f2, s.f3) || t == s;
    }
  }

  /** Once `d` has run past `c`, the sweep stands at the tuple (a, b, c + 1, 0). */
  lemma FinishD(strategy: Strategy, table: map<GameState, real>, r: int, a: int, b: int, c: int)
    requires Progress(strategy, table, r, a, b, c, c + 1)
    ensures Progress(strategy, table, r, a, b, c + 1, 0)
  {
    forall t | Sorted(t)
      ensures Covered(t, r, a, b, c, c + 1) <==> Covered(t, r, a, b, c + 1, 0)
    {
    }
  }

  /** Once `c` has run past `b`, the sweep stands at the tuple (a, b + 1, 0, 0). */
  lemma FinishC(strategy: Strategy, table: map<GameState, real>, r: int, a: int, b: int)
    requires Progress(strategy, table, r, a, b, b + 1, 0)
    ensures Progress(strategy, table, r, a, b + 1, 0, 0)
  {
    forall t | Sorted(t)
      ensures Covered(t, r, a, b, b + 1, 0) <==> Covered(t, r, a, b + 1, 0, 0)
    {
    }
  }

  /** Once `b` has run past `a`, the sweep stands at the tuple (a + 1, 0, 0, 0). */
  lemma FinishB(strategy: Strategy, table: map<GameState, real>, r: int, a: int)
    requires Progress(strategy, table, r, a, a + 1, 0, 0)
    ensures Progress(strategy, table, r, a + 1, 0, 0, 0)
  {
    forall t | Sorted(t)
      ensures Covered(t, r, a, a + 1, 0, 0) <==> Covered(t, r, a + 1, 0, 0, 0)
    {
    }
  }

  /** Once `a` has run past 4, the sweep stands at the first tuple of countdown r + 1. */
  lemma FinishCountdown(strategy: Strategy, table: map<GameState, real>, r: int)
    requires Progress(strategy, table, r, 5, 0, 0, 0)
    ensures Progress(strategy, table, r + 1, 1, 0, 0, 0)
  {
    forall t | Sorted(t)
      ensures Covered(t, r, 5, 0, 0, 0) <==> Covered(t, r + 1, 1, 0, 0, 0)
    {
    }
  }

  /** The innermost loop: d from 0 up to c. */
  method SweepD(strategy: Strategy, table: map<GameState, real>, r: Raven, a: Fruit, b: Fruit, c: Fruit)
    returns (next: map<GameState, real>)
    requires 0 < a && b <= a && c <= b
    requires Progress(strategy, table, r, a, b, c, 0)
    ensures Progress(strategy, next, r, a, b, c + 1, 0)
  {
    next := table;
    var d := 0;
    while d <= c
      invariant 0 <= d <= c + 1
      invariant Progress(strategy, next, r, a, b, c, d)
    {
      next := Store(strategy, next, GameState(a, b, c, d, r));
      d := d + 1;
    }
    FinishD(strategy, next, r, a, b, c);
  }

  /** The third loop: c from 0 up to b. */
  method SweepC(strategy: Strategy, table: map<GameState, real>, r: Raven, a: Fruit, b: Fruit)
    returns (next: map<GameState, real>)
    requires 0 < a && b <= a
    requires Progress(strategy, table, r, a, b, 0, 0)
    ensures Progress(strategy, next, r, a, b + 1, 0, 0)
  {
    next := table;
    var c := 0;
    while c <= b
      invariant 0 <= c <= b + 1
      invariant Progress(strategy, next, r, a, b, c, 0)
    {
      next := SweepD(strategy, next, r, a, b, c);
      c := c + 1;
    }
    FinishC(strategy, next, r, a, b);
  }

  /** The second loop: b from 0 up to a. */
  method SweepB(strategy: Strategy, table: map<GameState, real>, r: Raven, a: Fruit)
    returns (next: map<GameState, real>)
    requires 0 < a
    requires Progress(strategy, table, r, a, 0, 0, 0)
    ensures Progress(strategy, next, r, a + 1, 0, 0, 0)
  {
    next := table;
    var b := 0;
    while b <= a
      invariant 0 <= b <= a + 1
      invariant Progress(strategy, next, r, a, b, 0, 0)
    {
      next := SweepC(strategy, next, r, a, b);
      b := b + 1;
    }
    FinishB(strategy, next, r, a);
  }

  /** Every sorted tuple with fruit left at countdown `r`, a from 1 up to 4. */
  method SweepCountdown(strategy: Strategy, table: map<GameState, real>, r: Raven)
    returns (next: map<GameState, real>)
    requires Progress(strategy, table, r, 1, 0, 0, 0)
    ensures Progress(strategy, next, r + 1, 1, 0, 0, 0)
  {
    next := table;
    var a := 1;
    while a <= 4
      invariant 1 <= a <= 5
      invariant Progress(strategy, next, r, a, 0, 0, 0)
    {
      next := SweepB(strategy, next, r, a);
      a := a + 1;
    }
    FinishCountdown(strategy, next, r);
  }

  /** The won positions: no fruit left, countdown 1 up to 5. */
  method SeedWins(strategy: Strategy) returns (table: map<GameState, real>)
    ensures Progress(strategy, table, 0, 1, 0, 0, 0)
  {
    table := map[];
    var r := 1;
    while r <= 5
      invariant 1 <= r <= 6
      invariant Exact(strategy, table)
      invariant forall t :: Sorted(t) ==> (t in table <==> IsWin(t) && 0 < t.raven < r)
    {
      table := table[GameState(0, 0, 0, 0, r) := 1.0];
      r := r + 1;
    }
  }

  /** The whole table: every sorted position except the unreachable all-zero one. */
  method FillTable(strategy: Strategy) returns (table: map<GameState, real>)
    ensures Exact(strategy, table)
    ensures forall t :: Sorted(t) ==> (t in table <==> t != GameState(0, 0, 0, 0, 0))
  {
    // Win states
    table := SeedWins(strategy);

    // Lose states
    table := SweepCountdown(strategy, table, 0);

    // Intermediate states
    var r := 1;
    while r <= 5
      invariant 1 <= r <= 6
      invariant Progress(strategy, table, r, 1, 0, 0, 0)
    {
      table := SweepCountdown(strategy, table, r);
      r := r + 1;
    }
  }

  /** The win probability of a whole game, read from a freshly filled table. */
  method CalculateWinChanceDP(strategy: Strategy) returns (p: real)
    ensures p == WinProb(strategy, Initial)
  {
    var table := FillTable(strategy);
    p := table[Initial];
  }
}
