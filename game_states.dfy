/**
 * Positions of the Orchard game: four fruit counters kept in descending order
 * and the raven's countdown, with the terminal predicates, the two random
 * transitions (the raven advances, one fruit is picked) and the cache key.
 */
module GameStates {

  /** How many fruits of one kind are still on their tree: 0 to 4. */
  type Fruit = x: int | 0 <= x <= 4

  /** The raven's countdown: how many raven rolls remain before the game is lost, 0 to 5. */
  type Raven = x: int | 0 <= x <= 5

  /** Which of the four fruit counters: 0 to 3. */
  type FruitIndex = x: int | 0 <= x <= 3

  /**
   * A position: four fruit counters (kept in descending order by every
   * transition the evaluators apply) and the raven's countdown.
   */
  datatype GameState = GameState(f0: Fruit, f1: Fruit, f2: Fruit, f3: Fruit, raven: Raven)
  {
    /** The fruit counter at position `i`, as `state[i]` reads it. */
    function At(i: FruitIndex): Fruit
    {
      if i == 0 then f0 else if i == 1 then f1 else if i == 2 then f2 else f3
    }
  }

  /** Every fruit full and the raven at the start of its path. */
  const Initial := GameState(4, 4, 4, 4, 5)

  /** The canonical form: no counter is larger than the one before it. */
  predicate Sorted(s: GameState)
  {
    s.f0 >= s.f1 >= s.f2 >= s.f3
  }

  /** Won: every fruit counter has reached 0. */
  predicate IsWin(s: GameState): (b: bool)
    ensures Sorted(s) ==> (b <==> s.f0 == 0)
    ensures b ==> Measure(s) == s.raven
  {
    s.f0 == 0 && s.f1 == 0 && s.f2 == 0 && s.f3 == 0
  }

  /** Lost: the raven's countdown has run out. */
  predicate IsLose(s: GameState): (b: bool)
    ensures b && IsWin(s) <==> s == GameState(0, 0, 0, 0, 0)
  {
    s.raven == 0
  }

  /** Sorted means descending at every pair of positions, not only neighbouring ones. */
  lemma SortedIsDescending(s: GameState)
    ensures Sorted(s) <==> forall i: FruitIndex, j: FruitIndex :: i <= j ==> s.At(i) >= s.At(j)
  {
    if !Sorted(s) {
      if s.f0 < s.f1 { assert s.At(0) < s.At(1); }
      else if s.f1 < s.f2 { assert s.At(1) < s.At(2); }
      else { assert s.At(2) < s.At(3); }
    }
  }

  /** Won exactly when the counter at every position is 0. */
  lemma IsWinMeansNoFruit(s: GameState)
    ensures IsWin(s) <==> forall i: FruitIndex :: s.At(i) == 0
  {
    if !IsWin(s) {
      if s.f0 != 0 { assert s.At(0) != 0; }
      else if s.f1 != 0 { assert s.At(1) != 0; }
      else if s.f2 != 0 { assert s.At(2) != 0; }
      else { assert s.At(3) != 0; }
    }
  }

  /** A sorted position is in play exactly when the raven can move and position 0 holds fruit. */
  lemma InPlayHasMoves(s: GameState)
    requires Sorted(s)
    ensures !IsWin(s) && !IsLose(s) <==> s.raven > 0 && s.At(0) > 0
  {
  }

  /** The termination measure of both evaluators: fruit left plus raven steps left. */
  function Measure(s: GameState): nat
  {
    s.f0 + s.f1 + s.f2 + s.f3 + s.raven
  }

  /** The fruits of `t` come strictly before the tuple (a, b, c, d) in lexicographic order. */
  predicate FruitsBefore(t: GameState, a: int, b: int, c: int, d: int)
  {
    t.f0 < a || (t.f0 == a && (t.f1 < b || (t.f1 == b && (t.f2 < c || (t.f2 == c && t.f3 < d)))))
  }

  /** One step down; the source never applies it to 0. */
  function Decrement(x: nat): nat
    requires x > 0
  {
    x - 1
  }

  /** The raven advances one step; nothing else moves. */
  function RollRaven(s: GameState): (r: GameState)
    requires s.raven > 0
    ensures r.raven + 1 == s.raven
    ensures r.f0 == s.f0 && r.f1 == s.f1 && r.f2 == s.f2 && r.f3 == s.f3
    ensures Sorted(s) ==> Sorted(r)
    ensures Measure(r) + 1 == Measure(s)
  {
    GameState(s.f0, s.f1, s.f2, s.f3, Decrement(s.raven))
  }

  /**
   * The position the decrement of a requested fruit lands on: the last
   * position of the run of equal counters that starts at `i`.
   */
  function LastOfRun(s: GameState, i: FruitIndex): (j: FruitIndex)
    ensures i <= j
    ensures s.At(j) == s.At(i)
    ensures j == 3 || s.At(j) != s.At(j + 1)
    decreases 3 - i
  {
    if i < 3 && s.At(i) == s.At(i + 1) then LastOfRun(s, i + 1) else i
  }

  /** Every counter from `i` up to the end of its run holds the same number. */
  lemma {:induction false} LastOfRunSpansRun(s: GameState, i: FruitIndex)
    ensures forall k: FruitIndex :: i <= k <= LastOfRun(s, i) ==> s.At(k) == s.At(i)
    decreases 3 - i
  {
    if i < 3 && s.At(i) == s.At(i + 1) {
      LastOfRunSpansRun(s, i + 1);
    }
  }

  /**
   * The state after one fruit of the kind at position `i` is picked: exactly
   * the last position of its run drops by one, so the order survives.
   */
  function AfterFruit(s: GameState, i: FruitIndex): (r: GameState)
    requires s.At(i) > 0
    ensures r.raven == s.raven
    ensures Measure(r) + 1 == Measure(s)
    ensures Sorted(s) ==> Sorted(r)
    ensures FruitsBefore(r, s.f0, s.f1, s.f2, s.f3)
  {
    var j := LastOfRun(s, i);
    GameState(
      if j == 0 then Decrement(s.f0) else s.f0,
      if j == 1 then Decrement(s.f1) else s.f1,
      if j == 2 then Decrement(s.f2) else s.f2,
      if j == 3 then Decrement(s.f3) else s.f3,
      s.raven)
  }

  /** Exactly one counter drops by one: the last of the run `i` starts; the others keep their value. */
  lemma AfterFruitDecrementsOne(s: GameState, i: FruitIndex)
    requires s.At(i) > 0
    ensures AfterFruit(s, i).At(LastOfRun(s, i)) + 1 == s.At(LastOfRun(s, i))
    ensures forall k: FruitIndex :: k != LastOfRun(s, i) ==> AfterFruit(s, i).At(k) == s.At(k)
  {
  }

  /** Picks one fruit of the kind at `index`, advancing past ties first. */
  method RollFruit(s: GameState, index: FruitIndex) returns (t: GameState)
    requires s.At(index) > 0
    ensures t == AfterFruit(s, index)
  {
    var i := index;
    while i < 3 && s.At(i) == s.At(i + 1)
      invariant index <= i <= 3
      invariant s.At(i) == s.At(index)
      invariant LastOfRun(s, i) == LastOfRun(s, index)
      decreases 3 - i
    {
      i := i + 1;
    }
    t := GameState(
      if i == 0 then Decrement(s.f0) else s.f0,
      if i == 1 then Decrement(s.f1) else s.f1,
      if i == 2 then Decrement(s.f2) else s.f2,
      if i == 3 then Decrement(s.f3) else s.f3,
      s.raven);
  }

  /** The decimal digit of a single-digit number. */
  function Digit(n: int): char
    requires 0 <= n <= 9
  {
    (48 + n) as char
  }

  /** The cache key: the tuple's comma-separated decimal form. */
  function Key(s: GameState): (k: string)
    ensures |k| == 9
    ensures forall i :: 0 <= i < 9 ==> (k[i] == ',' <==> i % 2 == 1)
    ensures forall i :: 0 <= i < 9 && i % 2 == 0 ==> '0' <= k[i] <= '9'
  {
    [Digit(s.f0), ',', Digit(s.f1), ',', Digit(s.f2), ',', Digit(s.f3), ',', Digit(s.raven)]
  }

  /** Distinct states never share a key, so keying by the tuple is the same. */
  lemma KeyInjective(s: GameState, t: GameState)
    requires Key(s) == Key(t)
    ensures s == t
  {
    assert Key(s)[0] == Key(t)[0] && Key(s)[2] == Key(t)[2] && Key(s)[4] == Key(t)[4];
    assert Key(s)[6] == Key(t)[6] && Key(s)[8] == Key(t)[8];
  }

  /** The transitions on the starting position. */
  lemma InitialMoves()
    ensures RollRaven(Initial) == GameState(4, 4, 4, 4, 4)
    ensures AfterFruit(Initial, 0) == GameState(4, 4, 4, 3, 5)
    ensures !IsWin(Initial) && !IsLose(Initial) && Sorted(Initial)
  {
    assert LastOfRun(Initial, 2) == 3;
    assert LastOfRun(Initial, 1) == 3;
  }
}
