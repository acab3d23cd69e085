# Orchard win-probability evaluator in Dafny

This is a model of `src/orchard.ts`, which computes the probability of winning the children's dice game
Orchard when the player follows a fixed strategy for the basket face of the die.

A position of the game is a `GameState`. It holds four fruit counters, each from 0 to 4, and the raven's
countdown, from 0 to 5. The fruit counters are always kept in descending order. That way, positions that
differ only in which kind of fruit is which are the same position. A position is won once all fruit is
gone (the win check comes first) and lost once the countdown reaches 0.

One turn from a position still in play has these branches, each taken once:
- **the raven branch:** the countdown drops by one;
- **one fruit branch per position whose counter is positive:** that fruit is picked, and the decrement moves
  to the last counter of its run of equal values, so the order survives;
- **one basket branch:** the fruit the strategy picks.

The win probability is the unweighted mean of the branches' values. The source computes it in two ways:
- a top-down recursion that memoizes every finished position in a cache shared by the whole descent;
- a bottom-up table, seeded with the won and lost positions and then filled with the countdown ascending
  and the fruit tuples in ascending lexicographic order.

The model has one module per concern:
- **`GameStates`:** the data, the terminal predicates, the transitions and the cache key. `RollFruit` keeps
  the source's tie-advancing `while` loop. It is proved equal to the function `AfterFruit`.
- **`Strategies`:** the two strategies of the source, as the cases of a datatype. The greedy one is a
  loop-free function (`GreedyChoice`), and the source's `for` loop `GreedyBasketStrategy` is proved equal to
  it.
- **`WinProbability`:** the recurrence both evaluators compute, as the mutually recursive functions
  `WinProb` / `TurnValue` / `RollSum`. Their contracts state that every value lies in [0, 1], and each
  recursive call's contract carries the proof. Lemmas give the base cases and the number of terms. The
  predicate `Exact` ("every table entry is the win probability of its key") is defined here once and is
  shared by both evaluators.
- **`RecursiveEvaluator`:**
  - the memo table is the field of a `Cache` object, updated in place by the recursion;
  - the methods `Evaluate` / `TurnMean` / `RollBranches` accumulate `sum` and `weight` as the source does;
    `RavenBranch` and `FruitBranch` are the recursive calls of the individual branches;
  - the methods are proved to return `WinProb` and to keep every cache entry exact; `Evaluate` also
    stores the position it evaluates when that position is in play.
- **`DpEvaluator`:**
  - the table fill is programmed as nested loops, one per state component;
  - the loop invariant `Progress` says the table holds the exact values of exactly the positions the sweep
    has passed;
  - from it, every entry a position reads has been written already, and the all-zero position is never read;
  - so the table's entry for the initial position is `WinProb` of it: the two evaluators agree.

The mean of one turn has 2 terms (raven and basket) plus one per fruit position with fruit left. A
position in play always has fruit at position 0, so a turn averages 3 to 6 terms.
`WinProbability.WeightCount` states this count.

## Model

| member | source | states |
|---|---|---|
| GameStates.SortedIsDescending | src/orchard.ts:9-15 | the order kept on the four fruit counters is descending across every pair of positions, not only neighbouring ones |
| GameStates.IsWin | src/orchard.ts:23-26 | on a sorted state, won exactly when position 0 is empty; a won state's measure is only the raven's countdown |
| GameStates.IsWinMeansNoFruit | src/orchard.ts:23-26 | won exactly when every one of the four counters is 0 |
| GameStates.IsLose | src/orchard.ts:28-31 | a position is both lost and won only when it is the all-zero position, the one overlap the win-first check decides and the table never holds |
| GameStates.InPlayHasMoves | src/orchard.ts:23-31 | a sorted position is neither won nor lost exactly when the raven can advance and position 0 holds fruit to pick |
| GameStates.RollRaven | src/orchard.ts:46-58 | the raven countdown drops by exactly one and each of the four fruit counters is unchanged; a sorted state stays sorted and the termination measure drops by one |
| GameStates.LastOfRun | src/orchard.ts:62 | the index the tie-advance stops at is at or after the requested index, holds the same count, and is either the last index or followed by a different count |
| GameStates.LastOfRunSpansRun | src/orchard.ts:62 | every counter the tie-advance passes over holds the same count as the requested one |
| GameStates.AfterFruit | src/orchard.ts:60-70 | picking a fruit keeps the raven, lowers the termination measure by one, keeps a sorted state sorted, and yields a fruit tuple lexicographically smaller than before |
| GameStates.AfterFruitDecrementsOne | src/orchard.ts:46-70 | exactly one counter drops by one, the last of the run the requested index starts, and every other counter is unchanged |
| GameStates.RollFruit | src/orchard.ts:60-70 | the method with the tie-advancing while loop returns exactly the state `AfterFruit` describes |
| GameStates.Key | src/orchard.ts:72 | the key is nine characters long, with a comma exactly at each odd position and a decimal digit at each even position |
| GameStates.KeyInjective | src/orchard.ts:72 | two states with the same key are the same state, so a cache keyed by the tuple behaves as the string-keyed one |
| GameStates.InitialMoves | src/orchard.ts:21 | the initial position is sorted and in play; its raven roll and its first fruit pick (which decrements the last of the four equal counters) are the expected states |
| Strategies.GreedyChoice | src/orchard.ts:35-41 | the greedy pick is the highest index with fruit left: every later index is empty, and the pick holds fruit whenever the game is not won |
| Strategies.GreedyBasketStrategy | src/orchard.ts:36-41 | the for loop from index 3 down to 1, falling back to 0, returns exactly the greedy pick |
| Strategies.VarietyChoice | src/orchard.ts:43-44 | the variety pick, index 0, holds fruit on every sorted position that is not won |
| Strategies.Choice | src/orchard.ts:33-44 | whichever strategy is used, on a sorted position that is not won the basket picks a fruit that is there |
| Strategies.Choose | src/orchard.ts:105 | applying a strategy returns that strategy's pick |
| WinProbability.PositiveBelow | src/orchard.ts:97-98 | the number of positions below `n` that hold fruit is at most `n` |
| WinProbability.RollSum | src/orchard.ts:92-102 | the summed values of the raven branch and the fruit branches below `n` lie between 0 and their number of terms |
| WinProbability.Weight | src/orchard.ts:89-106 | a turn averages between 2 and 6 terms |
| WinProbability.WinProb | src/orchard.ts:84-110 | the value the recurrence gives any sorted position (1 if won, 0 if lost, one more turn otherwise) is a probability, between 0 and 1 |
| WinProbability.TurnValue | src/orchard.ts:89-108 | the mean over one turn's raven, fruit and basket branches lies between 0 and 1 |
| WinProbability.Mean | src/orchard.ts:108 | the mean of as many values in [0, 1] as there are terms lies in [0, 1] |
| WinProbability.TerminalValues | src/orchard.ts:84-85 | won positions are worth 1, even when the raven has arrived too, and lost positions that are not won are worth 0 |
| WinProbability.TerminalExamples | src/orchard.ts:84-85 | no fruit with the raven on its way is worth 1; fruit left with the raven arrived is worth 0, for both strategies |
| WinProbability.RollSumStep | src/orchard.ts:96-102 | the partial sum gains exactly the fruit branch's value when that position holds fruit, and nothing otherwise |
| WinProbability.TurnStep | src/orchard.ts:104-108 | the win probability of a position in play is the mean of the roll sum plus the basket branch over the turn's number of terms |
| WinProbability.MeanIsQuotient | src/orchard.ts:108 | the mean times the number of terms gives back the sum, for one to six terms |
| WinProbability.WeightCount | src/orchard.ts:89-106 | a turn from a position in play has 2 terms plus one per positive fruit position, between 3 and 6 in all |
| RecursiveEvaluator.Cache.constructor | src/orchard.ts:82 | a new cache is empty |
| RecursiveEvaluator.Evaluate | src/orchard.ts:79-111 | the memoized recursion returns the win probability, leaves every cache entry exact and keeps all earlier keys, and a position in play is in the cache afterwards |
| RecursiveEvaluator.RavenBranch | src/orchard.ts:92-94 | the raven branch's recursive call returns the win probability of the position with the raven one step on, keeping the cache exact |
| RecursiveEvaluator.FruitBranch | src/orchard.ts:99-106 | a fruit or basket branch's recursive call returns the win probability of the position with that fruit picked, keeping the cache exact |
| RecursiveEvaluator.TurnMean | src/orchard.ts:89-110 | the accumulated sum divided by the accumulated weight is the win probability of the position |
| RecursiveEvaluator.RollBranches | src/orchard.ts:89-102 | after the raven and fruit branches the sum is the roll sum and the weight is one plus the number of positive fruit positions |
| RecursiveEvaluator.CalculateWinChanceRecursive | src/orchard.ts:74-78 | the top-level call with a fresh cache returns the win probability of the initial position |
| DpEvaluator.ReadsAreFilled | src/orchard.ts:154-172 | when the sweep reaches a position, the raven entry and every fruit entry its turn reads are in the table; the sweep invariant it assumes keeps the all-zero position out of the table, so none of those reads is that position |
| DpEvaluator.FruitReadIsFilled | src/orchard.ts:163-168 | a position one fruit down is either a seeded win or comes earlier in the sweep, so it is in the table |
| DpEvaluator.FruitBranchReadable | src/orchard.ts:166 | a readable position's fruit entry at any index with fruit is in the table |
| DpEvaluator.Lookup | src/orchard.ts:159 | a read of the table returns the win probability of the position read |
| DpEvaluator.TableMean | src/orchard.ts:155-174 | the mean read from the table is the win probability of the position |
| DpEvaluator.TableRollBranches | src/orchard.ts:155-168 | after the raven and fruit reads the sum is the roll sum and the weight is one plus the number of positive fruit positions |
| DpEvaluator.Store | src/orchard.ts:174-175 | the entry written is the win probability of the position; the sweep moves on one tuple |
| DpEvaluator.StoreAdvances | src/orchard.ts:175 | writing the exact value of the current position moves the sweep past it, with every entry still exact |
| DpEvaluator.FinishD | src/orchard.ts:151-153 | once `d` has run past `c`, the positions covered are those before the tuple (a, b, c + 1, 0) |
| DpEvaluator.FinishC | src/orchard.ts:149-151 | once `c` has run past `b`, the positions covered are those before the tuple (a, b + 1, 0, 0) |
| DpEvaluator.FinishB | src/orchard.ts:147-149 | once `b` has run past `a`, the positions covered are those before the tuple (a + 1, 0, 0, 0) |
| DpEvaluator.FinishCountdown | src/orchard.ts:139-145 | once `a` has run past 4, the positions covered are all of those with a smaller countdown |
| DpEvaluator.SweepD | src/orchard.ts:151-176 | the loop over `d` from 0 to `c` fills the exact value of every tuple (a, b, c, d) |
| DpEvaluator.SweepC | src/orchard.ts:149-177 | the loop over `c` from 0 to `b` fills the exact value of every tuple (a, b, c, ·) |
| DpEvaluator.SweepB | src/orchard.ts:145-178 | the loop over `b` from 0 to `a` fills the exact value of every tuple (a, b, ·, ·) |
| DpEvaluator.SweepCountdown | src/orchard.ts:123-180 | the loop over `a` from 1 to 4 fills the exact value of every sorted position with fruit left at one countdown; at countdown 0 that is the lose seeding |
| DpEvaluator.SeedWins | src/orchard.ts:118-121 | the table holds exactly the won positions with the raven on its way, each worth 1 |
| DpEvaluator.FillTable | src/orchard.ts:117-181 | the filled table holds the exact win probability of every sorted position except the all-zero one, and nothing else |
| DpEvaluator.CalculateWinChanceDP | src/orchard.ts:114-183 | the table's entry for the initial position is its win probability, the same value the recursive evaluator returns |

## Left out

- Floating point: probabilities are `real`. Both evaluators are proved exact in real arithmetic, which also makes them agree exactly. IEEE rounding of `sum / weight` is not modelled.
- The four `console.log` lines at the end of the file (lines 185-188): output only, with no logic.
- Arbitrary strategies: the source accepts any function from states to fruit indices. The model has the two strategies the source defines, as the datatype `Strategies.Strategy`. A strategy that picked an empty fruit would make the source decrement a counter below 0, and this is not modelled.
- The string-keyed records: both tables are keyed by the state itself. `GameStates.Key` models `memo`, and `GameStates.KeyInjective` shows that keying by the string is the same.
- Evaluation order in the DP: the lose positions are seeded by the same sweep as the positions in play (`DpEvaluator.SweepCountdown` at countdown 0, where `Store` writes 0). This fills the same set of positions, with the same values, in the same order as the source's separate lose loop.
- The DP table as a local variable: the source mutates a local record in place. The model reassigns a local `map`, because nothing outside the function can see the record.
- `Decrement` requires a positive argument. The source applies `decrement` only to the raven of a position in play and to a fruit counter that is positive.
- No comparison between the two strategies' values: the source only prints them.
