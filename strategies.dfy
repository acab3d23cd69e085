/**
 * The player's basket move: a strategy names the fruit position the basket
 * picks from. The two strategies of the game are the two cases of `Strategy`.
 */
module Strategies {
  import opened GameStates

  datatype Strategy = GreedyBasket | VarietyBasket

  /** Greedy basket: the emptiest kind still on its tree. */
  function GreedyChoice(s: GameState): (i: FruitIndex)
    ensures i > 0 ==> s.At(i) > 0
    ensures forall j: FruitIndex :: i < j ==> s.At(j) == 0
    ensures !IsWin(s) ==> s.At(i) > 0
  {
    if s.f3 > 0 then 3 else if s.f2 > 0 then 2 else if s.f1 > 0 then 1 else 0
  }

  /** Variety basket: always the fullest kind, position 0 of a sorted state. */
  function VarietyChoice(s: GameState): (i: FruitIndex)
    ensures Sorted(s) && !IsWin(s) ==> s.At(i) > 0
  {
    0
  }

  /** The position a strategy picks in `s`. */
  function Choice(strategy: Strategy, s: GameState): (i: FruitIndex)
    ensures Sorted(s) && !IsWin(s) ==> s.At(i) > 0
  {
    match strategy
    case GreedyBasket => GreedyChoice(s)
    case VarietyBasket => VarietyChoice(s)
  }

  /** The greedy strategy's scan from position 3 down to position 1. */
  method GreedyBasketStrategy(s: GameState) returns (i: FruitIndex)
    ensures i == GreedyChoice(s)
  {
    var k := 3;
    while k > 0
      invariant 0 <= k <= 3
      invariant forall j: FruitIndex :: k < j ==> s.At(j) == 0
    {
      if s.At(k) > 0 {
        return k;
      }
      k := k - 1;
    }
    return 0;
  }

  /** Applies a strategy, as the evaluators call it. */
  method Choose(strategy: Strategy, s: GameState) returns (i: FruitIndex)
    ensures i == Choice(strategy, s)
  {
    match strategy
    case GreedyBasket =>
      i := GreedyBasketStrategy(s);
    case VarietyBasket =>
      i := 0;
  }
}
