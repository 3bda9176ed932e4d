/** Option and Result, both usable with `:-`. */
module Wrappers {

  datatype Option<+T> = None | Some(value: T)

  datatype Result<+T, +E> = Ok(value: T) | Err(error: E) {
    predicate IsFailure() {
      Err?
    }

    function PropagateFailure<U>(): Result<U, E>
      requires Err?
    {
      Err(error)
    }

    function Extract(): T
      requires Ok?
    {
      value
    }
  }
}

/** Running a partial step over a list, left to right, stopping at the first error. */
module Folds {
  import opened Wrappers

  function Fold<M, V, X>(step: (M, V) -> Result<M, X>, m: M, moves: seq<V>): Result<M, X>
    decreases |moves|
  {
    if moves == [] then Ok(m)
    else
      var next :- step(m, moves[0]);
      Fold(step, next, moves[1..])
  }

  lemma FoldCons<M, V, X>(step: (M, V) -> Result<M, X>, m: M, move: V, rest: seq<V>)
    ensures Fold(step, m, [move] + rest)
         == if step(m, move).Ok? then Fold(step, step(m, move).value, rest) else step(m, move)
  {
    assert ([move] + rest)[1..] == rest;
  }

  /** A run of two lists is the run of the second from where the first ends. */
  lemma {:induction false} FoldAppend<M, V, X>(step: (M, V) -> Result<M, X>, m: M, first: seq<V>, second: seq<V>)
    ensures Fold(step, m, first + second)
         == if Fold(step, m, first).Ok? then Fold(step, Fold(step, m, first).value, second) else Fold(step, m, first)
    decreases |first|
  {
    if first == [] {
      assert first + second == second;
    } else {
      assert (first + second)[1..] == first[1..] + second;
      var next := step(m, first[0]);
      if next.Ok? {
        FoldAppend(step, next.value, first[1..], second);
      }
    }
  }

  lemma FoldSnoc<M, V, X>(step: (M, V) -> Result<M, X>, m: M, before: seq<V>, move: V)
    ensures Fold(step, m, before + [move])
         == if Fold(step, m, before).Ok? then step(Fold(step, m, before).value, move) else Fold(step, m, before)
  {
    FoldAppend(step, m, before, [move]);
    assert [move][1..] == [];
    if Fold(step, m, before).Ok? {
      FoldCons(step, Fold(step, m, before).value, move, []);
      assert [move] + [] == [move];
    }
  }

  /** Folds whose steps agree on their lists' elements agree. */
  lemma {:induction false} FoldAgrees<M(!new), V, W, X>(
      step: (M, V) -> Result<M, X>, moves: seq<V>, other: (M, W) -> Result<M, X>, turns: seq<W>, m: M)
    requires |moves| == |turns|
    requires forall x: M, i :: 0 <= i < |moves| ==> step(x, moves[i]) == other(x, turns[i])
    ensures Fold(step, m, moves) == Fold(other, m, turns)
    decreases |moves|
  {
    if moves != [] {
      var next := step(m, moves[0]);
      if next.Ok? {
        FoldAgrees(step, moves[1..], other, turns[1..], next.value);
      }
    }
  }

  /** In a fold that ends well, every element is stepped over well. */
  lemma {:induction false} FoldStepsOk<M, V, X>(step: (M, V) -> Result<M, X>, m: M, moves: seq<V>, i: nat)
    requires Fold(step, m, moves).Ok? && i < |moves|
    ensures Fold(step, m, moves[..i]).Ok?
    ensures step(Fold(step, m, moves[..i]).value, moves[i]).Ok?
    ensures Fold(step, m, moves[..i + 1]) == step(Fold(step, m, moves[..i]).value, moves[i])
  {
    assert moves == moves[..i] + moves[i..];
    FoldAppend(step, m, moves[..i], moves[i..]);
    assert moves[..i + 1] == moves[..i] + [moves[i]];
    FoldSnoc(step, m, moves[..i], moves[i]);
  }
}

/** Lists as sets. */
module Lists {

  function Members<T>(items: seq<T>): set<T> {
    set x | x in items
  }

  predicate NoRepeats<T(==)>(items: seq<T>) {
    forall i, j :: 0 <= i < j < |items| ==> items[i] != items[j]
  }
}

/** Division by a variable, which the verifier does not know. */
module Arithmetic {

  lemma MulAtLeast(x: int, b: int)
    requires x >= 1 && b >= 1
    ensures x * b >= b
  {
  }

  lemma DivisionIsUnique(x: int, b: int, q: int, r: int)
    requires 0 <= r < b && x == q * b + r
    ensures x % b == r && x / b == q
  {
    var d := x / b - q;
    assert d * b == (x / b) * b - q * b;
    if d >= 1 {
      MulAtLeast(d, b);
    } else if d <= -1 {
      MulAtLeast(-d, b);
    }
  }
}
