/** Running a sequence of steps, one after the other. */
module Traces {
  function Fold<S, T>(f: (S, T) -> S, s: S, steps: seq<T>): S {
    if steps == [] then s else f(Fold(f, s, steps[..|steps| - 1]), steps[|steps| - 1])
  }

  /** The first step may as well be taken first. */
  lemma {:induction false} FoldHead<S, T>(f: (S, T) -> S, s: S, step: T, rest: seq<T>)
    ensures Fold(f, s, [step] + rest) == Fold(f, f(s, step), rest)
    decreases |rest|
  {
    if rest == [] {
      assert ([step] + rest)[..0] == [];
    } else {
      FoldHead(f, s, step, rest[..|rest| - 1]);
      assert ([step] + rest)[..|rest|] == [step] + rest[..|rest| - 1];
    }
  }

  lemma FoldTwo<S, T>(f: (S, T) -> S, s: S, a: T, b: T, rest: seq<T>)
    ensures Fold(f, s, [a, b] + rest) == Fold(f, f(f(s, a), b), rest)
  {
    FoldHead(f, s, a, [b] + rest);
    FoldHead(f, f(s, a), b, rest);
    assert [a] + ([b] + rest) == [a, b] + rest;
  }

  lemma FoldThree<S, T>(f: (S, T) -> S, s: S, a: T, b: T, c: T)
    ensures Fold(f, s, [a, b, c]) == f(f(f(s, a), b), c)
  {
    FoldTwo(f, s, a, b, [c]);
    FoldHead(f, f(f(s, a), b), c, []);
    assert [a, b] + [c] == [a, b, c] && [c] + [] == [c];
  }
}
