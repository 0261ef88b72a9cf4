// Runs of a state machine that is given by its step function.

module Runs {
  function Run<S, A>(step: (S, A) -> S, s: S, actions: seq<A>): S {
    if actions == [] then s else step(Run(step, s, actions[..|actions| - 1]), actions[|actions| - 1])
  }

  lemma RunAppend<S, A>(step: (S, A) -> S, s: S, actions: seq<A>, a: A)
    ensures Run(step, s, actions + [a]) == step(Run(step, s, actions), a)
  {
    assert (actions + [a])[..|actions|] == actions;
  }

  lemma {:induction false} RunConcat<S, A>(step: (S, A) -> S, s: S, xs: seq<A>, ys: seq<A>)
    ensures Run(step, s, xs + ys) == Run(step, Run(step, s, xs), ys)
  {
    if ys == [] {
      assert xs + ys == xs;
    } else {
      var front, last := ys[..|ys| - 1], ys[|ys| - 1];
      RunConcat(step, s, xs, front);
      assert xs + ys == (xs + front) + [last];
      RunAppend(step, s, xs + front, last);
    }
  }

  lemma RunCons<S, A>(step: (S, A) -> S, s: S, a: A, rest: seq<A>)
    ensures Run(step, s, [a] + rest) == Run(step, step(s, a), rest)
  {
    RunConcat(step, s, [a], rest);
    RunAppend(step, s, [], a);
    assert [] + [a] == [a];
  }

  lemma RunAround<S, A>(step: (S, A) -> S, s: S, xs: seq<A>, a: A, ys: seq<A>)
    ensures Run(step, s, xs + [a] + ys) == Run(step, step(Run(step, s, xs), a), ys)
  {
    RunAppend(step, s, xs, a);
    RunConcat(step, s, xs + [a], ys);
  }

  lemma RunTwo<S, A>(step: (S, A) -> S, s: S, xs: seq<A>, a: A, b: A)
    ensures Run(step, s, xs + [a, b]) == step(step(Run(step, s, xs), a), b)
  {
    RunAppend(step, s, xs, a);
    RunAppend(step, s, xs + [a], b);
    assert xs + [a] + [b] == xs + [a, b];
  }

  lemma Run3<S, A>(step: (S, A) -> S, s: S, a: A, b: A, c: A)
    ensures Run(step, s, [a, b, c]) == step(step(step(s, a), b), c)
  {
    RunAppend(step, s, [], a);
    RunAppend(step, s, [a], b);
    RunAppend(step, s, [a, b], c);
    assert [] + [a] == [a] && [a] + [b] == [a, b] && [a, b] + [c] == [a, b, c];
  }

  lemma Run4<S, A>(step: (S, A) -> S, s: S, a: A, b: A, c: A, d: A)
    ensures Run(step, s, [a, b, c, d]) == step(step(step(step(s, a), b), c), d)
  {
    Run3(step, s, a, b, c);
    RunAppend(step, s, [a, b, c], d);
    assert [a, b, c] + [d] == [a, b, c, d];
  }

  lemma Run5<S, A>(step: (S, A) -> S, s: S, a: A, b: A, c: A, d: A, e: A)
    ensures Run(step, s, [a, b, c, d, e]) == step(step(step(step(step(s, a), b), c), d), e)
  {
    Run4(step, s, a, b, c, d);
    RunAppend(step, s, [a, b, c, d], e);
    assert [a, b, c, d] + [e] == [a, b, c, d, e];
  }

  function Repeat<A>(a: A, k: nat): (r: seq<A>)
    ensures forall x :: x in r ==> x == a
  {
    if k == 0 then [] else Repeat(a, k - 1) + [a]
  }
}
