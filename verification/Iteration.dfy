/** Repeating a step function: laws that do not depend on the step. */
module Iteration {

  function Iterate<T>(step: T -> T, x: T, n: nat): T {
    if n == 0 then x else step(Iterate(step, x, n - 1))
  }

  lemma {:induction false} IterateAdds<T>(step: T -> T, x: T, m: nat, n: nat)
    ensures Iterate(step, Iterate(step, x, m), n) == Iterate(step, x, m + n)
  {
    if n > 0 {
      IterateAdds(step, x, m, n - 1);
    }
  }

  lemma OneMoreStep<T>(step: T -> T, x: T, n: nat, before: T, after: T)
    requires before == Iterate(step, x, n) && after == step(before)
    ensures after == Iterate(step, x, n + 1)
  {
  }

  lemma {:induction false} IterateFixed<T>(step: T -> T, x: T, n: nat)
    requires step(x) == x
    ensures Iterate(step, x, n) == x
  {
    if n > 0 {
      IterateFixed(step, x, n - 1);
    }
  }

  /** Two iterations that both stand still have reached the same place. */
  lemma OneRestingPlace<T>(step: T -> T, x: T, m: nat, n: nat)
    requires step(Iterate(step, x, m)) == Iterate(step, x, m)
    requires step(Iterate(step, x, n)) == Iterate(step, x, n)
    ensures Iterate(step, x, m) == Iterate(step, x, n)
  {
    IterateAdds(step, x, m, n);
    IterateAdds(step, x, n, m);
    IterateFixed(step, Iterate(step, x, m), n);
    IterateFixed(step, Iterate(step, x, n), m);
  }

  /** What one step keeps, every iteration keeps. */
  lemma {:induction false} IterateKeeps<T(!new)>(step: T -> T, good: T -> bool, x: T, n: nat)
    requires good(x)
    requires forall y :: good(y) ==> good(step(y))
    ensures good(Iterate(step, x, n))
  {
    if n > 0 {
      IterateKeeps(step, good, x, n - 1);
    }
  }

  /** A step that lowers a measure unless it stands still has stood still by then. */
  lemma {:induction false} IterateRests<T(!new)>(step: T -> T, good: T -> bool, left: T -> nat, x: T, n: nat)
    requires good(x) && left(x) <= n
    requires forall y :: good(y) ==> good(step(y)) && (step(y) == y || left(step(y)) < left(y))
    ensures step(Iterate(step, x, n)) == Iterate(step, x, n)
    decreases n
  {
    if step(x) == x {
      IterateFixed(step, x, n);
    } else {
      assert Iterate(step, x, 1) == step(x) by {
        assert Iterate(step, x, 0) == x;
      }
      IterateAdds(step, x, 1, n - 1);
      IterateRests(step, good, left, step(x), n - 1);
    }
  }

  /** The state after a sequence of steps. */
  function Run<S, C>(take: (S, C) -> S, s: S, steps: seq<C>): S {
    if steps == [] then s else take(Run(take, s, steps[..|steps| - 1]), steps[|steps| - 1])
  }

  lemma {:induction false} RunsCompose<S, C>(take: (S, C) -> S, s: S, steps: seq<C>, later: seq<C>)
    ensures Run(take, s, steps + later) == Run(take, Run(take, s, steps), later)
  {
    if later == [] {
      assert steps + later == steps;
    } else {
      RunsCompose(take, s, steps, later[..|later| - 1]);
      assert (steps + later)[..|steps + later| - 1] == steps + later[..|later| - 1];
    }
  }

  /** Running one more step is taking it afterwards. */
  lemma RunsOneMore<S, C>(take: (S, C) -> S, s: S, steps: seq<C>, step: C)
    ensures Run(take, s, steps + [step]) == take(Run(take, s, steps), step)
  {
    assert (steps + [step])[..|steps|] == steps;
  }
}
