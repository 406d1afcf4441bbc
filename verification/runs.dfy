/** Runs of a state machine, and the states they pass through. */
module Runs {
  predicate IsStep<S(==), C>(apply: (S, C) -> S, cs: seq<C>, ss: seq<S>, k: int) {
    0 <= k < |cs| && k + 1 < |ss| && ss[k + 1] == apply(ss[k], cs[k])
  }

  /** `ss` are the states that the commands pass through. */
  ghost predicate Passes<S, C>(apply: (S, C) -> S, start: S, cs: seq<C>, ss: seq<S>) {
    |ss| == |cs| + 1 && ss[0] == start && forall k :: 0 <= k < |cs| ==> IsStep(apply, cs, ss, k)
  }

  function StatesOf<S, C>(run: seq<C> -> S, cs: seq<C>): seq<S> {
    seq(|cs| + 1, (k: int) requires 0 <= k <= |cs| => run(cs[..k]))
  }

  /** The run's states after each prefix of its commands are the states it passes through. */
  lemma StatesPass<S, C>(apply: (S, C) -> S, run: seq<C> -> S, cs: seq<C>)
    requires forall k :: 0 <= k < |cs| ==> run(cs[..k + 1]) == apply(run(cs[..k]), cs[k])
    ensures Passes(apply, run([]), cs, StatesOf(run, cs)) && StatesOf(run, cs)[|cs|] == run(cs)
  {
    forall k | 0 <= k < |cs|
      ensures IsStep(apply, cs, StatesOf(run, cs), k)
    {
      assert run(cs[..k + 1]) == apply(run(cs[..k]), cs[k]);
    }
    assert cs[..|cs|] == cs && cs[..0] == [];
  }
}
