/** Runs of a step relation given as a total function. */
module Runs {

  ghost function Fold<S, A>(next: (S, A) -> S, s: S, steps: seq<A>): S {
    if steps == [] then s else next(Fold(next, s, steps[..|steps| - 1]), steps[|steps| - 1])
  }

  /** One step more. */
  lemma Then<S, A>(next: (S, A) -> S, s: S, steps: seq<A>, step: A) returns (longer: seq<A>)
    ensures longer == steps + [step] && Fold(next, s, longer) == next(Fold(next, s, steps), step)
  {
    longer := steps + [step];
    assert longer[..|steps|] == steps;
  }
}
