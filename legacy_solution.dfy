/**
 * The earlier Solution: the parameters are rewritten in place, index by
 * index, by a caller-supplied function of the speed parameter and the
 * old value.
 */
module LegacySolutions {
  import opened Wrappers

  /** Component i is `updateFunc(speedParameters[i], parameters[i])`. */
  function MapPairs<S>(speedParameters: seq<S>, parameters: seq<real>, updateFunc: (S, real) -> real): seq<real>
    requires |speedParameters| == |parameters|
  {
    seq(|parameters|, i requires 0 <= i < |parameters| => updateFunc(speedParameters[i], parameters[i]))
  }

  /** Index i of the result depends on index i of the inputs only. */
  lemma MapPairsIsLocal<S>(s: seq<S>, p: seq<real>, t: seq<S>, q: seq<real>, f: (S, real) -> real, i: nat)
    requires |s| == |p| && |t| == |q| && i < |p| && i < |q|
    requires s[i] == t[i] && p[i] == q[i]
    ensures MapPairs(s, p, f)[i] == MapPairs(t, q, f)[i]
  {
  }

  class Solution {
    var Parameters: seq<real>
    var Fitness: real

    constructor (parameters: seq<real>, fitness: real)
      ensures Parameters == parameters && Fitness == fitness
    {
      Parameters := parameters;
      Fitness := fitness;
    }

    /** Strictly greater fitness; a tie is not better. */
    predicate BetterThan(other: Solution)
      reads this, other
    {
      Fitness > other.Fitness
    }

    /** Throws on a length mismatch with nothing changed; otherwise each
        component is replaced by `updateFunc` of its speed parameter and
        its old value, the length kept. */
    method UpdateParameters<S>(speedParameters: seq<S>, updateFunc: (S, real) -> real) returns (status: Status)
      modifies this`Parameters
      ensures status == if |speedParameters| != |old(Parameters)| then Threw(InvalidOperation) else Completed
      ensures status.Threw? ==> Parameters == old(Parameters)
      ensures status.Completed? ==> Parameters == MapPairs(speedParameters, old(Parameters), updateFunc)
    {
      if |speedParameters| != |Parameters| {
        return Threw(InvalidOperation);
      }
      for index := 0 to |Parameters|
        invariant |Parameters| == |old(Parameters)|
        invariant forall k :: 0 <= k < index ==> Parameters[k] == updateFunc(speedParameters[k], old(Parameters)[k])
        invariant forall k :: index <= k < |Parameters| ==> Parameters[k] == old(Parameters)[k]
      {
        Parameters := Parameters[index := updateFunc(speedParameters[index], Parameters[index])];
      }
      status := Completed;
    }
  }
}
