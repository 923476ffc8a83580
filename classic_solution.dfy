/**
 * ClassicSolution: a parameter vector with its fitness, clamping bounds
 * and evaluation function. The velocity step adds speeds element by
 * element and clamps each result into [Minimum, Maximum].
 */
module ClassicSolutions {
  import opened Wrappers

  /** One component after a velocity step. The upper bound is tested
      first, so when min > max every value above max becomes max. */
  function Clamp(v: real, min: real, max: real): (r: real)
    ensures min <= max ==> min <= r <= max
    ensures min <= v <= max ==> r == v
    ensures v > max ==> r == max
    ensures v < min && v <= max ==> r == min
  {
    if v > max then max else if v < min then min else v
  }

  /** The parameter vector after adding `speeds` and clamping. */
  function ClampAdd(parameters: seq<real>, speeds: seq<real>, min: real, max: real): seq<real>
    requires |speeds| == |parameters|
  {
    seq(|parameters|, i requires 0 <= i < |parameters| => Clamp(parameters[i] + speeds[i], min, max))
  }

  /** With ordered bounds the step keeps the length and lands every
      component inside the bounds. */
  lemma ClampAddWithinBounds(parameters: seq<real>, speeds: seq<real>, min: real, max: real)
    requires |speeds| == |parameters| && min <= max
    ensures |ClampAdd(parameters, speeds, min, max)| == |parameters|
    ensures forall i :: 0 <= i < |parameters| ==> min <= ClampAdd(parameters, speeds, min, max)[i] <= max
  {
  }

  /** Component i depends on old component i and speed i only. */
  lemma ClampAddIsLocal(p: seq<real>, s: seq<real>, q: seq<real>, t: seq<real>, min: real, max: real, i: nat)
    requires |s| == |p| && |t| == |q| && i < |p| && i < |q|
    requires p[i] == q[i] && s[i] == t[i]
    ensures ClampAdd(p, s, min, max)[i] == ClampAdd(q, t, min, max)[i]
  {
  }

  /** Bounds [0, 100], parameters [0, 2, 0, 100], speeds [1, -1, -1, 1]. */
  lemma ClampAddExample()
    ensures ClampAdd([0.0, 2.0, 0.0, 100.0], [1.0, -1.0, -1.0, 1.0], 0.0, 100.0) == [1.0, 1.0, 0.0, 100.0]
  {
  }

  /** With min > max the if/else-if order gives no bound: a value above
      max lands below min, one below both lands above max. */
  lemma ClampWithCrossedBounds()
    ensures Clamp(5.0, 10.0, 0.0) == 0.0
    ensures Clamp(-5.0, 10.0, 0.0) == 10.0
  {
  }

  class ClassicSolution {
    var Parameters: seq<real>
    var Fitness: real
    /** The evaluation function, its auxiliary data folded in. */
    const RunSolution: seq<real> -> real
    const MinimumParameterThreshold: real
    const MaximumParameterThreshold: real

    /** Four-argument constructor: sets the function and the bounds,
        neither sets parameters (null in the source, empty here) nor
        evaluates (Fitness keeps its default 0). */
    constructor Empty(runSolution: seq<real> -> real, minParameter: real, maxParameter: real)
      ensures Parameters == [] && Fitness == 0.0
      ensures RunSolution == runSolution
      ensures MinimumParameterThreshold == minParameter && MaximumParameterThreshold == maxParameter
    {
      Parameters := [];
      Fitness := 0.0;
      RunSolution := runSolution;
      MinimumParameterThreshold := minParameter;
      MaximumParameterThreshold := maxParameter;
    }

    /** Five-argument constructor: stores the parameters and evaluates
        them at once. */
    constructor (parameters: seq<real>, runSolution: seq<real> -> real, minParameter: real, maxParameter: real)
      ensures Parameters == parameters && Fitness == runSolution(parameters)
      ensures RunSolution == runSolution
      ensures MinimumParameterThreshold == minParameter && MaximumParameterThreshold == maxParameter
    {
      Parameters := parameters;
      RunSolution := runSolution;
      MinimumParameterThreshold := minParameter;
      MaximumParameterThreshold := maxParameter;
      Fitness := runSolution(parameters);
    }

    /** Strictly greater fitness; a tie is not better. */
    predicate BetterThan(other: ClassicSolution)
      reads this, other
    {
      Fitness > other.Fitness
    }

    /** Re-evaluates the current parameters. */
    method UpdateFitness()
      modifies this`Fitness
      ensures Fitness == RunSolution(Parameters)
    {
      Fitness := RunSolution(Parameters);
    }

    /** Adds `speeds` in place and clamps each component; throws before
        touching anything when the lengths differ. Fitness is not touched. */
    method UpdateParameters(speeds: seq<real>) returns (status: Status)
      modifies this`Parameters
      ensures status == if |speeds| != |old(Parameters)| then Threw(InvalidOperation) else Completed
      ensures status.Threw? ==> Parameters == old(Parameters)
      ensures status.Completed? ==>
        Parameters == ClampAdd(old(Parameters), speeds, MinimumParameterThreshold, MaximumParameterThreshold)
    {
      if |speeds| != |Parameters| {
        return Threw(InvalidOperation);
      }
      for index := 0 to |Parameters|
        invariant |Parameters| == |old(Parameters)|
        invariant forall k :: 0 <= k < index ==>
          Parameters[k] == Clamp(old(Parameters)[k] + speeds[k], MinimumParameterThreshold, MaximumParameterThreshold)
        invariant forall k :: index <= k < |Parameters| ==> Parameters[k] == old(Parameters)[k]
      {
        Parameters := Parameters[index := Parameters[index] + speeds[index]];
        if Parameters[index] > MaximumParameterThreshold {
          Parameters := Parameters[index := MaximumParameterThreshold];
        } else if Parameters[index] < MinimumParameterThreshold {
          Parameters := Parameters[index := MinimumParameterThreshold];
        }
      }
      status := Completed;
    }

    /** A new solution with the same parameters, fitness (copied, not
        re-evaluated), bounds and function. */
    method Copy() returns (copy: ClassicSolution)
      ensures fresh(copy)
      ensures copy.Parameters == Parameters && copy.Fitness == Fitness
      ensures copy.RunSolution == RunSolution
      ensures copy.MinimumParameterThreshold == MinimumParameterThreshold
      ensures copy.MaximumParameterThreshold == MaximumParameterThreshold
    {
      copy := new ClassicSolution.Empty(RunSolution, MinimumParameterThreshold, MaximumParameterThreshold);
      copy.Parameters := Parameters;
      copy.Fitness := Fitness;
    }
  }

  /** A copy keeps the parameters and fitness it was taken with when the
      original is then moved and re-evaluated. */
  method CopyIsIndependent(original: ClassicSolution, speeds: seq<real>) returns (copy: ClassicSolution)
    modifies original
    ensures fresh(copy)
    ensures copy.Parameters == old(original.Parameters) && copy.Fitness == old(original.Fitness)
    ensures |speeds| == |old(original.Parameters)| ==>
      original.Parameters == ClampAdd(old(original.Parameters), speeds,
                                      original.MinimumParameterThreshold, original.MaximumParameterThreshold)
  {
    copy := original.Copy();
    var _ := original.UpdateParameters(speeds);
    original.UpdateFitness();
  }

  /** BetterThan is a strict order on solutions, and a tie is never
      better. */
  lemma BetterThanIsStrict(a: ClassicSolution, b: ClassicSolution, c: ClassicSolution)
    ensures !a.BetterThan(a)
    ensures a.BetterThan(b) ==> !b.BetterThan(a)
    ensures a.BetterThan(b) && b.BetterThan(c) ==> a.BetterThan(c)
    ensures a.Fitness == b.Fitness ==> !a.BetterThan(b)
  {
  }
}
