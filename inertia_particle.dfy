/**
 * The inertia particle: before the classic rule, every speed is scaled by
 * an inertia weight that falls linearly from InertiaMax at iteration 0 to
 * InertiaMin at InertiaMaxTime. The particle counts its own iterations.
 */
module InertiaParticles {
  import opened Wrappers
  import opened ClassicSolutions
  import opened Particles

  /** The weight as the source computes it: `(InertiaMaxTime -
      CurrentIteration) / InertiaMaxTime` divides two unsigned integers,
      and from InertiaMaxTime on the weight stays at its initial
      InertiaMax. */
  function InertiaWeightAsWritten(inertiaMax: real, inertiaMin: real, inertiaMaxTime: nat, currentIteration: nat): real
  {
    if currentIteration < inertiaMaxTime then
      ((inertiaMaxTime - currentIteration) / inertiaMaxTime) as real * (inertiaMax - inertiaMin) + inertiaMin
    else inertiaMax
  }

  /** The integer division loses the ramp: with Max 1, Min 0 and a horizon
      of 10, iteration 1 already gives the minimum instead of 0.9. */
  lemma AsWrittenLosesRamp()
    ensures InertiaWeightAsWritten(1.0, 0.0, 10, 1) == 0.0
    ensures InertiaWeight(1.0, 0.0, 10, 1) == 0.9
  {
  }

  /** From the horizon on, the written code jumps back to the maximum,
      where the documented behaviour is the minimum. */
  lemma AsWrittenJumpsBackAfterHorizon()
    ensures InertiaWeightAsWritten(1.0, 0.0, 10, 9) == 0.0
    ensures InertiaWeightAsWritten(1.0, 0.0, 10, 10) == 1.0
    ensures InertiaWeight(1.0, 0.0, 10, 10) == 0.0
  {
  }

  /** The inertia weight: real division along the ramp, InertiaMin from
      the horizon on. */
  function InertiaWeight(inertiaMax: real, inertiaMin: real, inertiaMaxTime: nat, currentIteration: nat): (w: real)
    ensures currentIteration == 0 && inertiaMaxTime > 0 ==> w == inertiaMax
    ensures currentIteration >= inertiaMaxTime ==> w == inertiaMin
    ensures inertiaMin <= inertiaMax ==> inertiaMin <= w <= inertiaMax
    ensures inertiaMin < inertiaMax && currentIteration < inertiaMaxTime ==> inertiaMin < w
  {
    if currentIteration < inertiaMaxTime then
      var fraction := (inertiaMaxTime - currentIteration) as real / inertiaMaxTime as real;
      assert 0.0 < fraction <= 1.0;
      FractionOfRange(fraction, inertiaMax - inertiaMin);
      fraction * (inertiaMax - inertiaMin) + inertiaMin
    else inertiaMin
  }

  lemma FractionOfRange(fraction: real, range: real)
    requires 0.0 < fraction <= 1.0
    ensures range >= 0.0 ==> 0.0 <= fraction * range <= range
    ensures range > 0.0 ==> 0.0 < fraction * range
  {
    if range > 0.0 {
      assert fraction * range <= 1.0 * range;
    }
  }

  /** With Max 1, Min 0 and a horizon of 10 the weight is (10 - t) / 10. */
  lemma InertiaRamp(t: nat)
    requires t < 10
    ensures InertiaWeight(1.0, 0.0, 10, t) == (10.0 - t as real) / 10.0
  {
  }

  /** The weight never grows from one iteration to a later one. */
  lemma {:induction false} InertiaWeightNonIncreasing(inertiaMax: real, inertiaMin: real, inertiaMaxTime: nat, t1: nat, t2: nat)
    requires inertiaMin <= inertiaMax && t1 <= t2
    ensures InertiaWeight(inertiaMax, inertiaMin, inertiaMaxTime, t2) <= InertiaWeight(inertiaMax, inertiaMin, inertiaMaxTime, t1)
  {
    if t2 < inertiaMaxTime {
      var T := inertiaMaxTime as real;
      var f1 := (inertiaMaxTime - t1) as real / T;
      var f2 := (inertiaMaxTime - t2) as real / T;
      assert (inertiaMaxTime - t2) as real <= (inertiaMaxTime - t1) as real;
      assert f2 <= f1 by { DivideMonotone((inertiaMaxTime - t2) as real, (inertiaMaxTime - t1) as real, T); }
      MultiplyMonotone(f2, f1, inertiaMax - inertiaMin);
    }
  }

  lemma DivideMonotone(a: real, b: real, d: real)
    requires a <= b && d > 0.0
    ensures a / d <= b / d
  {
    assert b / d - a / d == (b - a) / d;
  }

  lemma MultiplyMonotone(a: real, b: real, c: real)
    requires a <= b && c >= 0.0
    ensures a * c <= b * c
  {
    assert b * c - a * c == (b - a) * c;
  }

  /** Component i of the inertia rule: the weighted old speed plus both
      classic pulls. */
  lemma InertiaSpeedsAt(speeds: seq<real>, parameters: seq<real>, sp: SpeedParameters, w: real, i: nat)
    requires Covers(speeds, parameters, sp) && i < |parameters|
    ensures Covers(Scale(speeds, w), parameters, sp)
    ensures ClassicSpeeds(Scale(speeds, w), parameters, sp)[i] ==
      w * speeds[i]
      + CalculateInfluence(parameters[i], sp.PersonalBestSolution[i], sp.PersonalBestBias, sp.RandomListPersonal[i])
      + CalculateInfluence(parameters[i], sp.GlobalBestSolution[i], sp.GlobalBestBias, sp.RandomListGlobal[i])
  {
  }

  class InertiaParticle {
    /** The classic part of this particle. */
    const Base: ClassicParticle
    var InertiaMax: real
    var InertiaMin: real
    var InertiaMaxTime: nat
    var CurrentIteration: nat

    /** Builds the classic part and stores the inertia settings; the
        iteration counter starts at 0. */
    constructor (speeds: seq<real>, solution: ClassicSolution, inertiaMax: real, inertiaMin: real, inertiaMaxTime: nat)
      ensures fresh(Base) && fresh(Base.PersonalBestSolution) && Base.Valid()
      ensures Base.Id == CurrentId && Base.Speeds == speeds && Base.CurrentSolution == solution
      ensures Base.PersonalBestSolution.Parameters == solution.Parameters
      ensures Base.PersonalBestSolution.Fitness == solution.Fitness
      ensures Base.SpeedParameters == None
      ensures InertiaMax == inertiaMax && InertiaMin == inertiaMin && InertiaMaxTime == inertiaMaxTime
      ensures CurrentIteration == 0
    {
      Base := new ClassicParticle(speeds, solution);
      InertiaMax := inertiaMax;
      InertiaMin := inertiaMin;
      InertiaMaxTime := inertiaMaxTime;
      CurrentIteration := 0;
    }

    function CurrentInertia(): real
      reads this
    {
      InertiaWeight(InertiaMax, InertiaMin, InertiaMaxTime, CurrentIteration)
    }

    /** Scales every speed by the current weight in place, then applies the
        classic rule. */
    method UpdateSpeeds(parameters: SpeedParameters)
      requires Covers(Base.Speeds, Base.CurrentSolution.Parameters, parameters)
      modifies Base`Speeds
      ensures Covers(Scale(old(Base.Speeds), CurrentInertia()), Base.CurrentSolution.Parameters, parameters)
      ensures Base.Speeds == ClassicSpeeds(Scale(old(Base.Speeds), CurrentInertia()), Base.CurrentSolution.Parameters, parameters)
    {
      var currentInertia := CurrentInertia();
      var speeds := Base.Speeds;
      for i := 0 to |speeds|
        invariant |speeds| == |old(Base.Speeds)|
        invariant forall k :: 0 <= k < i ==> speeds[k] == old(Base.Speeds)[k] * currentInertia
        invariant forall k :: i <= k < |speeds| ==> speeds[k] == old(Base.Speeds)[k]
      {
        speeds := speeds[i := speeds[i] * currentInertia];
      }
      assert forall k :: 0 <= k < |speeds| ==> speeds[k] == Scale(old(Base.Speeds), currentInertia)[k];
      Base.Speeds := speeds;
      Base.UpdateSpeeds(parameters);
    }

    /** One iteration: the inertia speed update with the stored snapshot,
        then the solution update of the classic part. */
    method Iterate() returns (status: Status)
      requires Base.Valid() && Base.SpeedParameters.Some?
      requires Covers(Base.Speeds, Base.CurrentSolution.Parameters, Base.SpeedParameters.value)
      modifies Base`Speeds, Base`PersonalBestSolution, Base.CurrentSolution`Parameters, Base.CurrentSolution`Fitness
      ensures Base.Valid()
      ensures Covers(Scale(old(Base.Speeds), CurrentInertia()), old(Base.CurrentSolution.Parameters), Base.SpeedParameters.value)
      ensures var speeds := ClassicSpeeds(Scale(old(Base.Speeds), CurrentInertia()), old(Base.CurrentSolution.Parameters), Base.SpeedParameters.value);
        var moved := old(Base.State()).(Speeds := speeds);
        var r := SolutionStep(moved, Base.CurrentSolution.MinimumParameterThreshold,
                              Base.CurrentSolution.MaximumParameterThreshold, Base.CurrentSolution.RunSolution);
        && (status.Threw? <==> r.Failure?)
        && (r.Failure? ==> status == Threw(r.exception) && Base.State() == moved)
        && (r.Success? ==> Base.State() == r.value)
    {
      UpdateSpeeds(Base.SpeedParameters.value);
      status := Base.UpdateSolution();
    }

    /** Stores the snapshot and counts one more iteration. */
    method SetSpeedParameters(parameters: SpeedParameters)
      modifies Base`SpeedParameters, this`CurrentIteration
      ensures Base.SpeedParameters == Some(parameters)
      ensures CurrentIteration == old(CurrentIteration) + 1
    {
      Base.SetSpeedParameters(parameters);
      CurrentIteration := CurrentIteration + 1;
    }
  }
}
