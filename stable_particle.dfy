/**
 * The stable (constriction) particle: the classic rule, then every speed
 * multiplied by the swarm's constriction factor.
 */
module StableParticles {
  import opened Wrappers
  import opened ClassicSolutions
  import opened Particles

  /** With a factor of 1 the stable rule is the classic rule. */
  lemma UnitConstraintIsClassic(speeds: seq<real>, parameters: seq<real>, sp: SpeedParameters)
    requires Covers(speeds, parameters, sp)
    ensures Scale(ClassicSpeeds(speeds, parameters, sp), 1.0) == ClassicSpeeds(speeds, parameters, sp)
  {
    ScaleByOne(ClassicSpeeds(speeds, parameters, sp));
  }

  /** Component i of the stable rule: the factor times the classic speed. */
  lemma StableSpeedsAt(speeds: seq<real>, parameters: seq<real>, sp: SpeedParameters, constraint: real, i: nat)
    requires Covers(speeds, parameters, sp) && i < |parameters|
    ensures |Scale(ClassicSpeeds(speeds, parameters, sp), constraint)| == |speeds|
    ensures Scale(ClassicSpeeds(speeds, parameters, sp), constraint)[i] ==
      constraint * (speeds[i]
      + CalculateInfluence(parameters[i], sp.PersonalBestSolution[i], sp.PersonalBestBias, sp.RandomListPersonal[i])
      + CalculateInfluence(parameters[i], sp.GlobalBestSolution[i], sp.GlobalBestBias, sp.RandomListGlobal[i]))
  {
  }

  class StableParticle {
    /** The classic part of this particle. */
    const Base: ClassicParticle
    /** The constriction factor, computed once by the swarm. */
    var Constraint: real

    /** The classic fill, then the factor from the creation parameters. */
    constructor (speeds: seq<real>, solution: ClassicSolution, constraint: real)
      ensures fresh(Base) && fresh(Base.PersonalBestSolution) && Base.Valid()
      ensures Base.Id == CurrentId && Base.Speeds == speeds && Base.CurrentSolution == solution
      ensures Base.PersonalBestSolution.Parameters == solution.Parameters
      ensures Base.PersonalBestSolution.Fitness == solution.Fitness
      ensures Base.SpeedParameters == None
      ensures Constraint == constraint
    {
      Base := new ClassicParticle(speeds, solution);
      Constraint := constraint;
    }

    /** The classic rule, then every speed multiplied by the factor in
        place; the length and the factor are kept. */
    method UpdateSpeeds(parameters: SpeedParameters)
      requires Covers(Base.Speeds, Base.CurrentSolution.Parameters, parameters)
      modifies Base`Speeds
      ensures Base.Speeds == Scale(ClassicSpeeds(old(Base.Speeds), Base.CurrentSolution.Parameters, parameters), Constraint)
    {
      Base.UpdateSpeeds(parameters);
      var speeds := Base.Speeds;
      ghost var classic := speeds;
      for i := 0 to |speeds|
        invariant |speeds| == |classic|
        invariant forall k :: 0 <= k < i ==> speeds[k] == classic[k] * Constraint
        invariant forall k :: i <= k < |speeds| ==> speeds[k] == classic[k]
      {
        speeds := speeds[i := speeds[i] * Constraint];
      }
      assert forall k :: 0 <= k < |speeds| ==> speeds[k] == Scale(classic, Constraint)[k];
      Base.Speeds := speeds;
    }

    /** One iteration: the stable speed update with the stored snapshot,
        then the solution update of the classic part. */
    method Iterate() returns (status: Status)
      requires Base.Valid() && Base.SpeedParameters.Some?
      requires Covers(Base.Speeds, Base.CurrentSolution.Parameters, Base.SpeedParameters.value)
      modifies Base`Speeds, Base`PersonalBestSolution, Base.CurrentSolution`Parameters, Base.CurrentSolution`Fitness
      ensures Base.Valid()
      ensures var speeds := Scale(ClassicSpeeds(old(Base.Speeds), old(Base.CurrentSolution.Parameters), Base.SpeedParameters.value), Constraint);
        var moved := old(Base.State()).(Speeds := speeds);
        var r := SolutionStep(moved, Base.CurrentSolution.MinimumParameterThreshold,
                              Base.CurrentSolution.MaximumParameterThreshold, Base.CurrentSolution.RunSolution);
        && (status.Threw? <==> r.Failure?)
        && (r.Failure? ==> status == Threw(r.exception) && Base.State() == moved)
        && (r.Success? ==> Base.State() == r.value)
    {
      UpdateSpeeds(Base.SpeedParameters.value);
      status := Base.UpdateSolution();
    }
  }
}
