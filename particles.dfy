/**
 * The particle: a current solution, a personal-best solution, a speed
 * vector and the influence snapshot of the current iteration. This
 * module holds the abstract particle (personal-best bookkeeping) and the
 * classic particle (the pull toward the personal and global bests),
 * which every other variant builds on.
 */
module Particles {
  import opened Wrappers
  import opened ClassicSolutions

  /** The static id counter. Nothing increments it, so every particle
      built by a constructor gets id 0. */
  const CurrentId: nat := 0

  /** The influence snapshot: both biases, value copies of both best
      vectors and one random draw per dimension for each pull. */
  datatype SpeedParameters = SpeedParameters(
    GlobalBestBias: real,
    PersonalBestBias: real,
    GlobalBestSolution: seq<real>,
    PersonalBestSolution: seq<real>,
    RandomListGlobal: seq<real>,
    RandomListPersonal: seq<real>)

  /** The pull of one best component on one parameter. */
  function CalculateInfluence(solutionParameter: real, bestParameter: real, bias: real, random: real): (r: real)
    ensures solutionParameter == bestParameter ==> r == 0.0
    ensures bias == 0.0 || random == 0.0 ==> r == 0.0
    ensures bias > 0.0 && random > 0.0 ==> (r > 0.0 <==> bestParameter > solutionParameter)
    ensures bias > 0.0 && random > 0.0 ==> (r < 0.0 <==> bestParameter < solutionParameter)
  {
    SignOfProduct(bestParameter - solutionParameter, bias, random);
    (bestParameter - solutionParameter) * (bias * random)
  }

  lemma SignOfProduct(d: real, b: real, m: real)
    ensures b > 0.0 && m > 0.0 ==> (d * (b * m) > 0.0 <==> d > 0.0) && (d * (b * m) < 0.0 <==> d < 0.0)
  {
    if b > 0.0 && m > 0.0 {
      var c := b * m;
      assert c > 0.0;
      if d > 0.0 { assert d * c > 0.0; }
      else if d < 0.0 { assert d * c < 0.0; }
      else { assert d * c == 0.0; }
    }
  }

  /** The classic loop reads index i of the speeds, both best vectors and
      both draw lists for every parameter index i. */
  predicate Covers(speeds: seq<real>, parameters: seq<real>, sp: SpeedParameters)
  {
    && |parameters| <= |speeds|
    && |parameters| <= |sp.PersonalBestSolution|
    && |parameters| <= |sp.GlobalBestSolution|
    && |parameters| <= |sp.RandomListPersonal|
    && |parameters| <= |sp.RandomListGlobal|
  }

  /** Speeds after the classic rule: each of the first |parameters|
      components gains both pulls, the rest are kept. */
  function ClassicSpeeds(speeds: seq<real>, parameters: seq<real>, sp: SpeedParameters): seq<real>
    requires Covers(speeds, parameters, sp)
  {
    seq(|speeds|, i requires 0 <= i < |speeds| =>
      if i < |parameters| then
        speeds[i]
        + CalculateInfluence(parameters[i], sp.PersonalBestSolution[i], sp.PersonalBestBias, sp.RandomListPersonal[i])
        + CalculateInfluence(parameters[i], sp.GlobalBestSolution[i], sp.GlobalBestBias, sp.RandomListGlobal[i])
      else speeds[i])
  }

  /** Every component multiplied by the same factor (inertia weight or
      constriction factor). */
  function Scale(speeds: seq<real>, factor: real): seq<real>
  {
    seq(|speeds|, i requires 0 <= i < |speeds| => speeds[i] * factor)
  }

  /** A factor of 1 leaves the speeds as they are. */
  lemma ScaleByOne(speeds: seq<real>)
    ensures Scale(speeds, 1.0) == speeds
  {
  }

  /** Speeds [1,1,1], parameters [2,3,4], both bests [3,4,5], personal
      bias 4, global bias 2, all draws 1: every speed becomes 7. */
  lemma ClassicSpeedsExample()
    ensures ClassicSpeeds([1.0, 1.0, 1.0], [2.0, 3.0, 4.0],
      SpeedParameters(2.0, 4.0, [3.0, 4.0, 5.0], [3.0, 4.0, 5.0], [1.0, 1.0, 1.0], [1.0, 1.0, 1.0]))
      == [7.0, 7.0, 7.0]
  {
  }

  /** A particle sitting on both bests keeps its speeds. */
  lemma ClassicSpeedsAtBests(speeds: seq<real>, parameters: seq<real>, sp: SpeedParameters)
    requires Covers(speeds, parameters, sp)
    requires forall i :: 0 <= i < |parameters| ==>
      sp.PersonalBestSolution[i] == parameters[i] && sp.GlobalBestSolution[i] == parameters[i]
    ensures ClassicSpeeds(speeds, parameters, sp) == speeds
  {
  }

  /** The values a particle's behaviour depends on: its speeds, the
      current solution's parameters and fitness, and the personal best's. */
  datatype ParticleState = ParticleState(
    Speeds: seq<real>,
    Parameters: seq<real>,
    Fitness: real,
    BestParameters: seq<real>,
    BestFitness: real)

  /** UpdateSolution on values: move and clamp, re-evaluate, and take the
      result as personal best only when strictly better; a length mismatch
      throws before anything changes. */
  function SolutionStep(st: ParticleState, min: real, max: real, f: seq<real> -> real): (r: Result<ParticleState>)
    ensures r.Failure? <==> |st.Speeds| != |st.Parameters|
    ensures r.Failure? ==> r.exception == InvalidOperation
    ensures r.Success? ==> r.value.Speeds == st.Speeds && |r.value.Parameters| == |st.Parameters|
    ensures r.Success? ==> r.value.Fitness == f(r.value.Parameters)
    ensures r.Success? ==> r.value.BestFitness >= st.BestFitness && r.value.BestFitness >= r.value.Fitness
    ensures r.Success? && r.value.Fitness <= st.BestFitness ==>
      r.value.BestParameters == st.BestParameters && r.value.BestFitness == st.BestFitness
    ensures r.Success? && r.value.Fitness > st.BestFitness ==>
      r.value.BestParameters == r.value.Parameters && r.value.BestFitness == r.value.Fitness
    ensures r.Success? && min <= max ==> forall i :: 0 <= i < |r.value.Parameters| ==> min <= r.value.Parameters[i] <= max
  {
    if |st.Speeds| != |st.Parameters| then Failure(InvalidOperation)
    else
      var x := ClampAdd(st.Parameters, st.Speeds, min, max);
      if f(x) > st.BestFitness then
        Success(st.(Parameters := x, Fitness := f(x), BestParameters := x, BestFitness := f(x)))
      else
        Success(st.(Parameters := x, Fitness := f(x)))
  }

  /** Iterate on values: the classic speed update, then UpdateSolution. */
  function IterateStep(st: ParticleState, sp: SpeedParameters, min: real, max: real, f: seq<real> -> real): Result<ParticleState>
    requires Covers(st.Speeds, st.Parameters, sp)
  {
    SolutionStep(st.(Speeds := ClassicSpeeds(st.Speeds, st.Parameters, sp)), min, max, f)
  }

  /** With a fitness function that never beats the personal best, repeated
      solution updates never replace it. */
  lemma {:induction false} NoImprovementKeepsBest(st: ParticleState, min: real, max: real, f: seq<real> -> real, n: nat)
    requires |st.Speeds| == |st.Parameters|
    requires forall x :: f(x) <= st.BestFitness
    ensures RepeatSolutionStep(st, min, max, f, n).BestParameters == st.BestParameters
    ensures RepeatSolutionStep(st, min, max, f, n).BestFitness == st.BestFitness
    decreases n
  {
    if n > 0 {
      var next := SolutionStep(st, min, max, f).value;
      NoImprovementKeepsBest(next, min, max, f, n - 1);
    }
  }

  /** n solution updates with unchanged speeds. */
  function RepeatSolutionStep(st: ParticleState, min: real, max: real, f: seq<real> -> real, n: nat): ParticleState
    requires |st.Speeds| == |st.Parameters|
    decreases n
  {
    if n == 0 then st else RepeatSolutionStep(SolutionStep(st, min, max, f).value, min, max, f, n - 1)
  }

  class ClassicParticle {
    var Speeds: seq<real>
    var CurrentSolution: ClassicSolution
    var PersonalBestSolution: ClassicSolution
    var Id: nat
    /** The snapshot stored by SetSpeedParameters (null before the first). */
    var SpeedParameters: Option<SpeedParameters>

    /** The personal best is never the live current solution. */
    ghost predicate Valid()
      reads this
    {
      CurrentSolution != PersonalBestSolution
    }

    ghost function State(): ParticleState
      reads this`Speeds, this`CurrentSolution, this`PersonalBestSolution
      reads CurrentSolution`Parameters, CurrentSolution`Fitness, PersonalBestSolution`Parameters, PersonalBestSolution`Fitness
    {
      ParticleState(Speeds, CurrentSolution.Parameters, CurrentSolution.Fitness,
                    PersonalBestSolution.Parameters, PersonalBestSolution.Fitness)
    }

    /** Stores the speeds and the solution, takes a copy of the solution as
        personal best, and takes its id from the static counter. */
    constructor (speeds: seq<real>, solution: ClassicSolution)
      ensures Valid() && Id == CurrentId && SpeedParameters == None
      ensures Speeds == speeds && CurrentSolution == solution
      ensures fresh(PersonalBestSolution)
      ensures PersonalBestSolution.Parameters == solution.Parameters
      ensures PersonalBestSolution.Fitness == solution.Fitness
      ensures PersonalBestSolution.RunSolution == solution.RunSolution
    {
      var best := solution.Copy();
      Id := CurrentId;
      Speeds := speeds;
      CurrentSolution := solution;
      PersonalBestSolution := best;
      SpeedParameters := None;
    }

    /** The classic rule, in place, over the indices of the current
        parameters; the parameters and the snapshot are only read. */
    method UpdateSpeeds(parameters: SpeedParameters)
      requires Covers(Speeds, CurrentSolution.Parameters, parameters)
      modifies this`Speeds
      ensures Speeds == ClassicSpeeds(old(Speeds), CurrentSolution.Parameters, parameters)
    {
      var x := CurrentSolution.Parameters;
      var speeds := Speeds;
      ghost var target := ClassicSpeeds(speeds, x, parameters);
      for index := 0 to |x|
        invariant |speeds| == |old(Speeds)|
        invariant forall k :: 0 <= k < index ==> speeds[k] == target[k]
        invariant forall k :: index <= k < |speeds| ==> speeds[k] == old(Speeds)[k]
      {
        var newSpeed := speeds[index];
        newSpeed := newSpeed + CalculateInfluence(x[index], parameters.PersonalBestSolution[index],
                                                  parameters.PersonalBestBias, parameters.RandomListPersonal[index]);
        newSpeed := newSpeed + CalculateInfluence(x[index], parameters.GlobalBestSolution[index],
                                                  parameters.GlobalBestBias, parameters.RandomListGlobal[index]);
        speeds := speeds[index := newSpeed];
      }
      Speeds := speeds;
    }

    /** The abstract particle's delegation: the speeds become the update
        function applied to the snapshot built from them. */
    method UpdateSpeedsWith(createSpeedParameters: seq<real> -> SpeedParameters,
                            speedUpdateFunction: SpeedParameters -> seq<real>)
      modifies this`Speeds
      ensures Speeds == speedUpdateFunction(createSpeedParameters(old(Speeds)))
    {
      var speedUpdateParameters := createSpeedParameters(Speeds);
      Speeds := speedUpdateFunction(speedUpdateParameters);
    }

    /** Moves the current solution by the speeds, re-evaluates it, and
        replaces the personal best by a copy when strictly better. */
    method UpdateSolution() returns (status: Status)
      requires Valid()
      modifies this`PersonalBestSolution, CurrentSolution`Parameters, CurrentSolution`Fitness
      ensures Valid()
      ensures var r := SolutionStep(old(State()), CurrentSolution.MinimumParameterThreshold,
                                    CurrentSolution.MaximumParameterThreshold, CurrentSolution.RunSolution);
        && (status.Threw? <==> r.Failure?)
        && (r.Failure? ==> status == Threw(r.exception) && State() == old(State()))
        && (r.Success? ==> State() == r.value)
      ensures PersonalBestSolution == old(PersonalBestSolution)
        || (fresh(PersonalBestSolution) && PersonalBestSolution.RunSolution == CurrentSolution.RunSolution)
    {
      status := CurrentSolution.UpdateParameters(Speeds);
      if status.Threw? {
        return;
      }
      CurrentSolution.UpdateFitness();
      if CurrentSolution.BetterThan(PersonalBestSolution) {
        PersonalBestSolution := CurrentSolution.Copy();
      }
    }

    /** One iteration: the speed update with the stored snapshot, then the
        solution update. */
    method Iterate() returns (status: Status)
      requires Valid() && SpeedParameters.Some?
      requires Covers(Speeds, CurrentSolution.Parameters, SpeedParameters.value)
      modifies this`Speeds, this`PersonalBestSolution, CurrentSolution`Parameters, CurrentSolution`Fitness
      ensures Valid()
      ensures var moved := old(State()).(Speeds := ClassicSpeeds(old(Speeds), old(CurrentSolution.Parameters), SpeedParameters.value));
        var r := IterateStep(old(State()), SpeedParameters.value, CurrentSolution.MinimumParameterThreshold,
                             CurrentSolution.MaximumParameterThreshold, CurrentSolution.RunSolution);
        && (status.Threw? <==> r.Failure?)
        && (r.Failure? ==> status == Threw(r.exception) && State() == moved)
        && (r.Success? ==> State() == r.value)
      ensures PersonalBestSolution == old(PersonalBestSolution)
        || (fresh(PersonalBestSolution) && PersonalBestSolution.RunSolution == CurrentSolution.RunSolution)
    {
      UpdateSpeeds(SpeedParameters.value);
      status := UpdateSolution();
    }

    /** Only stores the snapshot. */
    method SetSpeedParameters(parameters: SpeedParameters)
      modifies this`SpeedParameters
      ensures SpeedParameters == Some(parameters)
    {
      SpeedParameters := Some(parameters);
    }
  }
}
