/**
 * Validation of the swarm creation parameters. The base check walks the
 * public properties of the parameter object by reflection and rejects the
 * first one that is null, a non-positive set count, a negative real (the
 * two parameter bounds exempt) or an unsigned zero. The stable and inertia
 * variants run the base check first and then test their own fields.
 */
module SwarmParameters {
  import opened Wrappers

  /** A property value as reflection hands it over: its runtime type and,
      for a reference, whether it is null. Value types are never null. */
  datatype Value = UInt32(u: nat) | Int32(i: int) | Double(d: real) | Reference(isNull: bool)

  /** The names a rejection can carry: the twelve reflected properties and
      the fields the derived checks test. */
  datatype Name =
    | MaxIterationsName | FitnessThresholdName | MinimumParameterValueName | MaximumParameterValueName
    | RandomNumberGeneratorName | NumberOfParticlesName | NumberOfParametersName | SolutionFunctionName
    | AuxDataName | GlobalBestBiasName | PersonalBestBiasName | NumberOfParticleSetsName
    | ConstraintValueName | InertiaMinName | InertiaMaxName

  datatype Property = Property(Name: Name, Value: Value)

  datatype Reason =
    | NullValue
    | NotPositiveSetCount
    | Negative
    | Zero
    | ConstraintOutOfRange
    | InertiaNotPositive
    | InertiaMaxBelowMin

  /** The outcome of VerifyValues: accepted, or the InvalidOperationException
      raised for the named property. */
  datatype Verdict = Accepted | Rejected(PropertyName: Name, Reason: Reason)

  /** The else-if chain applied to one property. */
  function Check(p: Property): Option<Reason>
  {
    if p.Value.Reference? && p.Value.isNull then Some(NullValue)
    else if p.Value.Int32? && p.Name == NumberOfParticleSetsName && p.Value.i <= 0 then Some(NotPositiveSetCount)
    else if p.Value.Double? && p.Name != MinimumParameterValueName && p.Name != MaximumParameterValueName && p.Value.d < 0.0 then Some(Negative)
    else if p.Value.UInt32? && p.Value.u == 0 then Some(Zero)
    else None
  }

  /** The reflection loop: the first property that fails its check throws. */
  function FirstFailure(props: seq<Property>): Verdict
  {
    if props == [] then Accepted
    else match Check(props[0])
      case Some(reason) => Rejected(props[0].Name, reason)
      case None => FirstFailure(props[1..])
  }

  /** The loop accepts exactly when every property passes; a rejection
      names a failing property with every property before it passing. */
  lemma {:induction false} FirstFailureSpec(props: seq<Property>)
    ensures FirstFailure(props) == Accepted <==> forall k :: 0 <= k < |props| ==> Check(props[k]).None?
    ensures FirstFailure(props).Rejected? ==>
      exists k :: 0 <= k < |props| && props[k].Name == FirstFailure(props).PropertyName
        && Check(props[k]) == Some(FirstFailure(props).Reason)
        && forall j :: 0 <= j < k ==> Check(props[j]).None?
  {
    if props != [] {
      FirstFailureSpec(props[1..]);
      assert forall k :: 1 <= k < |props| ==> props[k] == props[1..][k - 1];
      if Check(props[0]).None? && FirstFailure(props[1..]).Rejected? {
        var k :| 0 <= k < |props[1..]| && props[1..][k].Name == FirstFailure(props[1..]).PropertyName
          && Check(props[1..][k]) == Some(FirstFailure(props[1..]).Reason)
          && forall j :: 0 <= j < k ==> Check(props[1..][j]).None?;
        assert props[k + 1] == props[1..][k];
      }
    }
  }

  /** A reference that may be null. */
  datatype Reference = Null | Instance

  /** The base creation parameters. Unsigned fields are naturals; the
      fitness function is absent when null. */
  datatype SwarmCreationParameters = SwarmCreationParameters(
    MaxIterations: nat,
    FitnessThreshold: real,
    MinimumParameterValue: real,
    MaximumParameterValue: real,
    RandomNumberGenerator: Reference,
    NumberOfParticles: nat,
    NumberOfParticleParameters: nat,
    SolutionFunction: Option<seq<real> -> real>,
    AuxData: Reference,
    GlobalBestBias: real,
    PersonalBestBias: real,
    NumberOfParticleSets: int)

  /** The public properties, in declaration order. */
  function Properties(p: SwarmCreationParameters): (r: seq<Property>)
    ensures |r| == 12
  {
    [ Property(MaxIterationsName, UInt32(p.MaxIterations)),
      Property(FitnessThresholdName, Double(p.FitnessThreshold)),
      Property(MinimumParameterValueName, Double(p.MinimumParameterValue)),
      Property(MaximumParameterValueName, Double(p.MaximumParameterValue)),
      Property(RandomNumberGeneratorName, Reference(p.RandomNumberGenerator == Null)),
      Property(NumberOfParticlesName, UInt32(p.NumberOfParticles)),
      Property(NumberOfParametersName, UInt32(p.NumberOfParticleParameters)),
      Property(SolutionFunctionName, Reference(p.SolutionFunction.None?)),
      Property(AuxDataName, Reference(p.AuxData == Null)),
      Property(GlobalBestBiasName, Double(p.GlobalBestBias)),
      Property(PersonalBestBiasName, Double(p.PersonalBestBias)),
      Property(NumberOfParticleSetsName, Int32(p.NumberOfParticleSets)) ]
  }

  /** SwarmCreationParameters.VerifyValues. */
  function VerifyValues(p: SwarmCreationParameters): Verdict
  {
    FirstFailure(Properties(p))
  }

  /** The base checks as explicit ranges. Nothing relates the two parameter
      bounds to each other or to zero. */
  predicate BaseAcceptable(p: SwarmCreationParameters)
  {
    && p.MaxIterations != 0
    && p.FitnessThreshold >= 0.0
    && p.RandomNumberGenerator == Instance
    && p.NumberOfParticles != 0
    && p.NumberOfParticleParameters != 0
    && p.SolutionFunction.Some?
    && p.AuxData == Instance
    && p.GlobalBestBias >= 0.0
    && p.PersonalBestBias >= 0.0
    && p.NumberOfParticleSets > 0
  }

  /** The unsigned properties fail only at zero, the references only when
      null. */
  lemma UnsignedAndReferenceChecks(p: SwarmCreationParameters)
    ensures Check(Properties(p)[0]) == (if p.MaxIterations == 0 then Some(Zero) else None)
    ensures Check(Properties(p)[4]) == (if p.RandomNumberGenerator == Null then Some(NullValue) else None)
    ensures Check(Properties(p)[5]) == (if p.NumberOfParticles == 0 then Some(Zero) else None)
    ensures Check(Properties(p)[6]) == (if p.NumberOfParticleParameters == 0 then Some(Zero) else None)
    ensures Check(Properties(p)[7]) == (if p.SolutionFunction.None? then Some(NullValue) else None)
    ensures Check(Properties(p)[8]) == (if p.AuxData == Null then Some(NullValue) else None)
  {
  }

  /** The reals fail only when negative, the two bounds never, and the set
      count only when not positive. */
  lemma RealAndSetCountChecks(p: SwarmCreationParameters)
    ensures Check(Properties(p)[1]) == (if p.FitnessThreshold < 0.0 then Some(Negative) else None)
    ensures Check(Properties(p)[2]) == None && Check(Properties(p)[3]) == None
    ensures Check(Properties(p)[9]) == (if p.GlobalBestBias < 0.0 then Some(Negative) else None)
    ensures Check(Properties(p)[10]) == (if p.PersonalBestBias < 0.0 then Some(Negative) else None)
    ensures Check(Properties(p)[11]) == (if p.NumberOfParticleSets <= 0 then Some(NotPositiveSetCount) else None)
  {
  }

  /** VerifyValues accepts exactly the parameters within those ranges. */
  lemma VerifyValuesAccepts(p: SwarmCreationParameters)
    ensures VerifyValues(p) == Accepted <==> BaseAcceptable(p)
  {
    if VerifyValues(p) == Accepted {
      AcceptedInRange(p);
    }
    if BaseAcceptable(p) {
      InRangeAccepted(p);
    }
  }

  lemma AcceptedInRange(p: SwarmCreationParameters)
    requires VerifyValues(p) == Accepted
    ensures BaseAcceptable(p)
  {
    var props := Properties(p);
    FirstFailureSpec(props);
    UnsignedAndReferenceChecks(p);
    RealAndSetCountChecks(p);
    assert Check(props[0]).None? && Check(props[1]).None? && Check(props[4]).None?;
    assert Check(props[5]).None? && Check(props[6]).None? && Check(props[7]).None?;
    assert Check(props[8]).None? && Check(props[9]).None? && Check(props[10]).None? && Check(props[11]).None?;
  }

  lemma InRangeAccepted(p: SwarmCreationParameters)
    requires BaseAcceptable(p)
    ensures VerifyValues(p) == Accepted
  {
    var props := Properties(p);
    UnsignedAndReferenceChecks(p);
    RealAndSetCountChecks(p);
    FirstFailureSkips(props, 12);
  }

  /** A rejection names a property that breaks its range and is the first
      to do so in declaration order: a zero MaxIterations is reported
      whatever else is wrong, and a null fitness function is reported
      before a negative bias. */
  lemma VerifyValuesReportsFirst(p: SwarmCreationParameters)
    ensures p.MaxIterations == 0 ==> VerifyValues(p) == Rejected(MaxIterationsName, Zero)
    ensures p.MaxIterations != 0 && p.FitnessThreshold < 0.0 ==> VerifyValues(p) == Rejected(FitnessThresholdName, Negative)
    ensures (p.MaxIterations != 0 && p.FitnessThreshold >= 0.0 && p.RandomNumberGenerator == Instance &&
             p.NumberOfParticles != 0 && p.NumberOfParticleParameters != 0 && p.SolutionFunction.None?) ==>
      VerifyValues(p) == Rejected(SolutionFunctionName, NullValue)
  {
    var props := Properties(p);
    UnsignedAndReferenceChecks(p);
    RealAndSetCountChecks(p);
    if p.MaxIterations != 0 {
      FirstFailureSkips(props, 1);
      assert props[1..][0] == props[1];
    }
    if p.MaxIterations != 0 && p.FitnessThreshold >= 0.0 && p.RandomNumberGenerator == Instance &&
       p.NumberOfParticles != 0 && p.NumberOfParticleParameters != 0 {
      FirstFailureSkips(props, 7);
      assert props[7..][0] == props[7];
    }
  }

  /** Properties that pass are skipped. */
  lemma {:induction false} FirstFailureSkips(props: seq<Property>, k: nat)
    requires k <= |props|
    requires forall j :: 0 <= j < k ==> Check(props[j]).None?
    ensures FirstFailure(props) == FirstFailure(props[k..])
  {
    if k > 0 {
      assert props[1..][k - 1..] == props[k..];
      FirstFailureSkips(props[1..], k - 1);
    }
  }

  /** The bounds are exempt from the sign check and are not compared:
      negative bounds with the minimum above the maximum pass. */
  lemma BoundsUnchecked(p: SwarmCreationParameters)
    requires BaseAcceptable(p)
    ensures VerifyValues(p.(MinimumParameterValue := 5.0, MaximumParameterValue := -5.0)) == Accepted
  {
    VerifyValuesAccepts(p);
    VerifyValuesAccepts(p.(MinimumParameterValue := 5.0, MaximumParameterValue := -5.0));
  }

  /** The stable variant adds the constriction value, a public field and
      so not among the reflected properties. */
  datatype StableSwarmCreationParameters = StableSwarmCreationParameters(
    Base: SwarmCreationParameters,
    ConstraintValue: real)

  /** StableSwarmCreationParameters.VerifyValues: the base checks, then the
      constriction value strictly between 0 and 1. */
  function VerifyStable(p: StableSwarmCreationParameters): (v: Verdict)
    ensures VerifyValues(p.Base).Rejected? ==> v == VerifyValues(p.Base)
  {
    match VerifyValues(p.Base)
    case Rejected(name, reason) => Rejected(name, reason)
    case Accepted =>
      if p.ConstraintValue <= 0.0 || p.ConstraintValue >= 1.0 then Rejected(ConstraintValueName, ConstraintOutOfRange)
      else Accepted
  }

  lemma VerifyStableAccepts(p: StableSwarmCreationParameters)
    ensures VerifyStable(p) == Accepted <==> BaseAcceptable(p.Base) && 0.0 < p.ConstraintValue < 1.0
    ensures BaseAcceptable(p.Base) && !(0.0 < p.ConstraintValue < 1.0) ==>
      VerifyStable(p) == Rejected(ConstraintValueName, ConstraintOutOfRange)
  {
    VerifyValuesAccepts(p.Base);
  }

  /** The inertia variant adds the inertia range and horizon, all public
      fields. */
  datatype InertiaSwarmCreationParameters = InertiaSwarmCreationParameters(
    Base: SwarmCreationParameters,
    InertiaMax: real,
    InertiaMin: real,
    InertiaMaxTime: nat)

  /** InertiaSwarmCreationParameters.VerifyValues: the base checks, then both
      inertia values positive, then the maximum not below the minimum. The
      horizon is never looked at. */
  function VerifyInertia(p: InertiaSwarmCreationParameters): (v: Verdict)
    ensures VerifyValues(p.Base).Rejected? ==> v == VerifyValues(p.Base)
  {
    match VerifyValues(p.Base)
    case Rejected(name, reason) => Rejected(name, reason)
    case Accepted =>
      if p.InertiaMin <= 0.0 || p.InertiaMax <= 0.0 then Rejected(InertiaMinName, InertiaNotPositive)
      else if p.InertiaMax < p.InertiaMin then Rejected(InertiaMaxName, InertiaMaxBelowMin)
      else Accepted
  }

  lemma VerifyInertiaAccepts(p: InertiaSwarmCreationParameters)
    ensures VerifyInertia(p) == Accepted <==>
      BaseAcceptable(p.Base) && 0.0 < p.InertiaMin <= p.InertiaMax
    ensures VerifyInertia(p) == VerifyInertia(p.(InertiaMaxTime := 0))
  {
    VerifyValuesAccepts(p.Base);
  }

  /** The Frankenstein variant adds the last topology iteration and keeps the
      inertia check, which does not look at it. */
  datatype FrankensteinSwarmCreationParameters = FrankensteinSwarmCreationParameters(
    Inertia: InertiaSwarmCreationParameters,
    FinalTopologyUpdate: nat)

  function VerifyFrankenstein(p: FrankensteinSwarmCreationParameters): Verdict
  {
    VerifyInertia(p.Inertia)
  }

  lemma VerifyFrankensteinAccepts(p: FrankensteinSwarmCreationParameters)
    ensures VerifyFrankenstein(p) == Accepted <==>
      BaseAcceptable(p.Inertia.Base) && 0.0 < p.Inertia.InertiaMin <= p.Inertia.InertiaMax
    ensures VerifyFrankenstein(p) == VerifyFrankenstein(p.(FinalTopologyUpdate := 0))
  {
    VerifyInertiaAccepts(p.Inertia);
  }
}
