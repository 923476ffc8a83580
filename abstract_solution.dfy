/**
 * The abstract Solution: the parameter update and the evaluation are
 * delegated to functions held by the solution, and the converted
 * parameters must be tagged with the solution's own type.
 */
module AbstractSolutions {
  import opened Wrappers

  /** What `convertParameters` hands to the evaluation function; the tag
      names the solution type it was built for. */
  datatype SolutionParameters = SolutionParameters(SolutionType: string, Values: seq<real>)

  /** UpdateFitness succeeds exactly when the conversion is tagged with the
      solution's own type. */
  predicate ConversionMatches(convert: seq<real> -> SolutionParameters, parameters: seq<real>, typeName: string)
  {
    convert(parameters).SolutionType == typeName
  }

  class Solution {
    var Parameters: seq<real>
    var Fitness: real
    /** The run-time type of this solution (`this.GetType()`). */
    const TypeName: string
    const SolutionExecution: SolutionParameters -> real
    const UpdateParametersFunction: (seq<real>, seq<real>) -> seq<real>
    /** The abstract `convertParameters` of the concrete subclass. */
    const ConvertParameters: seq<real> -> SolutionParameters

    /** Field initialisation shared by `New`; the fitness is set by it. */
    constructor Init(parameters: seq<real>, typeName: string, solutionExecution: SolutionParameters -> real,
                     updateParametersFunction: (seq<real>, seq<real>) -> seq<real>,
                     convertParameters: seq<real> -> SolutionParameters)
      ensures Parameters == parameters && Fitness == 0.0 && TypeName == typeName
      ensures SolutionExecution == solutionExecution && UpdateParametersFunction == updateParametersFunction
      ensures ConvertParameters == convertParameters
    {
      Parameters := parameters;
      Fitness := 0.0;
      TypeName := typeName;
      SolutionExecution := solutionExecution;
      UpdateParametersFunction := updateParametersFunction;
      ConvertParameters := convertParameters;
    }

    /** The source constructor: stores the parameters and functions, then
        runs UpdateFitness, whose exception escapes the constructor. */
    static method New(parameters: seq<real>, typeName: string, solutionExecution: SolutionParameters -> real,
                      updateParametersFunction: (seq<real>, seq<real>) -> seq<real>,
                      convertParameters: seq<real> -> SolutionParameters)
      returns (r: Result<Solution>)
      ensures r.Success? <==> ConversionMatches(convertParameters, parameters, typeName)
      ensures r.Failure? ==> r.exception == InvalidOperation
      ensures r.Success? ==> fresh(r.value) && r.value.Parameters == parameters
      ensures r.Success? ==> r.value.Fitness == solutionExecution(convertParameters(parameters))
      ensures r.Success? ==> r.value.TypeName == typeName && r.value.SolutionExecution == solutionExecution
      ensures r.Success? ==> r.value.UpdateParametersFunction == updateParametersFunction
      ensures r.Success? ==> r.value.ConvertParameters == convertParameters
    {
      var s := new Solution.Init(parameters, typeName, solutionExecution, updateParametersFunction, convertParameters);
      var status := s.UpdateFitness();
      if status.Threw? {
        return Failure(status.exception);
      }
      r := Success(s);
    }

    /** Strictly greater fitness; a tie is not better. */
    predicate BetterThan(other: Solution)
      reads this, other
    {
      Fitness > other.Fitness
    }

    /** Throws on a length mismatch before calling the update function;
        otherwise the parameters become its result. */
    method UpdateParameters(speeds: seq<real>) returns (status: Status)
      modifies this`Parameters
      ensures status == if |speeds| != |old(Parameters)| then Threw(InvalidOperation) else Completed
      ensures status.Threw? ==> Parameters == old(Parameters)
      ensures status.Completed? ==> Parameters == UpdateParametersFunction(speeds, old(Parameters))
    {
      if |speeds| != |Parameters| {
        return Threw(InvalidOperation);
      }
      Parameters := UpdateParametersFunction(speeds, Parameters);
      status := Completed;
    }

    /** Converts the parameters, rejects a conversion tagged with another
        type, and otherwise stores the evaluation of the conversion. */
    method UpdateFitness() returns (status: Status)
      modifies this`Fitness
      ensures status == if ConversionMatches(ConvertParameters, Parameters, TypeName) then Completed else Threw(InvalidOperation)
      ensures status.Threw? ==> Fitness == old(Fitness)
      ensures status.Completed? ==> Fitness == SolutionExecution(ConvertParameters(Parameters))
    {
      var solutionParameters := ConvertParameters(Parameters);
      if solutionParameters.SolutionType != TypeName {
        return Threw(InvalidOperation);
      }
      Fitness := SolutionExecution(solutionParameters);
      status := Completed;
    }
  }

  /** BetterThan is irreflexive, asymmetric and transitive. */
  lemma BetterThanIsStrict(a: Solution, b: Solution, c: Solution)
    ensures !a.BetterThan(a)
    ensures a.BetterThan(b) ==> !b.BetterThan(a)
    ensures a.BetterThan(b) && b.BetterThan(c) ==> a.BetterThan(c)
    ensures a.Fitness == b.Fitness ==> !a.BetterThan(b)
  {
  }
}
