# Particle Swarm Optimiser — a Dafny model

This project models the deterministic core of a C# Particle Swarm
Optimisation library: the solutions, the particle update rules, the
Frankenstein neighbour topology, the classic swarm's iteration and run
loop, and the validation of the swarm creation parameters. Every `Double`
is a Dafny `real`. The fitness function is a total function
`seq<real> -> real`, with its auxiliary data folded in. Random draws are
inputs: sequences of reals for the swarm's speed snapshots, and a natural
number for the Frankenstein offset.

Modules, one per source file or group of files:

- `Wrappers`: `Option`, `Result`, the `Status` of a call that may throw, and the exceptions the source raises.
- `ClassicSolutions` (ClassicSolution.cs): the add-and-clamp parameter update, the two constructors, `Copy` and `BetterThan`.
- `AbstractSolutions` (Abstracts/Solution.cs): the delegating update and the type-checked evaluation.
- `LegacySolutions` (Solution.cs): the per-index in-place map.
- `Particles` (Abstracts/Particle.cs and ClassicParticle.cs): the classic pull, personal-best replacement, `Iterate`, the value-level `ParticleState` with `SolutionStep` and `IterateStep`, and the class `ClassicParticle` proved against them.
- `InertiaParticles`, `StableParticles` and `FrankensteinParticles`: each variant is a class whose `Base` field holds the part it inherits from in the source.
- `Swarms` (Abstracts/Swarm.cs and ClassicSwarm.cs): the swarm as a class over a sequence of particle values, plus the random-stream layout, the global-best scan and the set walk.
- `SwarmParameters` (Parameters/SwarmCreationParameters.cs): the reflection loop of `VerifyValues`, written as a fold over the properties in declaration order.

Each stateful method carries an `ensures` that gives its new state as a
function of the old state: `ClampAdd`, `SolutionStep`, `ClassicSpeeds`,
`Scale`, `PruneStep`, `Snapshots`, `FrankensteinSpeeds`, `HandOut`,
`AdvanceAll`, `Rescan`, `SwarmStep` and `Steps`. The properties the library promises are proved
as lemmas about those functions.

## Model

| member | source | states |
|---|---|---|
| ClassicSolutions.Clamp | PSO/PSO/ClassicPSO/ClassicSolution.cs:64-71 | tests the upper bound first: a value inside the bounds is kept, one above max becomes max, one below min (and not above max) becomes min; ordered bounds put the result inside them |
| ClassicSolutions.ClampAddWithinBounds | PSO/PSO/ClassicPSO/ClassicSolution.cs:61-72 | with min <= max the update keeps the length and puts every component in [min, max] |
| ClassicSolutions.ClampAddIsLocal | PSO/PSO/ClassicPSO/ClassicSolution.cs:61-72 | component i of the update depends only on old component i and speed i |
| ClassicSolutions.ClampAddExample | PSO/PSOTests/ClassicSolutionTests.cs:67-74 | bounds [0,100], parameters [0,2,0,100] and speeds [1,-1,-1,1] give [1,1,0,100] |
| ClassicSolutions.ClampWithCrossedBounds | PSO/PSO/ClassicPSO/ClassicSolution.cs:64-71 | with min > max the else-if order bounds nothing: 5 with bounds (10, 0) gives 0, -5 gives 10 |
| ClassicSolutions.ClassicSolution.Empty | PSO/PSO/ClassicPSO/ClassicSolution.cs:37-43 | the four-argument constructor stores the function and the bounds, sets no parameters and does not evaluate |
| ClassicSolutions.ClassicSolution.constructor | PSO/PSO/ClassicPSO/ClassicSolution.cs:45-53 | the five-argument constructor stores the parameters and sets the fitness to their evaluation |
| ClassicSolutions.ClassicSolution.UpdateFitness | PSO/PSOTests/ClassicSolutionTests.cs:60-64 | the fitness becomes the function applied to the current parameters |
| ClassicSolutions.ClassicSolution.UpdateParameters | PSO/PSO/ClassicPSO/ClassicSolution.cs:55-73 | on a length mismatch it throws InvalidOperation and changes nothing; otherwise the parameters become ClampAdd of the old parameters and the speeds; the fitness is not touched |
| ClassicSolutions.ClassicSolution.Copy | PSO/PSO/ClassicPSO/ClassicSolution.cs:75-83 | a fresh solution with equal parameters, the fitness copied rather than re-evaluated, and the same bounds and function |
| ClassicSolutions.CopyIsIndependent | PSO/PSOTests/ClassicSolutionTests.cs:99-107 | a copy keeps the parameters and fitness it was taken with while the original is moved and re-evaluated |
| ClassicSolutions.BetterThanIsStrict | PSO/PSO/Abstracts/Solution.cs:85-88 | BetterThan is irreflexive, asymmetric and transitive; a tie is not better |
| AbstractSolutions.Solution.Init | PSO/PSO/Abstracts/Solution.cs:68-72 | the field assignments of the constructor |
| AbstractSolutions.Solution.New | PSO/PSO/Abstracts/Solution.cs:68-74 | construction succeeds exactly when the conversion is tagged with the solution's type, and then the fitness is the evaluation of the converted parameters; otherwise InvalidOperation escapes |
| AbstractSolutions.Solution.UpdateParameters | PSO/PSO/Abstracts/Solution.cs:97-105 | a length mismatch throws InvalidOperation before the update function runs and leaves the parameters; otherwise they become UpdateParametersFunction(speeds, old parameters) |
| AbstractSolutions.Solution.UpdateFitness | PSO/PSO/Abstracts/Solution.cs:110-118 | throws InvalidOperation, the fitness kept, exactly when the conversion has another type tag; otherwise the fitness is the evaluation of the conversion |
| AbstractSolutions.BetterThanIsStrict | PSO/PSO/Abstracts/Solution.cs:85-88 | BetterThan is irreflexive, asymmetric and transitive |
| LegacySolutions.MapPairsIsLocal | PSO/PSO/Solution.cs:77-80 | index i of the update depends only on index i of the speed parameters and the parameters |
| LegacySolutions.Solution.UpdateParameters | PSO/PSO/Solution.cs:70-81 | a length mismatch throws InvalidOperation and changes nothing; otherwise component i becomes updateFunc(speedParameters[i], old component i), the length kept |
| Particles.CalculateInfluence | PSO/PSO/ClassicPSO/ClassicParticle.cs:58-61 | no pull when the parameter sits on the best, or when the bias or the draw is zero; with a positive bias and draw the pull points toward the best |
| Particles.ScaleByOne | PSO/PSO/StablePSO/StableParticle.cs:49-52 | a factor of 1 leaves the speeds unchanged |
| Particles.ClassicSpeedsExample | PSO/PSOTests/ClassicParticleTests.cs:57-64 | speeds [1,1,1], parameters [2,3,4], both bests [3,4,5], biases 4 and 2 and draws 1 give [7,7,7] |
| Particles.ClassicSpeedsAtBests | PSO/PSO/ClassicPSO/ClassicParticle.cs:68-74 | a particle whose parameters equal both best vectors keeps its speeds |
| Particles.SolutionStep | PSO/PSO/Abstracts/Particle.cs:102-110 | throws InvalidOperation exactly on a length mismatch; otherwise moves by the speeds and re-evaluates; the personal best is replaced only when strictly beaten, never decreases, and ends at least the current fitness |
| Particles.NoImprovementKeepsBest | PSO/PSO/Abstracts/Particle.cs:106-109 | under a function that never beats the personal best, any number of solution updates leave it unchanged |
| Particles.ClassicParticle.constructor | PSO/PSO/ClassicPSO/ClassicParticle.cs:43-56 | stores the speeds and the solution, takes a fresh copy as personal best, and takes id CurrentId, which is 0 |
| Particles.ClassicParticle.UpdateSpeeds | PSO/PSO/ClassicPSO/ClassicParticle.cs:66-75 | the speeds become ClassicSpeeds of the old speeds, the current parameters and the snapshot; nothing else changes |
| Particles.ClassicParticle.UpdateSpeedsWith | PSO/PSO/Abstracts/Particle.cs:91-96 | the speeds become the update function applied to the snapshot built from the old speeds |
| Particles.ClassicParticle.UpdateSolution | PSO/PSO/Abstracts/Particle.cs:102-110 | the new state is SolutionStep of the old one, or the old state with the exception on a mismatch; a replaced personal best is a fresh copy, not the live solution |
| Particles.ClassicParticle.Iterate | PSO/PSO/ClassicPSO/ClassicParticle.cs:77-81 | the classic speed update with the stored snapshot, then the solution update: the new state is IterateStep of the old one |
| Particles.ClassicParticle.SetSpeedParameters | PSO/PSO/ClassicPSO/ClassicParticle.cs:83-86 | only stores the snapshot |
| StableParticles.UnitConstraintIsClassic | PSO/PSO/StablePSO/StableParticle.cs:48-52 | with a factor of 1 the stable rule is the classic one |
| StableParticles.StableSpeedsAt | PSO/PSO/StablePSO/StableParticle.cs:46-53 | component i is the factor times (old speed plus both pulls), and the length is kept |
| StableParticles.StableParticle.constructor | PSO/PSO/StablePSO/StableParticle.cs:34-44 | the classic fill, then the constriction factor from the creation parameters |
| StableParticles.StableParticle.UpdateSpeeds | PSO/PSO/StablePSO/StableParticle.cs:46-53 | the speeds become Scale(ClassicSpeeds(old speeds, ...), Constraint); the factor is not modified |
| StableParticles.StableParticle.Iterate | PSO/PSO/ClassicPSO/ClassicParticle.cs:77-81 | the stable speed update, then the solution update, as SolutionStep of the moved state |
| InertiaParticles.AsWrittenLosesRamp | PSO/PSO/InertiaPSO/InertiaParticle.cs:59-62 | the integer division gives the minimum at iteration 1 of 10, where the real ramp gives 0.9 |
| InertiaParticles.AsWrittenJumpsBackAfterHorizon | PSO/PSO/InertiaPSO/InertiaParticle.cs:58-62 | as written, the weight goes from the minimum at iteration 9 back to the maximum at iteration 10 |
| InertiaParticles.InertiaWeight | PSO/PSO/InertiaPSO/InertiaParticle.cs:58-62 | InertiaMax at iteration 0, InertiaMin from the horizon on, inside [Min, Max] when Min <= Max, and strictly above Min before the horizon when Min < Max |
| InertiaParticles.InertiaRamp | PSO/PSOTests/InertiaParticleTests.cs:62-72 | with Max 1, Min 0 and horizon 10 the weight at iteration t < 10 is (10 - t) / 10 |
| InertiaParticles.InertiaWeightNonIncreasing | PSO/PSO/InertiaPSO/InertiaParticle.cs:61 | the weight never grows from one iteration to a later one |
| InertiaParticles.InertiaSpeedsAt | PSO/PSO/InertiaPSO/InertiaParticle.cs:63-67 | component i is the weight times the old speed plus both classic pulls |
| InertiaParticles.InertiaParticle.constructor | PSO/PSO/InertiaPSO/InertiaParticle.cs:42-54 | the classic fill and the inertia settings, with the iteration counter at 0 |
| InertiaParticles.InertiaParticle.UpdateSpeeds | PSO/PSO/InertiaPSO/InertiaParticle.cs:56-68 | the speeds become ClassicSpeeds(Scale(old speeds, weight), ...): scaled in place first, then the classic rule |
| InertiaParticles.InertiaParticle.Iterate | PSO/PSO/ClassicPSO/ClassicParticle.cs:77-81 | the inertia speed update, then the solution update, as SolutionStep of the moved state |
| InertiaParticles.InertiaParticle.SetSpeedParameters | PSO/PSO/InertiaPSO/InertiaParticle.cs:70-74 | stores the snapshot and increments the counter by exactly 1 |
| FrankensteinParticles.ToUInt32 | PSO/PSO/FrankensteinPSO/FrankensteinParticle.cs:86 | the truncating cast to a 32-bit unsigned value, the identity inside the range |
| FrankensteinParticles.TruncDiv | PSO/PSO/FrankensteinPSO/FrankensteinParticle.cs:86 | signed division rounding toward zero, equal to Euclidean division for non-negative operands |
| FrankensteinParticles.IndexOf | PSO/PSO/FrankensteinPSO/FrankensteinParticle.cs:92 | none exactly when the id is absent; otherwise the position of its first occurrence |
| FrankensteinParticles.RemoveFirst | PSO/PSO/FrankensteinPSO/FrankensteinParticle.cs:101 | removing a value drops its first occurrence and keeps the rest in order, and leaves a list without it unchanged |
| FrankensteinParticles.RemoveAtDistinct | PSO/PSO/FrankensteinPSO/FrankensteinParticle.cs:103 | in a list without repetitions, removing a node removes exactly that id and keeps every other one |
| FrankensteinParticles.RemovalInterval | PSO/PSO/FrankensteinPSO/FrankensteinParticle.cs:86 | undefined (division by zero) exactly with three particles; FinalTopologyUpdate / (count - 3) for more |
| FrankensteinParticles.Schedule | PSO/PSO/FrankensteinPSO/FrankensteinParticle.cs:86-87 | an iteration is due exactly when it has not passed FinalTopologyUpdate and iteration % R == R - 1 for a positive interval R; a zero divisor throws DivideByZero; after FinalTopologyUpdate nothing is due |
| FrankensteinParticles.Target | PSO/PSO/FrankensteinPSO/FrankensteinParticle.cs:92-96 | the walk from the own id reaches position pos(id) + steps exactly when that lies inside the list |
| FrankensteinParticles.PruneCountsScheduledIterations | PSO/PSO/FrankensteinPSO/FrankensteinParticle.cs:87-106 | TrimmingIterations grows by exactly one on each due iteration, whether or not a link goes, and stays otherwise |
| FrankensteinParticles.PruneRemovesTarget | PSO/PSO/FrankensteinPSO/FrankensteinParticle.cs:87-103 | a link goes only on a due iteration of an eligible particle, and then exactly the node steps after the own id; the own id stays, the order and distinctness are kept, the list keeps at least three members, and the partner is the particle with that id |
| FrankensteinParticles.RemovalOffset | PSO/PSO/FrankensteinPSO/FrankensteinParticle.cs:65-66 | Next of a negative bound throws ArgumentOutOfRange, exactly for fewer than three links; otherwise the offset is the draw plus 2, which lies in [2, count - 2] for more than three links and a draw inside Next's range, and is 2 for exactly three |
| FrankensteinParticles.WorkedPruningSchedule | PSO/PSOTests/FrankensteinParticleTests.cs:93-106 | with seven particles, FinalTopologyUpdate 8 and offset 2, the even iterations change nothing, and a neighbour's list [0] loses the id 0 |
| FrankensteinParticles.WorkedPruningStep1 | PSO/PSOTests/FrankensteinParticleTests.cs:93-106 | iteration 1 removes id 2 |
| FrankensteinParticles.WorkedPruningStep3 | PSO/PSOTests/FrankensteinParticleTests.cs:93-106 | iteration 3 removes id 3 |
| FrankensteinParticles.WorkedPruningStep5 | PSO/PSOTests/FrankensteinParticleTests.cs:93-106 | iteration 5 removes id 4 |
| FrankensteinParticles.WorkedPruningStep7 | PSO/PSOTests/FrankensteinParticleTests.cs:93-106 | iteration 7 removes id 5 |
| FrankensteinParticles.WorkedRemoval | PSO/PSOTests/FrankensteinParticleTests.cs:93-106 | on an odd iteration of that schedule, the list 0, 1, c, ... loses c, which is found at index c |
| FrankensteinParticles.IndexOfListed | PSO/PSO/FrankensteinPSO/FrankensteinParticle.cs:98 | in a list of distinct ids, an id is found at its own position |
| FrankensteinParticles.Pad | PSO/PSO/FrankensteinPSO/FrankensteinParticle.cs:78-79 | copying into a zero array of the width keeps the values in front and zeros after them |
| FrankensteinParticles.SnapshotsSpec | PSO/PSO/FrankensteinPSO/FrankensteinParticle.cs:72-82 | each snapshot is the padded personal best of the first particle with that connected id, in list order; it completes exactly when every id gets one; otherwise the next id has no particle (NullReference) or a best longer than the width (Argument) |
| FrankensteinParticles.SnapshotsOfMatchingWidth | PSO/PSOTests/FrankensteinParticleTests.cs:108-118 | when every id has a particle and every best has the width, the snapshots are exactly those bests, one per id, in order |
| FrankensteinParticles.PullSumIsScaledDistance | PSO/PSO/FrankensteinPSO/FrankensteinParticle.cs:116-119 | the summed pull is the coefficient times the draw times the summed distances |
| FrankensteinParticles.DistanceSumUnitOffsets | PSO/PSOTests/FrankensteinParticleTests.cs:120-140 | with the own snapshot at x and n - 1 others at x + 1, the distances add to n - 1 |
| FrankensteinParticles.WorkedSpeeds | PSO/PSOTests/FrankensteinParticleTests.cs:120-140 | speeds 0, own parameter and snapshot 1, the others 2, bias 1 shared by n links, draw 1 and weight 1 give 1 - 1/n |
| FrankensteinParticles.BuildSnapshots | PSO/PSO/FrankensteinPSO/FrankensteinParticle.cs:74-81 | the loop builds exactly Snapshots of the connected ids, stopping at the first id that fails |
| FrankensteinParticles.PlanPruning | PSO/PSO/FrankensteinPSO/FrankensteinParticle.cs:86-98 | the interval, schedule, eligibility, walk and lookup compute exactly PruneStep; a found partner is another particle of the list |
| FrankensteinParticles.FrankensteinParticle.constructor | PSO/PSO/FrankensteinPSO/FrankensteinParticle.cs:47-61 | the inertia fill, then the particle list, the connected ids and FinalTopologyUpdate |
| FrankensteinParticles.FrankensteinParticle.UpdateConnectedParticles | PSO/PSO/FrankensteinPSO/FrankensteinParticle.cs:84-107 | on failure the exception of PruneStep with nothing changed; on success the own list and count of PruneStep, and a removal also drops the own id from exactly the partner's list |
| FrankensteinParticles.FrankensteinParticle.CreateConnectedParticlesParameters | PSO/PSO/FrankensteinPSO/FrankensteinParticle.cs:72-82 | the snapshot list becomes Snapshots of the connected ids over the particles' ids and personal bests |
| FrankensteinParticles.FrankensteinParticle.UpdateSpeeds | PSO/PSO/FrankensteinPSO/FrankensteinParticle.cs:109-122 | the speeds become FrankensteinSpeeds: the weighted old speed plus the pull toward every snapshot, the personal bias divided by the number of links |
| FrankensteinParticles.SpeedParametersStep | PSO/PSO/FrankensteinPSO/FrankensteinParticle.cs:63-70 | the snapshot is stored exactly when nothing threw; a list of fewer than three links throws ArgumentOutOfRange and changes nothing |
| FrankensteinParticles.SpeedParametersStepKeepsTopology | PSO/PSO/FrankensteinPSO/FrankensteinParticle.cs:63-107 | from at least three distinct links, the links stay distinct and at least three, at most one goes and never the own id, and a completed call leaves one snapshot per link, the padded best of the particle with that id |
| FrankensteinParticles.SpeedParametersStepPartner | PSO/PSO/FrankensteinPSO/FrankensteinParticle.cs:93-103 | from distinct links, a partner is named exactly when a link goes, and it is the particle whose id went |
| FrankensteinParticles.FrankensteinParticle.SetSpeedParameters | PSO/PSO/FrankensteinPSO/FrankensteinParticle.cs:63-107 | leaves exactly the own list, count, snapshots and status of SpeedParametersStep; the particles' ids and personal bests stay; when SpeedParametersStep names a partner, that other particle's list loses the own id and every other particle's list stays, and with no partner (a throw before the removal) every other list stays; the speed snapshot is stored and the counter moves by one only when nothing threw, otherwise both stay |
| Swarms.Interleave | PSO/PSO/ClassicPSO/ClassicSwarm.cs:74-78 | the stream one particle consumes is twice as long as each draw list |
| Swarms.InterleaveAt | PSO/PSO/ClassicPSO/ClassicSwarm.cs:74-78 | draw 2k of the stream is global draw k, and draw 2k + 1 is personal draw k |
| Swarms.InterleaveInjective | PSO/PSO/ClassicPSO/ClassicSwarm.cs:74-78 | the two draw lists are determined by the stream they consumed |
| Swarms.InterleaveDeal | PSO/PSO/ClassicPSO/ClassicSwarm.cs:74-78 | dealing a stream into even and odd draws and interleaving them gives the stream back |
| Swarms.DealInterleave | PSO/PSO/ClassicPSO/ClassicSwarm.cs:74-78 | interleaving two lists and dealing the stream gives the lists back |
| Swarms.ScanBestIsFirstMaximum | PSO/PSO/Abstracts/Swarm.cs:151-158 | the scan finds nothing exactly when no fitness exceeds the start; otherwise it finds a fitness above the start that is maximal and strictly above every earlier one (the first maximum) |
| Swarms.ScannedFitnessBounds | PSO/PSO/Abstracts/Swarm.cs:151-158 | the candidate's fitness is at least the start and at least every particle's |
| Swarms.ScanBestExample | PSO/PSO/Abstracts/Swarm.cs:154 | a tie keeps the earlier particle, and nothing strictly above the start keeps the start |
| Swarms.Snapshot | PSO/PSO/ClassicPSO/ClassicSwarm.cs:72-78 | each draw list of the snapshot is half as long as the stream |
| Swarms.SnapshotConsumes | PSO/PSO/ClassicPSO/ClassicSwarm.cs:65-78 | the snapshot a stream determines has the biases and vectors it was given, and draw lists that interleave back to the stream |
| Swarms.SnapshotForIsSnapshot | PSO/PSO/ClassicPSO/ClassicSwarm.cs:65-78 | any snapshot that consumed a stream that way is the one the stream determines |
| Swarms.DrawSnapshot | PSO/PSO/ClassicPSO/ClassicSwarm.cs:65-78 | the loop takes exactly 2 * count draws, global then personal per speed, builds the snapshot those draws determine, and leaves the rest of the stream |
| Swarms.EnoughIff | PSO/PSO/ClassicPSO/ClassicSwarm.cs:63-78 | the stream holds count blocks of width draws exactly when width * count <= its length |
| Swarms.Blocks | PSO/PSO/ClassicPSO/ClassicSwarm.cs:63-78 | there is one block per particle, each of the block width |
| Swarms.BlocksConcat | PSO/PSO/ClassicPSO/ClassicSwarm.cs:63-78 | the blocks, one after another, are exactly the first width * count draws: none skipped, repeated or reordered |
| Swarms.Fitnesses | PSO/PSO/Abstracts/Swarm.cs:152-154 | the current fitnesses in list order |
| Swarms.IterationBest | PSO/PSO/Abstracts/Swarm.cs:151-158 | the scan loop ends on the candidate ScanBest names, or on the global best when it names none |
| Swarms.Advance | PSO/PSO/ClassicPSO/ClassicParticle.cs:77-81 | a particle's Iterate keeps its snapshot and shape, re-evaluates the new position, and never lowers the personal-best fitness |
| Swarms.SnapshotArms | PSO/PSO/ClassicPSO/ClassicSwarm.cs:68-78 | a snapshot drawn for a particle of the swarm's dimension covers the speed update |
| Swarms.Handed | PSO/PSO/ClassicPSO/ClassicSwarm.cs:65-79 | a particle handed its snapshot keeps its state, and its snapshot covers the speed update |
| Swarms.HandOut | PSO/PSO/ClassicPSO/ClassicSwarm.cs:63-80 | every particle keeps its state and holds a snapshot that covers it |
| Swarms.HandOutSnapshots | PSO/PSO/ClassicPSO/ClassicSwarm.cs:65-79 | particle i's snapshot carries the swarm's biases, the global best's parameters and its own personal best, and consumed block i |
| Swarms.AdvanceAll | PSO/PSO/Abstracts/Swarm.cs:135-141 | every particle advanced once, each with its own snapshot |
| Swarms.Rescan | PSO/PSO/Abstracts/Swarm.cs:148-163 | the global best after the update still refers to an existing solution |
| Swarms.RescanBest | PSO/PSO/Abstracts/Swarm.cs:148-163 | the global-best fitness never decreases and ends at least every particle's; it changes exactly when some particle is strictly better, and then to a copy of the first of the fittest |
| Swarms.CopiedBestNeverFalls | PSO/PSO/Abstracts/Swarm.cs:159-162 | once the global best is a copy, no move of the particles followed by a rescan lowers its fitness |
| Swarms.AliasedBestCanFall | PSO/PSO/ClassicPSO/ClassicSwarm.cs:86-87 | while the global best is particle 0's own solution, an iteration that moves that particle to a worse position lowers the global-best fitness |
| Swarms.VisitedStep | PSO/PSO/Abstracts/Swarm.cs:137-140 | visiting one more member of a set adds exactly that member |
| Swarms.VisitedNext | PSO/PSO/Abstracts/Swarm.cs:135-141 | the end of set k is the start of set k + 1 |
| Swarms.NotYetVisited | PSO/PSO/Abstracts/Swarm.cs:80-84 | when the sets partition the swarm, no particle has been met before its own position |
| Swarms.RescanReady | PSO/PSO/Abstracts/Swarm.cs:148-163 | a rescan keeps a well-shaped swarm state well shaped |
| Swarms.Seed | PSO/PSO/ClassicPSO/ClassicSwarm.cs:86-87 | the state RunPSO starts from: the global best set to particle 0's solution and rescanned, well shaped, dominating every particle and at least particle 0's fitness |
| Swarms.SwarmStep | PSO/PSO/Abstracts/Swarm.cs:127-143 | one iteration on values keeps the state well shaped and the particle count, and leaves no particle fitter than the global best |
| Swarms.SwarmStepMovesEach | PSO/PSO/Abstracts/Swarm.cs:127-143 | in one step, particle i becomes Advance of itself handed the snapshot of block i with the old global best's parameters, and the new global best is the old one rescanned against the moved particles |
| Swarms.Steps | PSO/PSO/ClassicPSO/ClassicSwarm.cs:89-97 | k steps keep the state well shaped and the particle count, and after at least one step no particle is fitter than the global best |
| Swarms.FitnessesAfter | PSO/PSO/ClassicPSO/ClassicSwarm.cs:89-97 | one global-best fitness per candidate iteration |
| Swarms.FitnessesAfterAt | PSO/PSO/ClassicPSO/ClassicSwarm.cs:89-97 | entry t is the global-best fitness after t + 1 steps |
| Swarms.StopLength | PSO/PSO/ClassicPSO/ClassicSwarm.cs:89-97 | the number of iterations run lies between the start and the number of candidates |
| Swarms.StopLengthSpec | PSO/PSO/ClassicPSO/ClassicSwarm.cs:89-97 | at least one more iteration runs while any remain; every iteration before the last leaves the fitness at most the threshold, and an early stop comes right after the first fitness strictly above it |
| Swarms.Swarm.constructor | PSO/PSO/ClassicPSO/ClassicSwarm.cs:34-39 | takes the particles, the sets and the settings as built, with no global best yet |
| Swarms.Swarm.CreateSpeedParameters | PSO/PSO/ClassicPSO/ClassicSwarm.cs:61-81 | the particles become HandOut of the old ones, with the swarm's biases and the global best's parameters, one block of draws each, in list order |
| Swarms.Swarm.IterateSets | PSO/PSO/Abstracts/Swarm.cs:135-141 | when the sets partition the swarm, walking them advances every particle exactly once: the particles become AdvanceAll of the old ones |
| Swarms.Swarm.UpdateBestGlobalSolution | PSO/PSO/Abstracts/Swarm.cs:148-163 | the global best becomes Rescan of the old one, and no particle's fitness exceeds it |
| Swarms.Swarm.Iterate | PSO/PSO/Abstracts/Swarm.cs:127-143 | the particles and global best become SwarmStep of the old ones: every particle is handed its snapshot before any moves, each then advances once with it, and only then is the old global best rescanned against the moved particles |
| Swarms.Swarm.RunPSO | PSO/PSO/ClassicPSO/ClassicSwarm.cs:83-98 | an empty swarm throws ArgumentOutOfRange with nothing changed; otherwise the final particles and global best are Steps from Seed of the old particles, taken StopLength times over the global-best fitness after each of the first MaxIterations steps, and the result is that global best |
| SwarmParameters.FirstFailureSpec | PSO/PSO/Parameters/SwarmCreationParameters.cs:106-125 | the loop accepts exactly when every property passes its check; a rejection names a failing property, its reason, and all properties before it pass |
| SwarmParameters.FirstFailureSkips | PSO/PSO/Parameters/SwarmCreationParameters.cs:106-125 | properties that pass are skipped |
| SwarmParameters.Properties | PSO/PSO/Parameters/SwarmCreationParameters.cs:35-99 | the twelve public properties, in declaration order |
| SwarmParameters.UnsignedAndReferenceChecks | PSO/PSO/Parameters/SwarmCreationParameters.cs:108-123 | MaxIterations, NumberOfParticles and NumberOfParameters fail only at zero; the generator, the function and AuxData only when null |
| SwarmParameters.RealAndSetCountChecks | PSO/PSO/Parameters/SwarmCreationParameters.cs:108-123 | the threshold and both biases fail only when negative, the two bounds never, NumberOfParticleSets only when not positive |
| SwarmParameters.AcceptedInRange | PSO/PSO/Parameters/SwarmCreationParameters.cs:104-126 | an accepted parameter object lies within the base ranges |
| SwarmParameters.InRangeAccepted | PSO/PSO/Parameters/SwarmCreationParameters.cs:104-126 | a parameter object within the base ranges is accepted |
| SwarmParameters.VerifyValuesAccepts | PSO/PSO/Parameters/SwarmCreationParameters.cs:104-126 | accepted exactly when the references are non-null, NumberOfParticleSets is positive, the threshold and both biases are non-negative, and MaxIterations, NumberOfParticles and NumberOfParameters are non-zero |
| SwarmParameters.VerifyValuesReportsFirst | PSO/PSO/Parameters/SwarmCreationParameters.cs:106-123 | a zero MaxIterations is reported whatever else is wrong; a negative threshold comes next; a null SolutionFunction is reported when everything before it passes |
| SwarmParameters.BoundsUnchecked | PSO/PSO/Parameters/SwarmCreationParameters.cs:116 | the bounds are exempt from the sign check and never compared: min 5 and max -5 are accepted |
| SwarmParameters.VerifyStable | PSO/PSO/Parameters/SwarmCreationParameters.cs:139-146 | a base rejection is what the stable check reports |
| SwarmParameters.VerifyStableAccepts | PSO/PSO/Parameters/SwarmCreationParameters.cs:139-146 | accepted exactly when the base check accepts and 0 < ConstraintValue < 1; otherwise, with a good base, ConstraintValue is rejected |
| SwarmParameters.VerifyInertia | PSO/PSO/Parameters/SwarmCreationParameters.cs:169-180 | a base rejection is what the inertia check reports |
| SwarmParameters.VerifyInertiaAccepts | PSO/PSO/Parameters/SwarmCreationParameters.cs:167-180 | accepted exactly when the base check accepts and 0 < InertiaMin <= InertiaMax; InertiaMaxTime, a public field, has no effect (0 is accepted) |
| SwarmParameters.VerifyFrankensteinAccepts | PSO/PSO/Parameters/SwarmCreationParameters.cs:186-192 | the inertia check, unaffected by FinalTopologyUpdate (0 is accepted) |

## Left out

- Concurrency: `Parallel.For` over the particle sets is a sequential walk of the sets in list order. With disjoint sets the outcome is the same.
- Random numbers: `System.Random` is not modelled. Each iteration's draws are one block per particle (`Fits`). `BlocksConcat` and `DrawSnapshot` tie the blocks to one stream consumed in list order, global draw then personal draw. The Frankenstein offset's draw is a parameter.
- Floating point: every `Double` is an exact `real`. No rounding, infinities or NaN, so the tests' rounding is not needed.
- The constriction factor that the stable swarm computes (with square roots and powers): `StableParticle` takes it as a given real.
- Swarm construction: `CreateParticles`, `FillSwarmParameters`, `SplitParticlesInSets` and `CreateRandomsList` are not part of this model. The swarm's constructor takes the particles and the sets as built. `ClassicSwarm.cs:45` loops over `NumberOfParameters` where `NumberOfParticles` is meant, and no model member follows it.
- `ParticleCreationParameters` and `IParticle`: their fields appear as constructor arguments and class fields.
- `PSO/PSO/Particle.cs` and its `UpdateSpeeds`: the file is an older copy that writes into a list built with capacity only, so it cannot succeed.
- Id allocation: `CurrentId` is never incremented, so every constructed particle has id 0. The topology model takes ids as given, distinct values.
- Swarms.Swarm: holds the particles as values (`SwarmParticle`: a `ParticleState` and a snapshot), not as objects. Aliasing of the global best is modelled explicitly by `GlobalBest.Aliased`: RunPSO seeds it with particle 0's current solution, and it follows that particle until a rescan replaces it with a copy. Any other sharing between particles is not modelled. All particles share the swarm's fitness function and bounds.
- Swarms.Swarm.CreateSpeedParameters: `Swarm.cs:132` assigns `createSpeedParameters(particle)` per particle, while `ClassicSwarm` has an argument-less version that hands out all snapshots. The model follows `ClassicSwarm`. Both snapshot vectors are copied into arrays of the personal best's length; `Valid` requires every vector to have the swarm's dimension, so that copy cannot throw here.
- Swarms.Swarm.Iterate and Swarms.Swarm.RunPSO: need `Partition(ParticleSets, |Particles|)`, that the sets cover the swarm without repetition, which the source assumes of `SplitParticlesInSets`. They also need one block of draws per particle and iteration.
- Particles.ClassicParticle.UpdateSpeeds, InertiaParticles.InertiaParticle.UpdateSpeeds and StableParticles.StableParticle.UpdateSpeeds: require the snapshot and the speeds to be at least as long as the parameters (`Covers`). The source throws an index-out-of-range exception part-way through the loop otherwise, and that partial update is not modelled.
- Particles.ClassicParticle.Iterate: requires a stored snapshot; the source dereferences null when there is none.
- Particles.ClassicParticle.UpdateSolution: requires `Valid()`, that the personal best is not the live current solution. The constructor establishes this and every replacement keeps it.
- InertiaParticles.InertiaParticle.constructor: the source constructor sets only the id and the counter and does not call `FillParameters`. The model performs the fill as well, as `StableParticle` and `FrankensteinParticle` do.
- InertiaParticles.InertiaParticle.UpdateSpeeds: uses the corrected weight `InertiaWeight` (see Findings). `InertiaWeightAsWritten` records the code as written.
- FrankensteinParticles.FrankensteinParticle.UpdateSpeeds: the source calls `CalculateInertia`, which the shown `InertiaParticle` does not define. The model uses `InertiaWeight`. Because the method is declared `new` rather than `override`, a call through the base type would run the inertia rule; that dispatch is not modelled. It also requires a non-empty link list, because the model's coefficient is a real division by the number of links; the source divides as a `Double` inside the loop over the snapshots, where a zero count gives an infinite coefficient rather than an exception, and floating point is not modelled. It further requires snapshots and draws covering the parameters (the source throws an index-out-of-range exception otherwise).
- FrankensteinParticles.FrankensteinParticle.UpdateConnectedParticles: requires a positive step count and a link list without repetitions. `SetSpeedParameters` always passes at least 2. Lists with repeated ids are not modelled: `FrankensteinSwarm.cs:72-79` builds each list from an array of `NumberOfParameters` entries of which only the first `NumberOfParticles` are set, so the id 0 repeats when there are more parameters than particles, and the loop throws an index-out-of-range exception when there are fewer. The list of the worked schedule, `FrankensteinParticleTests.cs:60-68` (ids 0 to 6), is a call site that meets the requirement. Every particle in the list is a connected particle, so the interface test of `FrankensteinParticle.cs:99` always holds.
- FrankensteinParticles.FrankensteinParticle.SetSpeedParameters: requires the draw to lie in the range `Next(count - 3)` returns, and a link list without repetitions, which `SpeedParametersStepKeepsTopology` shows every call preserves.
- Exception messages are not modelled, only the exception type and, for `VerifyValues`, the property name.
- SwarmParameters: reflection enumerates properties in declaration order; the model assumes that order. The inertia checks report under the name `InertiaMin` or `InertiaMax`, where the source raises one message without a property name.
- Null references other than those `VerifyValues` checks: the model's values cannot be null.

## Findings

| source | as written | input that shows it | evidently intended | confidence | as-written member | corrected member |
|---|---|---|---|---|---|---|
| PSO/PSO/InertiaPSO/InertiaParticle.cs:61 | `(InertiaMaxTime - CurrentIteration) / InertiaMaxTime` divides two `UInt32`, so the ramp fraction is 1 at iteration 0 and 0 from iteration 1 on | InertiaMax 1, InertiaMin 0, InertiaMaxTime 10, iteration 1 gives 0 where the test expects 0.9 | real division: weight (T - t) / T * (Max - Min) + Min, falling linearly | not executed | InertiaParticles.AsWrittenLosesRamp | InertiaParticles.InertiaRamp |
| PSO/PSO/InertiaPSO/InertiaParticle.cs:58-62 | from `InertiaMaxTime` on, the weight keeps its initial value `InertiaMax` | InertiaMax 1, InertiaMin 0, InertiaMaxTime 10: iteration 9 gives 0, iteration 10 gives 1 | the weight stays at `InertiaMin` after `InertiaMaxTime`, as the parameter's documentation says (SwarmCreationParameters.cs:164-167) | not executed | InertiaParticles.AsWrittenJumpsBackAfterHorizon | InertiaParticles.InertiaWeightNonIncreasing |
