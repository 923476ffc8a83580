/**
 * The classic swarm: one iteration hands every particle a fresh speed
 * snapshot, advances every particle once (set by set, here in list
 * order), then rescans the current solutions for a new global best.
 * RunPSO seeds the global best and repeats iterations up to a bound or a
 * fitness threshold. The swarm holds its particles as values; the global
 * best records whether it is a particle's own current solution or a copy.
 */
module Swarms {
  import opened Wrappers
  import opened Particles

  /** The random stream as consumed for one particle: per dimension, one
      draw for the global list, then one for the personal list. */
  function Interleave(global: seq<real>, personal: seq<real>): (r: seq<real>)
    requires |global| == |personal|
    ensures |r| == 2 * |global|
    decreases |global|
  {
    if global == [] then []
    else Interleave(global[..|global| - 1], personal[..|personal| - 1])
         + [global[|global| - 1], personal[|personal| - 1]]
  }

  /** Draw 2k of the stream is global draw k, draw 2k+1 personal draw k. */
  lemma {:induction false} InterleaveAt(global: seq<real>, personal: seq<real>, k: nat)
    requires |global| == |personal| && k < |global|
    ensures Interleave(global, personal)[2 * k] == global[k]
    ensures Interleave(global, personal)[2 * k + 1] == personal[k]
  {
    var n := |global| - 1;
    if k < n {
      InterleaveAt(global[..n], personal[..n], k);
    }
  }

  /** The two lists can be read back from the stream they consumed. */
  lemma InterleaveInjective(g1: seq<real>, p1: seq<real>, g2: seq<real>, p2: seq<real>)
    requires |g1| == |p1| && |g2| == |p2|
    requires Interleave(g1, p1) == Interleave(g2, p2)
    ensures g1 == g2 && p1 == p2
  {
    assert |g1| == |g2|;
    forall k | 0 <= k < |g1|
      ensures g1[k] == g2[k] && p1[k] == p2[k]
    {
      InterleaveAt(g1, p1, k);
      InterleaveAt(g2, p2, k);
    }
  }

  lemma Even(k: nat)
    ensures (2 * k) % 2 == 0
  {
  }

  /** The stream split back into its global (even) and personal (odd)
      draws. */
  function Deal(stream: seq<real>): (r: (seq<real>, seq<real>))
    requires |stream| % 2 == 0
    ensures 2 * |r.0| == |stream| && |r.1| == |r.0|
    decreases |stream|
  {
    if stream == [] then ([], [])
    else
      var previous := Deal(stream[..|stream| - 2]);
      (previous.0 + [stream[|stream| - 2]], previous.1 + [stream[|stream| - 1]])
  }

  /** Deal is the inverse of Interleave, one way round ... */
  lemma {:induction false} InterleaveDeal(stream: seq<real>)
    requires |stream| % 2 == 0
    ensures Interleave(Deal(stream).0, Deal(stream).1) == stream
    decreases |stream|
  {
    if stream != [] {
      var n := |stream|;
      var previous := Deal(stream[..n - 2]);
      InterleaveDeal(stream[..n - 2]);
      var global, personal := Deal(stream).0, Deal(stream).1;
      assert global[..|global| - 1] == previous.0 && personal[..|personal| - 1] == previous.1;
      assert stream == stream[..n - 2] + [stream[n - 2], stream[n - 1]];
    }
  }

  /** ... and the other. */
  lemma DealInterleave(global: seq<real>, personal: seq<real>)
    requires |global| == |personal|
    ensures Deal(Interleave(global, personal)) == (global, personal)
  {
    var stream := Interleave(global, personal);
    Even(|global|);
    var r := Deal(stream);
    InterleaveDeal(stream);
    InterleaveInjective(r.0, r.1, global, personal);
  }

  /** UpdateBestGlobalSolution's scan on values: the index the candidate
      ends on, None while it is still the global best itself. A particle
      takes over only when strictly better than the candidate so far. */
  function ScanBest(fitnesses: seq<real>, start: real): (r: Option<nat>)
    ensures r.Some? ==> r.value < |fitnesses|
    decreases |fitnesses|
  {
    if fitnesses == [] then None
    else
      var previous := ScanBest(fitnesses[..|fitnesses| - 1], start);
      var candidate := if previous.None? then start else fitnesses[previous.value];
      if fitnesses[|fitnesses| - 1] > candidate then Some(|fitnesses| - 1) else previous
  }

  /** The scan finds the first maximal fitness among those strictly above
      the start, and finds nothing exactly when none is above it. */
  lemma {:induction false} ScanBestIsFirstMaximum(fitnesses: seq<real>, start: real)
    ensures var r := ScanBest(fitnesses, start);
      && (r.None? <==> forall k :: 0 <= k < |fitnesses| ==> fitnesses[k] <= start)
      && (r.Some? ==> r.value < |fitnesses| && fitnesses[r.value] > start)
      && (r.Some? ==> forall k :: 0 <= k < |fitnesses| ==> fitnesses[k] <= fitnesses[r.value])
      && (r.Some? ==> forall k :: 0 <= k < r.value ==> fitnesses[k] < fitnesses[r.value])
    decreases |fitnesses|
  {
    if fitnesses != [] {
      var prefix := fitnesses[..|fitnesses| - 1];
      ScanBestIsFirstMaximum(prefix, start);
      assert forall k :: 0 <= k < |prefix| ==> prefix[k] == fitnesses[k];
    }
  }

  /** The fitness of the candidate the scan ends on. */
  function ScannedFitness(fitnesses: seq<real>, start: real): real
  {
    var r := ScanBest(fitnesses, start);
    if r.Some? then fitnesses[r.value] else start
  }

  /** The candidate is never below the start nor below any fitness. */
  lemma ScannedFitnessBounds(fitnesses: seq<real>, start: real)
    ensures ScannedFitness(fitnesses, start) >= start
    ensures forall k :: 0 <= k < |fitnesses| ==> fitnesses[k] <= ScannedFitness(fitnesses, start)
  {
    ScanBestIsFirstMaximum(fitnesses, start);
  }

  /** Ties keep the earlier particle; nothing above the start keeps it. */
  lemma ScanBestExample()
    ensures ScanBest([1.0, 3.0, 3.0, 2.0], 0.0) == Some(1)
    ensures ScanBest([1.0, 3.0, 3.0, 2.0], 3.0) == None
  {
    var s := [1.0, 3.0, 3.0, 2.0];
    assert s[..3] == [1.0, 3.0, 3.0] && s[..3][..2] == [1.0, 3.0] && s[..3][..2][..1] == [1.0];
    assert [1.0][..0] == [];
    assert ScanBest([1.0, 3.0], 3.0) == None;
    assert ScanBest([1.0, 3.0, 3.0], 3.0) == None;
  }

  /** What a particle's snapshot holds: the two biases, the two best
      vectors, and draw lists that interleave to the stream it consumed. */
  predicate SnapshotFor(sp: SpeedParameters, globalBias: real, personalBias: real,
                        global: seq<real>, personal: seq<real>, stream: seq<real>)
  {
    && sp.GlobalBestBias == globalBias && sp.PersonalBestBias == personalBias
    && sp.GlobalBestSolution == global && sp.PersonalBestSolution == personal
    && |sp.RandomListGlobal| == |sp.RandomListPersonal|
    && Interleave(sp.RandomListGlobal, sp.RandomListPersonal) == stream
  }

  /** The snapshot a stream determines: its even draws are the global
      list and its odd draws the personal list. */
  function Snapshot(globalBias: real, personalBias: real, global: seq<real>, personal: seq<real>,
                    stream: seq<real>): (sp: SpeedParameters)
    requires |stream| % 2 == 0
    ensures 2 * |sp.RandomListGlobal| == |stream| && |sp.RandomListPersonal| == |sp.RandomListGlobal|
  {
    var lists := Deal(stream);
    SpeedParameters(globalBias, personalBias, global, personal, lists.0, lists.1)
  }

  /** The snapshot a stream determines is one that consumed it. */
  lemma SnapshotConsumes(globalBias: real, personalBias: real, global: seq<real>, personal: seq<real>,
                         stream: seq<real>)
    requires |stream| % 2 == 0
    ensures SnapshotFor(Snapshot(globalBias, personalBias, global, personal, stream),
                        globalBias, personalBias, global, personal, stream)
  {
    InterleaveDeal(stream);
  }

  /** A snapshot that consumed a stream is the one the stream determines. */
  lemma SnapshotForIsSnapshot(sp: SpeedParameters, globalBias: real, personalBias: real,
                              global: seq<real>, personal: seq<real>, stream: seq<real>)
    requires SnapshotFor(sp, globalBias, personalBias, global, personal, stream)
    ensures |stream| % 2 == 0 && sp == Snapshot(globalBias, personalBias, global, personal, stream)
  {
    DealInterleave(sp.RandomListGlobal, sp.RandomListPersonal);
  }

  /** The body of createSpeedParameters' loop for one particle: the
      biases and the two best vectors go into the snapshot, and per speed
      one global then one personal draw is taken from the stream. */
  method DrawSnapshot(globalBias: real, personalBias: real, global: seq<real>, personal: seq<real>,
                      count: nat, draws: seq<real>) returns (parameters: SpeedParameters, rest: seq<real>)
    requires 2 * count <= |draws|
    ensures parameters == Snapshot(globalBias, personalBias, global, personal, draws[..2 * count])
    ensures rest == draws[2 * count..]
  {
    var randomGlobal: seq<real> := [];
    var randomPersonal: seq<real> := [];
    rest := draws;
    for k := 0 to count
      invariant |randomGlobal| == k && |randomPersonal| == k
      invariant rest == draws[2 * k..]
      invariant Interleave(randomGlobal, randomPersonal) == draws[..2 * k]
    {
      assert randomGlobal == (randomGlobal + [rest[0]])[..k];
      assert randomPersonal == (randomPersonal + [rest[1]])[..k];
      assert draws[..2 * k + 2] == draws[..2 * k] + [rest[0], rest[1]];
      randomGlobal := randomGlobal + [rest[0]];
      randomPersonal := randomPersonal + [rest[1]];
      rest := rest[2..];
    }
    parameters := SpeedParameters(globalBias, personalBias, global, personal, randomGlobal, randomPersonal);
    SnapshotForIsSnapshot(parameters, globalBias, personalBias, global, personal, draws[..2 * count]);
  }

  lemma MulSucc(a: nat, b: nat)
    ensures a * (b + 1) == a * b + a
  {
  }

  lemma MulPred(a: nat, b: nat)
    requires b > 0
    ensures a * b == a * (b - 1) + a
  {
  }

  /** The stream holds `count` blocks of `width` draws. */
  predicate Enough(draws: seq<real>, width: nat, count: nat)
    decreases count
  {
    count == 0 || (width <= |draws| && Enough(draws[width..], width, count - 1))
  }

  lemma {:induction false} EnoughIff(draws: seq<real>, width: nat, count: nat)
    ensures Enough(draws, width, count) <==> width * count <= |draws|
    decreases count
  {
    if count > 0 {
      MulPred(width, count);
      if width <= |draws| {
        EnoughIff(draws[width..], width, count - 1);
      }
    }
  }

  /** The stream cut into `count` consecutive blocks of `width` draws. */
  function Blocks(draws: seq<real>, width: nat, count: nat): (r: seq<seq<real>>)
    requires Enough(draws, width, count)
    ensures |r| == count
    ensures forall j :: 0 <= j < count ==> |r[j]| == width
    decreases count
  {
    if count == 0 then []
    else
      [draws[..width]] + Blocks(draws[width..], width, count - 1)
  }

  function Concat(blocks: seq<seq<real>>): seq<real>
    decreases |blocks|
  {
    if blocks == [] then [] else blocks[0] + Concat(blocks[1..])
  }

  /** The blocks, one after the other, are exactly the draws consumed:
      nothing is skipped, repeated or reordered. */
  lemma {:induction false} BlocksConcat(draws: seq<real>, width: nat, count: nat)
    requires Enough(draws, width, count)
    ensures width * count <= |draws| && Concat(Blocks(draws, width, count)) == draws[..width * count]
    decreases count
  {
    if count > 0 {
      EnoughIff(draws, width, count);
      MulSucc(width, count - 1);
      BlocksConcat(draws[width..], width, count - 1);
      var r := Blocks(draws, width, count);
      assert r[1..] == Blocks(draws[width..], width, count - 1);
      assert draws[..width * count] == draws[..width] + draws[width..][..width * (count - 1)];
    }
  }

  /** One iteration's draws grouped per particle: a block of one global
      and one personal draw per parameter for each of `count` particles. */
  predicate Fits(blocks: seq<seq<real>>, count: nat, dimension: nat)
  {
    |blocks| == count && forall i :: 0 <= i < count ==> |blocks[i]| == 2 * dimension
  }

  /** A particle as the swarm holds it: the values its behaviour depends
      on and the snapshot it was last handed. */
  datatype SwarmParticle = SwarmParticle(State: ParticleState, SpeedParameters: Option<SpeedParameters>)

  /** The global best: null before RunPSO seeds it, the current solution
      of a particle itself (RunPSO seeds it with particle 0's, and the scan
      refers to particles' solutions in place), or a copy. */
  datatype GlobalBest =
    | Unset
    | Aliased(index: nat)
    | Copied(Parameters: seq<real>, Fitness: real)

  /** The global best refers to a solution that exists. */
  predicate Resolves(g: GlobalBest, ps: seq<SwarmParticle>)
  {
    g.Copied? || (g.Aliased? && g.index < |ps|)
  }

  /** The parameters the global best shows: an aliased solution shows the
      particle's current ones. */
  function ParametersOf(g: GlobalBest, ps: seq<SwarmParticle>): seq<real>
    requires Resolves(g, ps)
  {
    if g.Aliased? then ps[g.index].State.Parameters else g.Parameters
  }

  function FitnessOf(g: GlobalBest, ps: seq<SwarmParticle>): real
    requires Resolves(g, ps)
  {
    if g.Aliased? then ps[g.index].State.Fitness else g.Fitness
  }

  /** Current fitnesses in list order. */
  function Fitnesses(ps: seq<SwarmParticle>): (r: seq<real>)
    ensures |r| == |ps| && forall i :: 0 <= i < |ps| ==> r[i] == ps[i].State.Fitness
  {
    seq(|ps|, i requires 0 <= i < |ps| => ps[i].State.Fitness)
  }

  /** The scan of UpdateBestGlobalSolution: starting from the global
      best, a particle's current solution becomes the candidate when it
      is strictly better than the candidate so far. */
  method IterationBest(ps: seq<SwarmParticle>, globalBest: GlobalBest) returns (best: GlobalBest)
    requires Resolves(globalBest, ps)
    ensures var r := ScanBest(Fitnesses(ps), FitnessOf(globalBest, ps));
      best == if r.None? then globalBest else Aliased(r.value)
  {
    ghost var fitnesses := Fitnesses(ps);
    best := globalBest;
    for i := 0 to |ps|
      invariant var r := ScanBest(fitnesses[..i], FitnessOf(globalBest, ps));
        best == if r.None? then globalBest else Aliased(r.value)
    {
      assert fitnesses[..i + 1][..i] == fitnesses[..i];
      if ps[i].State.Fitness > FitnessOf(best, ps) {
        best := Aliased(i);
      }
    }
    assert fitnesses[..|ps|] == fitnesses;
  }

  /** Every vector of the particle has the swarm's dimension. */
  predicate Shaped(st: ParticleState, dimension: nat)
  {
    |st.Speeds| == dimension && |st.Parameters| == dimension && |st.BestParameters| == dimension
  }

  /** The particle holds a snapshot that covers its parameters. */
  predicate Armed(p: SwarmParticle)
  {
    p.SpeedParameters.Some? && Covers(p.State.Speeds, p.State.Parameters, p.SpeedParameters.value)
  }

  /** A particle's Iterate with its own snapshot, the common bounds and the
      common fitness function: the classic speed update, then the solution
      update. Its shape is kept and the snapshot is not consumed. */
  function Advance(p: SwarmParticle, min: real, max: real, f: seq<real> -> real): (r: SwarmParticle)
    requires Armed(p) && |p.State.Speeds| == |p.State.Parameters|
    ensures r.SpeedParameters == p.SpeedParameters
    ensures Shaped(p.State, |p.State.Speeds|) ==> Shaped(r.State, |p.State.Speeds|)
    ensures r.State.Fitness == f(r.State.Parameters) && r.State.BestFitness >= p.State.BestFitness
  {
    p.(State := IterateStep(p.State, p.SpeedParameters.value, min, max, f).value)
  }

  /** A snapshot drawn for a particle of the swarm's dimension covers it. */
  lemma SnapshotArms(p: SwarmParticle, dimension: nat, globalBias: real, personalBias: real,
                     global: seq<real>, stream: seq<real>)
    requires Shaped(p.State, dimension) && |global| == dimension && |stream| == 2 * dimension
    requires p.SpeedParameters.Some?
    requires SnapshotFor(p.SpeedParameters.value, globalBias, personalBias, global, p.State.BestParameters, stream)
    ensures Armed(p)
  {
  }

  /** createSpeedParameters for one particle: its state untouched, it
      holds the snapshot its block determines. */
  function Handed(p: SwarmParticle, globalBias: real, personalBias: real, global: seq<real>, block: seq<real>): (r: SwarmParticle)
    requires |block| % 2 == 0
    ensures r.State == p.State && r.SpeedParameters.Some?
    ensures |block| == 2 * |global| && Shaped(p.State, |global|) ==> Armed(r)
  {
    p.(SpeedParameters := Some(Snapshot(globalBias, personalBias, global, p.State.BestParameters, block)))
  }

  /** createSpeedParameters on values: every particle, its state
      untouched, holds the snapshot its own block determines, with the given
      biases and global best vector and its own best parameters. */
  function HandOut(ps: seq<SwarmParticle>, globalBias: real, personalBias: real, global: seq<real>,
                   blocks: seq<seq<real>>): (r: seq<SwarmParticle>)
    requires |blocks| == |ps| && forall i :: 0 <= i < |ps| ==> |blocks[i]| % 2 == 0
    ensures |r| == |ps|
    ensures forall i :: 0 <= i < |ps| ==> r[i].State == ps[i].State && r[i].SpeedParameters.Some?
    ensures forall i :: 0 <= i < |ps| && |blocks[i]| == 2 * |global| && Shaped(ps[i].State, |global|) ==> Armed(r[i])
  {
    seq(|ps|, i requires 0 <= i < |ps| => Handed(ps[i], globalBias, personalBias, global, blocks[i]))
  }

  /** Each particle's snapshot consumed its own block, with the given
      biases and global best vector and the particle's own best. */
  lemma HandOutSnapshots(ps: seq<SwarmParticle>, globalBias: real, personalBias: real, global: seq<real>,
                         blocks: seq<seq<real>>, i: nat)
    requires |blocks| == |ps| && forall j :: 0 <= j < |ps| ==> |blocks[j]| % 2 == 0
    requires i < |ps|
    ensures SnapshotFor(HandOut(ps, globalBias, personalBias, global, blocks)[i].SpeedParameters.value,
                        globalBias, personalBias, global, ps[i].State.BestParameters, blocks[i])
  {
    SnapshotConsumes(globalBias, personalBias, global, ps[i].State.BestParameters, blocks[i]);
  }

  /** The particles Advance can move. */
  predicate Movable(ps: seq<SwarmParticle>)
  {
    forall i :: 0 <= i < |ps| ==> Armed(ps[i]) && |ps[i].State.Speeds| == |ps[i].State.Parameters|
  }

  /** Every particle advanced once, each with its own snapshot. */
  function AdvanceAll(ps: seq<SwarmParticle>, min: real, max: real, f: seq<real> -> real): (r: seq<SwarmParticle>)
    requires Movable(ps)
    ensures |r| == |ps| && forall i :: 0 <= i < |ps| ==> r[i] == Advance(ps[i], min, max, f)
  {
    seq(|ps|, i requires 0 <= i < |ps| && Movable(ps) => Advance(ps[i], min, max, f))
  }

  /** UpdateBestGlobalSolution on values: the scan's candidate replaces the
      global best by a copy of its solution, or the global best stays as
      it is when no particle is strictly better. */
  function Rescan(ps: seq<SwarmParticle>, g: GlobalBest): (r: GlobalBest)
    requires Resolves(g, ps)
    ensures Resolves(r, ps)
  {
    match ScanBest(Fitnesses(ps), FitnessOf(g, ps))
    case None => g
    case Some(k) => Copied(ps[k].State.Parameters, ps[k].State.Fitness)
  }

  /** No particle's current fitness exceeds the global best's. */
  predicate Dominated(ps: seq<SwarmParticle>, g: GlobalBest)
  {
    Resolves(g, ps) && forall i :: 0 <= i < |ps| ==> ps[i].State.Fitness <= FitnessOf(g, ps)
  }

  /** After the rescan the global best is at least as fit as before and
      at least as fit as every particle; it changes only for a particle
      strictly fitter than it, the first of the fittest. */
  lemma RescanBest(ps: seq<SwarmParticle>, g: GlobalBest)
    requires Resolves(g, ps)
    ensures FitnessOf(Rescan(ps, g), ps) >= FitnessOf(g, ps)
    ensures Dominated(ps, Rescan(ps, g))
    ensures Rescan(ps, g) == g <==> forall i :: 0 <= i < |ps| ==> ps[i].State.Fitness <= FitnessOf(g, ps)
    ensures Rescan(ps, g) != g ==>
      exists k :: (0 <= k < |ps| && Rescan(ps, g) == Copied(ps[k].State.Parameters, ps[k].State.Fitness)
                   && ps[k].State.Fitness > FitnessOf(g, ps)
                   && forall i :: 0 <= i < k ==> ps[i].State.Fitness < ps[k].State.Fitness)
  {
    ScanBestIsFirstMaximum(Fitnesses(ps), FitnessOf(g, ps));
  }

  /** A copied global best keeps its fitness whatever the particles do, so
      across a move and a rescan its fitness never falls. */
  lemma CopiedBestNeverFalls(before: seq<SwarmParticle>, after: seq<SwarmParticle>, g: GlobalBest)
    requires g.Copied?
    ensures FitnessOf(Rescan(after, g), after) >= FitnessOf(g, before)
  {
    RescanBest(after, g);
  }

  /** While the global best is particle 0's own current solution, it
      moves with that particle: here the particle steps from 0 to 1 under a
      fitness of minus its first parameter, nothing beats it in the rescan,
      and the global best's fitness falls from 0 to -1. */
  lemma AliasedBestCanFall()
    ensures var f := (x: seq<real>) => if |x| > 0 then -x[0] else 0.0;
      var p := SwarmParticle(ParticleState([1.0], [0.0], 0.0, [0.0], 0.0),
                             Some(SpeedParameters(0.0, 0.0, [0.0], [0.0], [0.5], [0.5])));
      var moved := [Advance(p, -10.0, 10.0, f)];
      && FitnessOf(Aliased(0), [p]) == 0.0
      && Rescan(moved, Aliased(0)) == Aliased(0)
      && FitnessOf(Rescan(moved, Aliased(0)), moved) == -1.0
  {
    var f := (x: seq<real>) => if |x| > 0 then -x[0] else 0.0;
    var p := SwarmParticle(ParticleState([1.0], [0.0], 0.0, [0.0], 0.0),
                           Some(SpeedParameters(0.0, 0.0, [0.0], [0.0], [0.5], [0.5])));
    var moved := [Advance(p, -10.0, 10.0, f)];
    assert ClassicSpeeds([1.0], [0.0], p.SpeedParameters.value) == [1.0];
    assert moved[0].State.Parameters == [1.0];
    ScanBestIsFirstMaximum(Fitnesses(moved), FitnessOf(Aliased(0), moved));
  }

  /** The settings an iteration reads: the two biases, the parameter
      bounds, the solution function and the common dimension. */
  datatype Settings = Settings(GlobalBias: real, PersonalBias: real, Min: real, Max: real,
                               Solution: seq<real> -> real, Dimension: nat)

  /** The swarm on values: its particles and its global best. */
  datatype SwarmState = SwarmState(Particles: seq<SwarmParticle>, Best: GlobalBest)

  /** A state an iteration can run on: every particle has the dimension,
      and the global best is seeded and refers to a solution of it. */
  predicate Ready(s: SwarmState, dimension: nat)
  {
    && (forall i :: 0 <= i < |s.Particles| ==> Shaped(s.Particles[i].State, dimension))
    && Resolves(s.Best, s.Particles)
    && (s.Best.Copied? ==> |s.Best.Parameters| == dimension)
  }

  function BestFitness(s: SwarmState): real
    requires Resolves(s.Best, s.Particles)
  {
    FitnessOf(s.Best, s.Particles)
  }

  /** A rescan keeps a state ready: a copied candidate is a particle's
      solution, of the dimension. */
  lemma RescanReady(s: SwarmState, dimension: nat)
    requires Ready(s, dimension)
    ensures Ready(SwarmState(s.Particles, Rescan(s.Particles, s.Best)), dimension)
  {
    var r := ScanBest(Fitnesses(s.Particles), FitnessOf(s.Best, s.Particles));
    if r.Some? {
      assert Shaped(s.Particles[r.value].State, dimension);
    }
  }

  /** RunPSO's seed: the global best is particle 0's own solution, then
      rescanned. */
  function Seed(ps: seq<SwarmParticle>, dimension: nat): (r: SwarmState)
    requires |ps| > 0 && forall i :: 0 <= i < |ps| ==> Shaped(ps[i].State, dimension)
    ensures Ready(r, dimension) && r.Particles == ps
    ensures Dominated(r.Particles, r.Best) && BestFitness(r) >= ps[0].State.Fitness
  {
    RescanReady(SwarmState(ps, Aliased(0)), dimension);
    RescanBest(ps, Aliased(0));
    SwarmState(ps, Rescan(ps, Aliased(0)))
  }

  /** Swarm.Iterate on values: every particle is handed its snapshot from
      the old state, all of them then advance once, and the old global best
      is rescanned against the moved particles. The step keeps the state
      ready and leaves no particle fitter than the global best. */
  function SwarmStep(s: SwarmState, blocks: seq<seq<real>>, c: Settings): (r: SwarmState)
    requires Ready(s, c.Dimension) && Fits(blocks, |s.Particles|, c.Dimension)
    ensures Ready(r, c.Dimension) && |r.Particles| == |s.Particles|
    ensures Dominated(r.Particles, r.Best)
  {
    var global := ParametersOf(s.Best, s.Particles);
    var handed := HandOut(s.Particles, c.GlobalBias, c.PersonalBias, global, blocks);
    assert Movable(handed) by {
      forall i | 0 <= i < |handed|
        ensures Armed(handed[i]) && |handed[i].State.Speeds| == |handed[i].State.Parameters|
      {
        assert Shaped(s.Particles[i].State, c.Dimension);
      }
    }
    var moved := AdvanceAll(handed, c.Min, c.Max, c.Solution);
    assert Ready(SwarmState(moved, s.Best), c.Dimension) by {
      forall i | 0 <= i < |moved|
        ensures Shaped(moved[i].State, c.Dimension)
      {
        assert Shaped(handed[i].State, c.Dimension);
      }
    }
    RescanReady(SwarmState(moved, s.Best), c.Dimension);
    RescanBest(moved, s.Best);
    SwarmState(moved, Rescan(moved, s.Best))
  }

  /** One step moves particle i exactly as its own Iterate with the
      snapshot its block determines, and the global best of the step is
      the old one rescanned against the moved particles. */
  lemma SwarmStepMovesEach(s: SwarmState, blocks: seq<seq<real>>, c: Settings, i: nat)
    requires Ready(s, c.Dimension) && Fits(blocks, |s.Particles|, c.Dimension) && i < |s.Particles|
    ensures var r := SwarmStep(s, blocks, c);
      && Armed(Handed(s.Particles[i], c.GlobalBias, c.PersonalBias, ParametersOf(s.Best, s.Particles), blocks[i]))
      && r.Particles[i] == Advance(Handed(s.Particles[i], c.GlobalBias, c.PersonalBias,
                                          ParametersOf(s.Best, s.Particles), blocks[i]), c.Min, c.Max, c.Solution)
      && r.Best == Rescan(r.Particles, s.Best)
  {
    assert Shaped(s.Particles[i].State, c.Dimension);
  }

  /** The state after the first k rounds, one step per round. */
  function Steps(s: SwarmState, rounds: seq<seq<seq<real>>>, k: nat, c: Settings): (r: SwarmState)
    requires Ready(s, c.Dimension) && k <= |rounds|
    requires forall t :: 0 <= t < |rounds| ==> Fits(rounds[t], |s.Particles|, c.Dimension)
    ensures Ready(r, c.Dimension) && |r.Particles| == |s.Particles|
    ensures k > 0 ==> Dominated(r.Particles, r.Best)
  {
    if k == 0 then s else SwarmStep(Steps(s, rounds, k - 1, c), rounds[k - 1], c)
  }

  /** The global best's fitness once the first k rounds have run. */
  function FitnessAfter(s: SwarmState, rounds: seq<seq<seq<real>>>, k: nat, c: Settings): real
    requires Ready(s, c.Dimension) && k <= |rounds|
    requires forall t :: 0 <= t < |rounds| ==> Fits(rounds[t], |s.Particles|, c.Dimension)
  {
    BestFitness(Steps(s, rounds, k, c))
  }

  /** The global best's fitness after each of the first `max` rounds:
      entry t once t + 1 rounds have run. */
  function FitnessesAfter(s: SwarmState, rounds: seq<seq<seq<real>>>, max: nat, c: Settings): (r: seq<real>)
    requires Ready(s, c.Dimension) && max <= |rounds|
    requires forall t :: 0 <= t < |rounds| ==> Fits(rounds[t], |s.Particles|, c.Dimension)
    ensures |r| == max
  {
    seq(max, t requires 0 <= t < max => FitnessAfter(s, rounds, t + 1, c))
  }

  /** Entry t is the global best's fitness once t + 1 rounds have run. */
  lemma FitnessesAfterAt(s: SwarmState, rounds: seq<seq<seq<real>>>, max: nat, c: Settings, t: nat)
    requires Ready(s, c.Dimension) && max <= |rounds|
    requires forall t :: 0 <= t < |rounds| ==> Fits(rounds[t], |s.Particles|, c.Dimension)
    requires t < max
    ensures FitnessesAfter(s, rounds, max, c)[t] == BestFitness(Steps(s, rounds, t + 1, c))
  {
    assert FitnessesAfter(s, rounds, max, c)[t] == FitnessAfter(s, rounds, t + 1, c);
  }

  /** How many rounds a run lasts when k have run without stopping, given
      the fitness after each round: it stops right after the first round
      that leaves the fitness strictly above the threshold, and after all
      of them at the latest. */
  function StopLength(fitnesses: seq<real>, threshold: real, k: nat): (n: nat)
    requires k <= |fitnesses|
    ensures k <= n <= |fitnesses|
    decreases |fitnesses| - k
  {
    if k == |fitnesses| then k
    else if fitnesses[k] > threshold then k + 1
    else StopLength(fitnesses, threshold, k + 1)
  }

  /** A run from round k lasts at least one more round unless none is
      left, and at most all of them; every round before the last leaves
      the fitness at most the threshold, and a run that ends early ends on
      a round that leaves it strictly above. */
  lemma {:induction false} StopLengthSpec(fitnesses: seq<real>, threshold: real, k: nat)
    requires k <= |fitnesses|
    ensures var n := StopLength(fitnesses, threshold, k);
      && (k < |fitnesses| ==> k < n)
      && (forall t :: k <= t < n - 1 ==> fitnesses[t] <= threshold)
      && (n < |fitnesses| ==> fitnesses[n - 1] > threshold)
    decreases |fitnesses| - k
  {
    if k < |fitnesses| && fitnesses[k] <= threshold {
      StopLengthSpec(fitnesses, threshold, k + 1);
    }
  }

  /** Every index some set names. */
  function Members(sets: seq<seq<nat>>): set<nat>
  {
    Visited(sets, |sets|, 0)
  }

  /** The sets name only particles of the swarm, every particle appears in
      some set, and no particle appears twice. */
  predicate Partition(sets: seq<seq<nat>>, count: nat)
  {
    && (forall k, j :: 0 <= k < |sets| && 0 <= j < |sets[k]| ==> sets[k][j] < count)
    && (forall i :: 0 <= i < count ==> i in Members(sets))
    && (forall k1, j1, k2, j2 ::
          0 <= k1 < |sets| && 0 <= j1 < |sets[k1]| &&
          0 <= k2 < |sets| && 0 <= j2 < |sets[k2]| &&
          (k1 != k2 || j1 != j2)
          ==> sets[k1][j1] != sets[k2][j2])
  }

  /** The members of the sets that come before position j of set k, in
      the order the sets are walked: all of sets 0 .. k-1, then the first
      j of set k. */
  function Visited(sets: seq<seq<nat>>, k: nat, j: nat): set<nat>
  {
    set k', j' | 0 <= k' < |sets| && 0 <= j' < |sets[k']| && (k' < k || (k' == k && j' < j)) :: sets[k'][j']
  }

  lemma VisitedStep(sets: seq<seq<nat>>, k: nat, j: nat)
    requires k < |sets| && j < |sets[k]|
    ensures Visited(sets, k, j + 1) == Visited(sets, k, j) + {sets[k][j]}
  {
  }

  lemma VisitedNext(sets: seq<seq<nat>>, k: nat)
    requires k < |sets|
    ensures Visited(sets, k, |sets[k]|) == Visited(sets, k + 1, 0)
  {
  }

  /** Under a partition, the member at a position has not been met at
      any earlier position. */
  lemma NotYetVisited(sets: seq<seq<nat>>, count: nat, k: nat, j: nat)
    requires Partition(sets, count) && k < |sets| && j < |sets[k]|
    ensures sets[k][j] !in Visited(sets, k, j)
  {
  }

  /** The classic swarm. Construction (random initial positions and the
      split into sets) is not modelled: the constructor takes the
      particles and the sets as built. All particles share the solution
      function and the parameter bounds they were created with. */
  class Swarm {
    var Particles: seq<SwarmParticle>
    var GlobalBestSolution: GlobalBest
    const MaxIterations: nat
    const FitnessThreshold: real
    const GlobalBestBias: real
    const PersonalBestBias: real
    /** Each set lists particles by their index in Particles. */
    const ParticleSets: seq<seq<nat>>
    const RunSolution: seq<real> -> real
    const MinimumParameterValue: real
    const MaximumParameterValue: real
    /** The common number of parameters (NumberOfParameters). */
    const Dimension: nat

    /** What an iteration reads of the swarm's settings. */
    function Config(): Settings
    {
      Settings(GlobalBestBias, PersonalBestBias, MinimumParameterValue, MaximumParameterValue, RunSolution, Dimension)
    }

    ghost predicate Valid()
      reads this
    {
      && (forall i :: 0 <= i < |Particles| ==> Shaped(Particles[i].State, Dimension))
      && (GlobalBestSolution.Aliased? ==> GlobalBestSolution.index < |Particles|)
      && (GlobalBestSolution.Copied? ==> |GlobalBestSolution.Parameters| == Dimension)
    }

    constructor (particles: seq<SwarmParticle>, sets: seq<seq<nat>>, maxIterations: nat, fitnessThreshold: real,
                 globalBestBias: real, personalBestBias: real, runSolution: seq<real> -> real,
                 minParameter: real, maxParameter: real, dimension: nat)
      ensures Particles == particles && ParticleSets == sets && GlobalBestSolution == Unset
      ensures MaxIterations == maxIterations && FitnessThreshold == fitnessThreshold
      ensures GlobalBestBias == globalBestBias && PersonalBestBias == personalBestBias
      ensures RunSolution == runSolution && MinimumParameterValue == minParameter && MaximumParameterValue == maxParameter
      ensures Dimension == dimension
    {
      Particles := particles;
      ParticleSets := sets;
      GlobalBestSolution := Unset;
      MaxIterations := maxIterations;
      FitnessThreshold := fitnessThreshold;
      GlobalBestBias := globalBestBias;
      PersonalBestBias := personalBestBias;
      RunSolution := runSolution;
      MinimumParameterValue := minParameter;
      MaximumParameterValue := maxParameter;
      Dimension := dimension;
    }

    /** ClassicSwarm.createSpeedParameters: in list order, each particle
        gets a snapshot with the swarm's biases, copies of the global best's
        and of its own personal best's parameters, and one global and one
        personal draw per speed, taken alternately from the stream. */
    method CreateSpeedParameters(blocks: seq<seq<real>>)
      requires Valid() && GlobalBestSolution != Unset && Fits(blocks, |Particles|, Dimension)
      modifies this`Particles
      ensures Valid() && |Particles| == old(|Particles|)
      ensures Particles == HandOut(old(Particles), GlobalBestBias, PersonalBestBias,
                                   old(ParametersOf(GlobalBestSolution, Particles)), blocks)
    {
      var global := ParametersOf(GlobalBestSolution, Particles);
      var ps := Particles;
      ghost var before := ps;
      assert forall j :: 0 <= j < |ps| ==> Shaped(before[j].State, Dimension);
      for i := 0 to |ps|
        invariant |ps| == |before|
        invariant forall j :: i <= j < |ps| ==> ps[j] == before[j]
        invariant forall j :: 0 <= j < i ==> ps[j] == before[j].(SpeedParameters :=
          Some(Snapshot(GlobalBestBias, PersonalBestBias, global, before[j].State.BestParameters, blocks[j])))
      {
        var particle := ps[i];
        var parameters, _ := DrawSnapshot(GlobalBestBias, PersonalBestBias, global,
                                          particle.State.BestParameters, |particle.State.Speeds|, blocks[i]);
        assert blocks[i][..2 * Dimension] == blocks[i];
        ps := ps[i := particle.(SpeedParameters := Some(parameters))];
      }
      Particles := ps;
    }

    /** The sets, walked in order and each in list order, iterate their
        particles; with the sets a partition of the swarm every particle
        advances exactly once. The global best is not touched, though an
        aliased one shows the moved particle. */
    method IterateSets()
      requires Valid() && Partition(ParticleSets, |Particles|)
      requires forall i :: 0 <= i < |Particles| ==> Armed(Particles[i])
      modifies this`Particles
      ensures Valid()
      ensures Particles == AdvanceAll(old(Particles), MinimumParameterValue, MaximumParameterValue, RunSolution)
    {
      var ps := Particles;
      ghost var before := ps;
      ghost var n := |ps|;
      assert forall i :: 0 <= i < n ==> Shaped(before[i].State, Dimension) && Armed(before[i]);
      for k := 0 to |ParticleSets|
        invariant |ps| == n
        invariant forall i :: 0 <= i < n ==>
          ps[i] == if i in Visited(ParticleSets, k, 0)
                   then Advance(before[i], MinimumParameterValue, MaximumParameterValue, RunSolution)
                   else before[i]
      {
        for j := 0 to |ParticleSets[k]|
          invariant |ps| == n
          invariant forall i :: 0 <= i < n ==>
            ps[i] == if i in Visited(ParticleSets, k, j)
                     then Advance(before[i], MinimumParameterValue, MaximumParameterValue, RunSolution)
                     else before[i]
        {
          var index := ParticleSets[k][j];
          NotYetVisited(ParticleSets, n, k, j);
          VisitedStep(ParticleSets, k, j);
          ps := ps[index := Advance(ps[index], MinimumParameterValue, MaximumParameterValue, RunSolution)];
        }
        VisitedNext(ParticleSets, k);
      }
      assert Members(ParticleSets) == Visited(ParticleSets, |ParticleSets|, 0);
      assert forall i :: 0 <= i < n ==> i in Members(ParticleSets);
      Particles := ps;
      assert Movable(old(Particles));
    }

    /** Replaces the global best by a copy of the scan's candidate when
        that is strictly better; otherwise the reference is kept. */
    method UpdateBestGlobalSolution()
      requires Valid() && GlobalBestSolution != Unset
      modifies this`GlobalBestSolution
      ensures Valid()
      ensures GlobalBestSolution == Rescan(Particles, old(GlobalBestSolution))
      ensures Dominated(Particles, GlobalBestSolution)
    {
      ScanBestIsFirstMaximum(Fitnesses(Particles), FitnessOf(GlobalBestSolution, Particles));
      var iterationBest := IterationBest(Particles, GlobalBestSolution);
      if FitnessOf(iterationBest, Particles) > FitnessOf(GlobalBestSolution, Particles) {
        GlobalBestSolution := Copied(ParametersOf(iterationBest, Particles), FitnessOf(iterationBest, Particles));
      }
    }

    /** Swarm.Iterate: every particle gets its snapshot before any particle
        moves, every particle then advances once with it, and only then is
        the global best updated. An aliased global best is scanned against
        the moved particles. */
    method Iterate(blocks: seq<seq<real>>)
      requires Valid() && GlobalBestSolution != Unset && Partition(ParticleSets, |Particles|)
      requires Fits(blocks, |Particles|, Dimension)
      modifies this`Particles, this`GlobalBestSolution
      ensures Valid() && |Particles| == old(|Particles|) && Dominated(Particles, GlobalBestSolution)
      ensures SwarmState(Particles, GlobalBestSolution) ==
        SwarmStep(SwarmState(old(Particles), old(GlobalBestSolution)), blocks, Config())
    {
      ghost var handed := HandOut(Particles, GlobalBestBias, PersonalBestBias,
                                  ParametersOf(GlobalBestSolution, Particles), blocks);
      CreateSpeedParameters(blocks);
      IterateSets();
      ghost var moved := Particles;
      assert moved == AdvanceAll(handed, MinimumParameterValue, MaximumParameterValue, RunSolution);
      assert forall i :: 0 <= i < |handed| ==> handed[i] == Handed(old(Particles[i]), GlobalBestBias, PersonalBestBias,
                                       old(ParametersOf(GlobalBestSolution, Particles)), blocks[i]);
      UpdateBestGlobalSolution();
    }

    /** ClassicSwarm.RunPSO: seeds the global best with particle 0's own
        current solution (an empty swarm throws before anything changes),
        updates it, then iterates, one round of draws per iteration: at
        most MaxIterations times, and stopping right after the first
        iteration that leaves the global best's fitness strictly above
        FitnessThreshold (StopLength); the threshold is not looked at
        before the first iteration. */
    method RunPSO(rounds: seq<seq<seq<real>>>) returns (result: Result<GlobalBest>)
      requires Valid() && Partition(ParticleSets, |Particles|)
      requires |rounds| >= MaxIterations
      requires forall t :: 0 <= t < |rounds| ==> Fits(rounds[t], |Particles|, Dimension)
      modifies this`Particles, this`GlobalBestSolution
      ensures result.Failure? <==> old(|Particles|) == 0
      ensures result.Failure? ==>
        && result.exception == ArgumentOutOfRange
        && Particles == old(Particles) && GlobalBestSolution == old(GlobalBestSolution)
      ensures result.Success? ==>
        && Valid() && result.value == GlobalBestSolution && GlobalBestSolution != Unset
        && Dominated(Particles, GlobalBestSolution)
        && var seed := Seed(old(Particles), Dimension);
           var fitnesses := FitnessesAfter(seed, rounds, MaxIterations, Config());
           SwarmState(Particles, GlobalBestSolution) ==
             Steps(seed, rounds, StopLength(fitnesses, FitnessThreshold, 0), Config())
    {
      if |Particles| == 0 {
        return Failure(ArgumentOutOfRange);
      }
      var currentIteration: nat := 0;
      GlobalBestSolution := Aliased(0);
      UpdateBestGlobalSolution();
      ghost var n := |Particles|;
      ghost var seed := Seed(old(Particles), Dimension);
      ghost var fitnesses := FitnessesAfter(seed, rounds, MaxIterations, Config());
      ghost var length := StopLength(fitnesses, FitnessThreshold, 0);
      assert SwarmState(Particles, GlobalBestSolution) == seed;
      while currentIteration < MaxIterations
        invariant currentIteration <= MaxIterations
        invariant Valid() && GlobalBestSolution != Unset && |Particles| == n
        invariant Dominated(Particles, GlobalBestSolution)
        invariant SwarmState(Particles, GlobalBestSolution) == Steps(seed, rounds, currentIteration, Config())
        invariant length == StopLength(fitnesses, FitnessThreshold, currentIteration)
      {
        Iterate(rounds[currentIteration]);
        ghost var after := Steps(seed, rounds, currentIteration + 1, Config());
        assert SwarmState(Particles, GlobalBestSolution) == after;
        var fitness := FitnessOf(GlobalBestSolution, Particles);
        FitnessesAfterAt(seed, rounds, MaxIterations, Config(), currentIteration);
        assert fitnesses[currentIteration] == fitness;
        currentIteration := currentIteration + 1;
        if fitness > FitnessThreshold {
          break;
        }
      }
      assert currentIteration == length;
      result := Success(GlobalBestSolution);
    }
  }
}
