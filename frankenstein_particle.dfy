/**
 * The Frankenstein particle: an inertia particle that keeps an ordered list
 * of connected particle ids. On a fixed schedule it drops the link a few
 * positions after its own id (and its own id from that neighbour's list),
 * and it pulls toward the personal best of every connected particle.
 */
module FrankensteinParticles {
  import opened Wrappers
  import opened ClassicSolutions
  import opened Particles
  import opened InertiaParticles

  /** Unsigned 32-bit arithmetic: the value kept by a truncating cast. */
  const TwoTo32: int := 0x1_0000_0000

  function ToUInt32(x: int): (r: nat)
    ensures r < TwoTo32
    ensures 0 <= x < TwoTo32 ==> r == x
  {
    x % TwoTo32
  }

  /** Signed division rounding toward zero, as on C# integers. */
  function TruncDiv(a: int, b: int): (q: int)
    requires b != 0
    ensures a >= 0 && b > 0 ==> q == a / b
    ensures a >= 0 && b < 0 ==> q <= 0
  {
    if (a >= 0) == (b > 0) then (if a >= 0 then a / b else (-a) / (-b))
    else -((if a >= 0 then a else -a) / (if b > 0 then b else -b))
  }

  predicate Distinct(s: seq<int>)
  {
    forall i, j :: 0 <= i < j < |s| ==> s[i] != s[j]
  }

  /** Position of the first occurrence of x (LinkedList.Find, List.Find). */
  function IndexOf(s: seq<int>, x: int): (r: Option<nat>)
    ensures r.None? <==> x !in s
    ensures r.Some? ==> r.value < |s| && s[r.value] == x && x !in s[..r.value]
  {
    if s == [] then None
    else if s[0] == x then Some(0)
    else match IndexOf(s[1..], x)
      case None => None
      case Some(k) =>
        assert s[1..][..k] == s[1..k + 1];
        Some(k + 1)
  }

  function RemoveAt(s: seq<int>, k: nat): seq<int>
    requires k < |s|
  {
    s[..k] + s[k + 1..]
  }

  /** LinkedList.Remove(value): drops the first occurrence, if any. */
  function RemoveFirst(s: seq<int>, x: int): (r: seq<int>)
    ensures x !in s ==> r == s
    ensures x in s ==> |r| == |s| - 1
    ensures x in s ==> exists k :: 0 <= k < |s| && s[k] == x && x !in s[..k] && r == s[..k] + s[k + 1..]
  {
    match IndexOf(s, x)
    case None => s
    case Some(k) => RemoveAt(s, k)
  }

  /** In a list without repetitions, removing one position removes exactly
      that id and keeps the others, in order and without repetitions. */
  lemma RemoveAtDistinct(s: seq<int>, k: nat)
    requires Distinct(s) && k < |s|
    ensures Distinct(RemoveAt(s, k))
    ensures s[k] !in RemoveAt(s, k)
    ensures forall i :: 0 <= i < |s| && i != k ==> s[i] in RemoveAt(s, k)
  {
    var r := RemoveAt(s, k);
    assert forall i :: 0 <= i < |r| ==> r[i] == (if i < k then s[i] else s[i + 1]);
    forall i | 0 <= i < |s| && i != k
      ensures s[i] in r
    {
      if i < k { assert r[i] == s[i]; } else { assert r[i - 1] == s[i]; }
    }
  }

  /** The removal interval `FinalTopologyUpdate / (|Particles| - 3)`:
      signed division, then a truncating cast to UInt32; none when the
      divisor is zero. */
  function RemovalInterval(finalTopologyUpdate: nat, particleCount: nat): (r: Option<nat>)
    ensures r.None? <==> particleCount == 3
    ensures particleCount > 3 && finalTopologyUpdate < TwoTo32 ==> r == Some(finalTopologyUpdate / (particleCount - 3))
  {
    if particleCount == 3 then None
    else Some(ToUInt32(TruncDiv(finalTopologyUpdate, particleCount - 3)))
  }

  /** Whether this iteration is a pruning one: the interval is computed
      first (a zero divisor throws), the modulo only when the iteration has
      not passed FinalTopologyUpdate (a zero interval throws). */
  function Schedule(iteration: nat, finalTopologyUpdate: nat, particleCount: nat): (r: Result<bool>)
    ensures r.Failure? ==> r.exception == DivideByZero
    ensures r == Success(true) <==>
      iteration <= finalTopologyUpdate && particleCount != 3 &&
      RemovalInterval(finalTopologyUpdate, particleCount).value > 0 &&
      iteration % RemovalInterval(finalTopologyUpdate, particleCount).value ==
        RemovalInterval(finalTopologyUpdate, particleCount).value - 1
    ensures iteration > finalTopologyUpdate && particleCount != 3 ==> r == Success(false)
  {
    match RemovalInterval(finalTopologyUpdate, particleCount)
    case None => Failure(DivideByZero)
    case Some(removalIteration) =>
      if iteration > finalTopologyUpdate then Success(false)
      else if removalIteration == 0 then Failure(DivideByZero)
      else Success(iteration % removalIteration == removalIteration - 1)
  }

  /** The node reached by walking `steps` times `.Next` from the own id;
      none when the id is missing or the walk runs off the end. */
  function Target(ids: seq<int>, id: int, steps: nat): (r: Option<nat>)
    ensures r.Some? <==> id in ids && IndexOf(ids, id).value + steps < |ids|
    ensures r.Some? ==> r.value == IndexOf(ids, id).value + steps
  {
    match IndexOf(ids, id)
    case None => None
    case Some(position) => if position + steps < |ids| then Some(position + steps) else None
  }

  /** The outcome of one pruning call: the new own list, the new trimming
      count, and the index in Particles of the neighbour whose list loses
      the own id. */
  datatype Pruning = Pruning(Ids: seq<int>, Trimming: nat, Partner: Option<nat>)

  /** Whether the own link list may shrink in this scheduled iteration. */
  predicate Eligible(id: nat, particleCount: nat, trimming: nat, ids: seq<int>)
  {
    id < particleCount - 3 - trimming && |ids| > 3
  }

  /** UpdateConnectedParticles on values. */
  function PruneStep(iteration: nat, finalTopologyUpdate: nat, particleIds: seq<int>, id: nat,
                     trimming: nat, ids: seq<int>, steps: nat): Result<Pruning>
  {
    match Schedule(iteration, finalTopologyUpdate, |particleIds|)
    case Failure(e) => Failure(e)
    case Success(due) =>
      if !due then Success(Pruning(ids, trimming, None))
      else if !Eligible(id, |particleIds|, trimming, ids) then Success(Pruning(ids, trimming + 1, None))
      else match Target(ids, id, steps)
        case None => Failure(NullReference)
        case Some(k) =>
          match IndexOf(particleIds, ids[k])
          case None => Failure(NullReference)
          case Some(j) => Success(Pruning(RemoveAt(ids, k), trimming + 1, Some(j)))
  }

  /** The trimming count grows by exactly one on every scheduled iteration,
      whether or not a link goes, and otherwise stays. */
  lemma PruneCountsScheduledIterations(iteration: nat, finalTopologyUpdate: nat, particleIds: seq<int>, id: nat,
                                       trimming: nat, ids: seq<int>, steps: nat)
    requires PruneStep(iteration, finalTopologyUpdate, particleIds, id, trimming, ids, steps).Success?
    ensures var r := PruneStep(iteration, finalTopologyUpdate, particleIds, id, trimming, ids, steps).value;
      r.Trimming == trimming + (if Schedule(iteration, finalTopologyUpdate, |particleIds|) == Success(true) then 1 else 0)
  {
  }

  /** A link goes only on a scheduled iteration of an eligible particle,
      and then exactly the node `steps` after the own id: the own id stays,
      the other ids keep their order, nothing repeats, and the list keeps
      at least three members. */
  lemma PruneRemovesTarget(iteration: nat, finalTopologyUpdate: nat, particleIds: seq<int>, id: nat,
                           trimming: nat, ids: seq<int>, steps: nat)
    requires Distinct(ids) && steps > 0
    requires PruneStep(iteration, finalTopologyUpdate, particleIds, id, trimming, ids, steps).Success?
    ensures var r := PruneStep(iteration, finalTopologyUpdate, particleIds, id, trimming, ids, steps).value;
      && Distinct(r.Ids)
      && (|ids| >= 3 ==> |r.Ids| >= 3)
      && (r.Partner.None? ==> r.Ids == ids)
      && (r.Partner.Some? ==>
            && Schedule(iteration, finalTopologyUpdate, |particleIds|) == Success(true)
            && Eligible(id, |particleIds|, trimming, ids)
            && var k := IndexOf(ids, id).value + steps;
               && k < |ids| && r.Ids == RemoveAt(ids, k)
               && id in r.Ids && ids[k] !in r.Ids && ids[k] != id
               && r.Partner.value < |particleIds| && particleIds[r.Partner.value] == ids[k])
  {
    var r := PruneStep(iteration, finalTopologyUpdate, particleIds, id, trimming, ids, steps).value;
    if r.Partner.Some? {
      assert Schedule(iteration, finalTopologyUpdate, |particleIds|) == Success(true);
      var k := IndexOf(ids, id).value + steps;
      assert Target(ids, id, steps) == Some(k);
      RemoveAtDistinct(ids, k);
    }
  }

  /** The offset passed by SetSpeedParameters: `Next(|ConnectedIds| - 3) + 2`,
      where Next(n) throws for a negative n. With a draw in the range of
      Next(n - 3) the offset lies in [2, n - 2] once the list has more than
      three members (and is 2 for exactly three). */
  function RemovalOffset(count: nat, draw: nat): (r: Result<nat>)
    ensures r.Failure? <==> count < 3
    ensures r.Failure? ==> r.exception == ArgumentOutOfRange
    ensures r.Success? ==> r.value == draw + 2
    ensures count > 3 && draw < count - 3 ==> r.Success? && 2 <= r.value <= count - 2
    ensures count == 3 && draw == 0 ==> r == Success(2)
  {
    if count < 3 then Failure(ArgumentOutOfRange) else Success(draw + 2)
  }

  /** The pruning sequence of the worked schedule: seven particles, ids
      0..6, FinalTopologyUpdate 8, offset 2, called at iterations 0..7 by
      particle 0, whose list starts as [0, 1, 2, 3, 4, 5, 6]. Ids 2, 3, 4,
      5 go at iterations 1, 3, 5, 7 (WorkedPruningStep1 to WorkedPruningStep7), the even
      iterations change only nothing, and each of those neighbours, whose
      list was [0], loses the id 0. */
  lemma WorkedPruningSchedule()
    ensures RemoveFirst([0], 0) == []
    ensures forall t: nat, trimming: nat, ids: seq<int> | t % 2 == 0 && t <= 8 ::
      PruneStep(t, 8, [0, 1, 2, 3, 4, 5, 6], 0, trimming, ids, 2) == Success(Pruning(ids, trimming, None))
  {
    assert RemovalInterval(8, 7) == Some(2);
    assert IndexOf([0], 0) == Some(0);
  }

  /** The odd iterations of the worked schedule, each from the list the
      previous one left: ids 2, 3, 4 and 5 go, in that order. */
  lemma WorkedPruningStep1()
    ensures PruneStep(1, 8, [0, 1, 2, 3, 4, 5, 6], 0, 0, [0, 1, 2] + [3, 4, 5, 6], 2) == Success(Pruning([0, 1] + [3, 4, 5, 6], 1, Some(2)))
  {
    WorkedRemoval(2, [3, 4, 5, 6], 1, 0);
  }

  lemma WorkedPruningStep3()
    ensures PruneStep(3, 8, [0, 1, 2, 3, 4, 5, 6], 0, 1, [0, 1, 3] + [4, 5, 6], 2) == Success(Pruning([0, 1] + [4, 5, 6], 2, Some(3)))
  {
    WorkedRemoval(3, [4, 5, 6], 3, 1);
  }

  lemma WorkedPruningStep5()
    ensures PruneStep(5, 8, [0, 1, 2, 3, 4, 5, 6], 0, 2, [0, 1, 4] + [5, 6], 2) == Success(Pruning([0, 1] + [5, 6], 3, Some(4)))
  {
    WorkedRemoval(4, [5, 6], 5, 2);
  }

  lemma WorkedPruningStep7()
    ensures PruneStep(7, 8, [0, 1, 2, 3, 4, 5, 6], 0, 3, [0, 1, 5] + [6], 2) == Success(Pruning([0, 1] + [6], 4, Some(5)))
  {
    WorkedRemoval(5, [6], 7, 3);
  }

  /** One odd iteration of the worked schedule: a list 0, 1, c, ... loses
      c, found at index c in Particles. */
  lemma WorkedRemoval(c: int, rest: seq<int>, t: nat, trimming: nat)
    requires 2 <= c <= 6 && |rest| > 0
    requires t % 2 == 1 && t <= 8 && trimming < 4
    ensures PruneStep(t, 8, [0, 1, 2, 3, 4, 5, 6], 0, trimming, [0, 1, c] + rest, 2) == Success(Pruning([0, 1] + rest, trimming + 1, Some(c)))
  {
    var P := [0, 1, 2, 3, 4, 5, 6];
    var ids := [0, 1, c] + rest;
    assert ids[0] == 0 && ids[2] == c;
    assert RemovalInterval(8, 7) == Some(2);
    assert Schedule(t, 8, 7) == Success(true);
    assert IndexOf(ids, 0) == Some(0);
    assert Target(ids, 0, 2) == Some(2);
    assert P[c] == c;
    IndexOfListed(P, c);
    assert ids[..2] == [0, 1] && ids[3..] == rest;
  }

  /** In a list of distinct ids, the first occurrence of an id is its
      position. */
  lemma {:induction false} IndexOfListed(s: seq<int>, k: nat)
    requires Distinct(s) && k < |s|
    ensures IndexOf(s, s[k]) == Some(k)
  {
    if k > 0 {
      assert s[0] != s[k];
      assert s[1..][k - 1] == s[k];
      IndexOfListed(s[1..], k - 1);
    }
  }

  /** A personal-best vector copied into a zero array of the particle's
      width (Array.CopyTo into `new Double[width]`). */
  function Pad(values: seq<real>, width: nat): (r: seq<real>)
    requires |values| <= width
    ensures |r| == width && r[..|values|] == values
    ensures forall i :: |values| <= i < width ==> r[i] == 0.0
  {
    values + seq(width - |values|, _ => 0.0)
  }

  /** CreateConnectedParticlesParameters on values: for each connected id
      in order, the personal best of the first particle with that id, as a
      fresh vector of the given width. Stops with NullReference at an id no
      particle has, and with Argument at a personal best longer than the
      width; the snapshots built until then are kept. */
  function Snapshots(ids: seq<int>, particleIds: seq<int>, bests: seq<seq<real>>, width: nat): (r: (seq<seq<real>>, Status))
    requires |particleIds| == |bests|
    ensures |r.0| <= |ids|
    decreases |ids|
  {
    if ids == [] then ([], Completed)
    else match IndexOf(particleIds, ids[0])
      case None => ([], Threw(NullReference))
      case Some(j) =>
        if |bests[j]| > width then ([], Threw(Argument))
        else
          var rest := Snapshots(ids[1..], particleIds, bests, width);
          ([Pad(bests[j], width)] + rest.0, rest.1)
  }

  /** What Snapshots builds: every snapshot is the padded personal best of
      the first particle with that connected id; it completes exactly when
      every id gets one, and otherwise the status names why the next id
      failed. */
  lemma {:induction false} SnapshotsSpec(ids: seq<int>, particleIds: seq<int>, bests: seq<seq<real>>, width: nat)
    requires |particleIds| == |bests|
    ensures var r := Snapshots(ids, particleIds, bests, width);
      && (forall k :: 0 <= k < |r.0| ==>
            IndexOf(particleIds, ids[k]).Some? && |bests[IndexOf(particleIds, ids[k]).value]| <= width &&
            r.0[k] == Pad(bests[IndexOf(particleIds, ids[k]).value], width))
      && (r.1 == Completed <==> |r.0| == |ids|)
      && (r.1.Threw? ==>
            var missing := IndexOf(particleIds, ids[|r.0|]);
            if missing.None? then r.1 == Threw(NullReference)
            else r.1 == Threw(Argument) && |bests[missing.value]| > width)
    decreases |ids|
  {
    if ids != [] {
      SnapshotsSpec(ids[1..], particleIds, bests, width);
      var r := Snapshots(ids, particleIds, bests, width);
      var rest := Snapshots(ids[1..], particleIds, bests, width);
      var found := IndexOf(particleIds, ids[0]);
      if found.Some? && |bests[found.value]| <= width {
        assert r.0 == [Pad(bests[found.value], width)] + rest.0;
        assert forall k :: 1 <= k < |r.0| ==> r.0[k] == rest.0[k - 1] && ids[k] == ids[1..][k - 1];
        if r.1.Threw? {
          assert ids[|r.0|] == ids[1..][|rest.0|];
        }
      }
    }
  }

  /** One step of Snapshots from position i: the outcome for ids[i], then
      the rest. */
  lemma SnapshotsFrom(ids: seq<int>, i: nat, particleIds: seq<int>, bests: seq<seq<real>>, width: nat)
    requires |particleIds| == |bests| && i < |ids|
    ensures var found := IndexOf(particleIds, ids[i]);
      var here := Snapshots(ids[i..], particleIds, bests, width);
      && (found.None? ==> here == ([], Threw(NullReference)))
      && (found.Some? && |bests[found.value]| > width ==> here == ([], Threw(Argument)))
      && (found.Some? && |bests[found.value]| <= width ==>
            var rest := Snapshots(ids[i + 1..], particleIds, bests, width);
            here == ([Pad(bests[found.value], width)] + rest.0, rest.1))
  {
    assert ids[i..][0] == ids[i];
    assert ids[i..][1..] == ids[i + 1..];
  }

  /** When every connected id belongs to a particle whose personal best has
      the particle's width, the snapshots are those personal bests, one per
      connected id and in the same order. */
  lemma SnapshotsOfMatchingWidth(ids: seq<int>, particleIds: seq<int>, bests: seq<seq<real>>, width: nat)
    requires |particleIds| == |bests|
    requires forall k :: 0 <= k < |ids| ==> ids[k] in particleIds
    requires forall j :: 0 <= j < |bests| ==> |bests[j]| == width
    ensures Snapshots(ids, particleIds, bests, width).1 == Completed
    ensures |Snapshots(ids, particleIds, bests, width).0| == |ids|
    ensures forall k :: 0 <= k < |ids| ==>
      Snapshots(ids, particleIds, bests, width).0[k] == bests[IndexOf(particleIds, ids[k]).value]
  {
    var r := Snapshots(ids, particleIds, bests, width);
    SnapshotsSpec(ids, particleIds, bests, width);
    forall k | 0 <= k < |ids|
      ensures r.0[k] == bests[IndexOf(particleIds, ids[k]).value]
    {
      var j := IndexOf(particleIds, ids[k]).value;
      assert Pad(bests[j], width) == bests[j];
    }
  }

  /** The pull toward every snapshot at one index, summed in list order. */
  function PullSum(x: real, snapshots: seq<seq<real>>, index: nat, coefficient: real, random: real): real
    requires forall k :: 0 <= k < |snapshots| ==> index < |snapshots[k]|
  {
    if snapshots == [] then 0.0
    else PullSum(x, snapshots[..|snapshots| - 1], index, coefficient, random)
         + CalculateInfluence(x, snapshots[|snapshots| - 1][index], coefficient, random)
  }

  /** The pull is linear in the distances: the coefficient times the draw
      times the sum of (p_j[index] - x). */
  lemma {:induction false} PullSumIsScaledDistance(x: real, snapshots: seq<seq<real>>, index: nat, coefficient: real, random: real)
    requires forall k :: 0 <= k < |snapshots| ==> index < |snapshots[k]|
    ensures PullSum(x, snapshots, index, coefficient, random) == DistanceSum(x, snapshots, index) * coefficient * random
  {
    if snapshots != [] {
      var front := snapshots[..|snapshots| - 1];
      PullSumIsScaledDistance(x, front, index, coefficient, random);
      var d := snapshots[|snapshots| - 1][index] - x;
      assert (DistanceSum(x, front, index) + d) * coefficient * random
          == DistanceSum(x, front, index) * coefficient * random + d * coefficient * random;
    }
  }

  /** The sum of (p_j[index] - x) over the snapshots. */
  function DistanceSum(x: real, snapshots: seq<seq<real>>, index: nat): real
    requires forall k :: 0 <= k < |snapshots| ==> index < |snapshots[k]|
  {
    if snapshots == [] then 0.0
    else DistanceSum(x, snapshots[..|snapshots| - 1], index) + (snapshots[|snapshots| - 1][index] - x)
  }

  /** With the own snapshot first at x and every other one at x + 1, the
      distances add up to the number of neighbours. */
  lemma {:induction false} DistanceSumUnitOffsets(x: real, snapshots: seq<seq<real>>, index: nat)
    requires |snapshots| > 0
    requires forall k :: 0 <= k < |snapshots| ==> index < |snapshots[k]|
    requires snapshots[0][index] == x
    requires forall k :: 0 < k < |snapshots| ==> snapshots[k][index] == x + 1.0
    ensures DistanceSum(x, snapshots, index) == (|snapshots| - 1) as real
  {
    if |snapshots| > 1 {
      DistanceSumUnitOffsets(x, snapshots[..|snapshots| - 1], index);
    }
  }

  /** Speeds after the Frankenstein rule: each of the first |parameters|
      components is the weighted old speed plus the pull toward every
      snapshot; the rest are unchanged. */
  function FrankensteinSpeeds(speeds: seq<real>, parameters: seq<real>, snapshots: seq<seq<real>>,
                              coefficient: real, randoms: seq<real>, inertia: real): seq<real>
    requires |parameters| <= |speeds| && |parameters| <= |randoms|
    requires forall k :: 0 <= k < |snapshots| ==> |parameters| <= |snapshots[k]|
  {
    seq(|speeds|, i requires 0 <= i < |speeds| =>
      if i < |parameters| then speeds[i] * inertia + PullSum(parameters[i], snapshots, i, coefficient, randoms[i])
      else speeds[i])
  }

  /** The speeds of the worked example: speeds 0, own position and own
      snapshot 1, every other snapshot 2, bias 1 shared by n links, draws 1
      and weight 1 give 1 - 1/n in every component. */
  lemma WorkedSpeeds(parameters: seq<real>, snapshots: seq<seq<real>>, randoms: seq<real>, i: nat)
    requires |snapshots| > 0 && i < |parameters| && |parameters| <= |randoms|
    requires forall k :: 0 <= k < |snapshots| ==> |parameters| <= |snapshots[k]|
    requires parameters[i] == 1.0 && randoms[i] == 1.0 && snapshots[0][i] == 1.0
    requires forall k :: 0 < k < |snapshots| ==> snapshots[k][i] == 2.0
    ensures var n := |snapshots| as real;
      FrankensteinSpeeds(seq(|parameters|, _ => 0.0), parameters, snapshots, 1.0 / n, randoms, 1.0)[i] == 1.0 - 1.0 / n
  {
    var n := |snapshots| as real;
    PullSumIsScaledDistance(1.0, snapshots, i, 1.0 / n, 1.0);
    DistanceSumUnitOffsets(1.0, snapshots, i);
    assert (n - 1.0) * (1.0 / n) == 1.0 - 1.0 / n;
  }

  /** The loop of CreateConnectedParticlesParameters: one padded copy per
      connected id, appended in order, stopping at the first id that fails. */
  method BuildSnapshots(ids: seq<int>, particleIds: seq<int>, bests: seq<seq<real>>, width: nat)
    returns (built: seq<seq<real>>, status: Status)
    requires |particleIds| == |bests|
    ensures (built, status) == Snapshots(ids, particleIds, bests, width)
  {
    ghost var all := Snapshots(ids, particleIds, bests, width);
    assert ids[0..] == ids;
    built := [];
    var i := 0;
    while i < |ids|
      invariant 0 <= i <= |ids|
      invariant var here := Snapshots(ids[i..], particleIds, bests, width);
        built + here.0 == all.0 && here.1 == all.1
    {
      SnapshotsFrom(ids, i, particleIds, bests, width);
      ghost var rest := Snapshots(ids[i + 1..], particleIds, bests, width);
      var found := IndexOf(particleIds, ids[i]);
      if found.None? {
        assert built + [] == built;
        return built, Threw(NullReference);
      }
      var best := bests[found.value];
      if |best| > width {
        assert built + [] == built;
        return built, Threw(Argument);
      }
      assert (built + [Pad(best, width)]) + rest.0 == built + ([Pad(best, width)] + rest.0);
      built := built + [Pad(best, width)];
      i := i + 1;
    }
    assert built + [] == built;
    status := Completed;
  }

  /** The computation of UpdateConnectedParticles before anything changes:
      the interval and the schedule, the eligibility test, the walk of
      `steps` nodes along the own list from the own id, and the lookup of
      the particle with the id reached. */
  method PlanPruning(iteration: nat, finalTopologyUpdate: nat, particleIds: seq<int>, id: nat,
                     trimming: nat, ids: seq<int>, steps: nat) returns (r: Result<Pruning>)
    ensures r == PruneStep(iteration, finalTopologyUpdate, particleIds, id, trimming, ids, steps)
    ensures r.Success? && r.value.Partner.Some? && Distinct(ids) && steps > 0 ==>
      r.value.Partner.value < |particleIds| && particleIds[r.value.Partner.value] != id
  {
    var count := |particleIds|;
    if count == 3 {
      return Failure(DivideByZero);
    }
    var removalIteration := ToUInt32(TruncDiv(finalTopologyUpdate, count - 3));
    assert RemovalInterval(finalTopologyUpdate, count) == Some(removalIteration);
    if iteration > finalTopologyUpdate {
      return Success(Pruning(ids, trimming, None));
    }
    if removalIteration == 0 {
      return Failure(DivideByZero);
    }
    var due := iteration % removalIteration == removalIteration - 1;
    assert Schedule(iteration, finalTopologyUpdate, count) == Success(due);
    if !due {
      return Success(Pruning(ids, trimming, None));
    }
    if !(id < count - 3 - trimming && |ids| > 3) {
      return Success(Pruning(ids, trimming + 1, None));
    }
    var found := IndexOf(ids, id);
    if found.None? {
      return Failure(NullReference);
    }
    var current := found.value;
    var i := steps;
    while i > 0
      invariant 0 <= i <= steps
      invariant current == found.value + (steps - i) < |ids|
    {
      if current + 1 == |ids| {
        return Failure(NullReference);
      }
      current := current + 1;
      i := i - 1;
    }
    assert Target(ids, id, steps) == Some(current);
    var removedParticle := IndexOf(particleIds, ids[current]);
    if removedParticle.None? {
      return Failure(NullReference);
    }
    r := Success(Pruning(RemoveAt(ids, current), trimming + 1, Some(removedParticle.value)));
  }

  /** What SetSpeedParameters leaves: the own list, the trimming count and
      the snapshots, the status, whether the speed snapshot was stored
      (only when nothing threw), and the index in Particles of the
      neighbour whose list lost the own id, if one did. */
  datatype Outcome = Outcome(Ids: seq<int>, Trimming: nat, Snapshots: seq<seq<real>>, Status: Status, Stored: bool,
                             Partner: Option<nat>)

  /** SetSpeedParameters on values: the offset, then the pruning with it,
      then the snapshots of the links that remain. A throw leaves
      everything the failing step and the later ones would have set. */
  function SpeedParametersStep(iteration: nat, finalTopologyUpdate: nat, particleIds: seq<int>, bests: seq<seq<real>>,
                               width: nat, id: nat, trimming: nat, ids: seq<int>, snapshots: seq<seq<real>>,
                               draw: nat): (o: Outcome)
    requires |particleIds| == |bests|
    ensures o.Stored <==> o.Status == Completed
    ensures |ids| < 3 ==> o == Outcome(ids, trimming, snapshots, Threw(ArgumentOutOfRange), false, None)
    ensures o.Partner.Some? ==> o.Partner.value < |particleIds|
  {
    match RemovalOffset(|ids|, draw)
    case Failure(e) => Outcome(ids, trimming, snapshots, Threw(e), false, None)
    case Success(steps) =>
      match PruneStep(iteration, finalTopologyUpdate, particleIds, id, trimming, ids, steps)
      case Failure(e) => Outcome(ids, trimming, snapshots, Threw(e), false, None)
      case Success(p) =>
        var built := Snapshots(p.Ids, particleIds, bests, width);
        Outcome(p.Ids, p.Trimming, built.0, built.1, built.1 == Completed, p.Partner)
  }

  /** One snapshot per link, each the padded personal best of the particle
      with that id. */
  predicate PaddedBests(ids: seq<int>, particleIds: seq<int>, bests: seq<seq<real>>, width: nat, snapshots: seq<seq<real>>)
    requires |particleIds| == |bests|
  {
    && |snapshots| == |ids|
    && forall k :: 0 <= k < |ids| ==>
         match IndexOf(particleIds, ids[k])
         case None => false
         case Some(j) => |bests[j]| <= width && snapshots[k] == Pad(bests[j], width)
  }

  /** The list is the old one, or the old one less one entry that is not
      the own id. */
  predicate SameOrOneLess(before: seq<int>, after: seq<int>, id: int)
  {
    after == before || exists k :: 0 <= k < |before| && before[k] != id && after == before[..k] + before[k + 1..]
  }

  /** From a list of at least three distinct links, SetSpeedParameters
      keeps the links distinct and at least three; it removes at most one
      link, never the own id; and once it completes there is one snapshot
      per remaining link, the padded personal best of the particle with
      that id. */
  lemma SpeedParametersStepKeepsTopology(iteration: nat, finalTopologyUpdate: nat, particleIds: seq<int>,
                                         bests: seq<seq<real>>, width: nat, id: nat, trimming: nat,
                                         ids: seq<int>, snapshots: seq<seq<real>>, draw: nat)
    requires |particleIds| == |bests| && Distinct(ids) && |ids| >= 3
    ensures var o := SpeedParametersStep(iteration, finalTopologyUpdate, particleIds, bests, width, id, trimming,
                                         ids, snapshots, draw);
      && Distinct(o.Ids) && |o.Ids| >= 3 && SameOrOneLess(ids, o.Ids, id)
      && (o.Stored ==> PaddedBests(o.Ids, particleIds, bests, width, o.Snapshots))
  {
    var steps := draw + 2;
    var pruned := PruneStep(iteration, finalTopologyUpdate, particleIds, id, trimming, ids, steps);
    if pruned.Success? {
      PruneRemovesTarget(iteration, finalTopologyUpdate, particleIds, id, trimming, ids, steps);
      var left := pruned.value.Ids;
      SnapshotsSpec(left, particleIds, bests, width);
      if pruned.value.Partner.Some? {
        var k := IndexOf(ids, id).value + steps;
        assert left == ids[..k] + ids[k + 1..] && ids[k] != id;
      }
      var built := Snapshots(left, particleIds, bests, width);
      if built.1 == Completed {
        assert forall k :: 0 <= k < |left| ==>
          IndexOf(particleIds, left[k]).Some? && |bests[IndexOf(particleIds, left[k]).value]| <= width &&
          built.0[k] == Pad(bests[IndexOf(particleIds, left[k]).value], width);
      }
    }
  }

  /** SetSpeedParameters names a partner exactly when a link goes, and
      the partner is the particle whose id went. */
  lemma SpeedParametersStepPartner(iteration: nat, finalTopologyUpdate: nat, particleIds: seq<int>,
                                   bests: seq<seq<real>>, width: nat, id: nat, trimming: nat,
                                   ids: seq<int>, snapshots: seq<seq<real>>, draw: nat)
    requires |particleIds| == |bests| && Distinct(ids) && |ids| >= 3
    ensures var o := SpeedParametersStep(iteration, finalTopologyUpdate, particleIds, bests, width, id, trimming,
                                         ids, snapshots, draw);
      && (o.Partner.None? ==> o.Ids == ids)
      && (o.Partner.Some? ==> particleIds[o.Partner.value] in ids && particleIds[o.Partner.value] !in o.Ids)
  {
    var steps := draw + 2;
    if PruneStep(iteration, finalTopologyUpdate, particleIds, id, trimming, ids, steps).Success? {
      PruneRemovesTarget(iteration, finalTopologyUpdate, particleIds, id, trimming, ids, steps);
    }
  }

  /** The id of every particle, in list order. */
  function IdsOf(particles: seq<FrankensteinParticle>): (r: seq<int>)
    reads set p | p in particles :: p.Base.Base
  {
    seq(|particles|, i requires 0 <= i < |particles| reads if 0 <= i < |particles| then {particles[i].Base.Base} else {} => particles[i].Base.Base.Id)
  }

  /** The personal-best parameters of every particle, in list order. */
  function BestsOf(particles: seq<FrankensteinParticle>): (r: seq<seq<real>>)
    reads set p | p in particles :: p.Base.Base
    reads set p | p in particles :: p.Base.Base.PersonalBestSolution
  {
    seq(|particles|, i requires 0 <= i < |particles|
        reads if 0 <= i < |particles| then {particles[i].Base.Base, particles[i].Base.Base.PersonalBestSolution} else {} =>
      particles[i].Base.Base.PersonalBestSolution.Parameters)
  }

  class FrankensteinParticle {
    /** The inertia part of this particle (and, through it, the classic
        part). */
    const Base: InertiaParticle
    /** Every particle of the swarm that may be connected to this one. */
    var Particles: seq<FrankensteinParticle>
    /** The ids this particle is connected to, in list order. */
    var ConnectedIds: seq<int>
    var FinalTopologyUpdate: nat
    /** One snapshot of a connected particle's personal best per connected
        id, rebuilt by CreateConnectedParticlesParameters. */
    var ConnectedParticlesParameters: seq<seq<real>>
    var TrimmingIterations: nat

    /** The inertia fill, then the topology settings; no snapshots yet and
        no trimming done. */
    constructor (speeds: seq<real>, solution: ClassicSolution, inertiaMax: real, inertiaMin: real, inertiaMaxTime: nat,
                 particles: seq<FrankensteinParticle>, connectedIds: seq<int>, finalTopologyUpdate: nat)
      ensures fresh(Base) && fresh(Base.Base) && fresh(Base.Base.PersonalBestSolution) && Base.Base.Valid()
      ensures Base.Base.Id == CurrentId && Base.Base.Speeds == speeds && Base.Base.CurrentSolution == solution
      ensures Base.Base.PersonalBestSolution.Parameters == solution.Parameters
      ensures Base.Base.PersonalBestSolution.Fitness == solution.Fitness
      ensures Base.InertiaMax == inertiaMax && Base.InertiaMin == inertiaMin && Base.InertiaMaxTime == inertiaMaxTime
      ensures Base.CurrentIteration == 0
      ensures Particles == particles && ConnectedIds == connectedIds && FinalTopologyUpdate == finalTopologyUpdate
      ensures ConnectedParticlesParameters == [] && TrimmingIterations == 0
    {
      Base := new InertiaParticle(speeds, solution, inertiaMax, inertiaMin, inertiaMaxTime);
      Particles := particles;
      ConnectedIds := connectedIds;
      FinalTopologyUpdate := finalTopologyUpdate;
      ConnectedParticlesParameters := [];
      TrimmingIterations := 0;
    }

    function Id(): nat
      reads Base.Base
    {
      Base.Base.Id
    }

    /** On a scheduled iteration, drops the link `stepsToRemoved` nodes
        after the own id and the own id from that neighbour's list, and
        counts the iteration. */
    method UpdateConnectedParticles(stepsToRemoved: int) returns (status: Status)
      requires stepsToRemoved > 0 && Distinct(ConnectedIds)
      modifies this`ConnectedIds, this`TrimmingIterations, Particles`ConnectedIds
      ensures IdsOf(Particles) == old(IdsOf(Particles)) && BestsOf(Particles) == old(BestsOf(Particles))
      ensures var r := PruneStep(old(Base.CurrentIteration), old(FinalTopologyUpdate), old(IdsOf(Particles)), old(Id()),
                                 old(TrimmingIterations), old(ConnectedIds), stepsToRemoved);
        && (status.Threw? <==> r.Failure?)
        && (r.Failure? ==>
              && status == Threw(r.exception)
              && ConnectedIds == old(ConnectedIds) && TrimmingIterations == old(TrimmingIterations)
              && forall p :: p in Particles ==> p.ConnectedIds == old(p.ConnectedIds))
        && (r.Success? ==>
              && ConnectedIds == r.value.Ids && TrimmingIterations == r.value.Trimming
              && (r.value.Partner.None? ==>
                    forall p :: p in Particles && p != this ==> p.ConnectedIds == old(p.ConnectedIds))
              && (r.value.Partner.Some? ==>
                    var partner := Particles[r.value.Partner.value];
                    && partner != this
                    && partner.ConnectedIds == RemoveFirst(old(partner.ConnectedIds), old(Id()))
                    && forall p :: p in Particles && p != this && p != partner ==> p.ConnectedIds == old(p.ConnectedIds)))
    {
      var plan := PlanPruning(Base.CurrentIteration, FinalTopologyUpdate, IdsOf(Particles), Id(),
                              TrimmingIterations, ConnectedIds, stepsToRemoved);
      if plan.Failure? {
        return Threw(plan.exception);
      }
      if plan.value.Partner.Some? {
        var removed := Particles[plan.value.Partner.value];
        removed.ConnectedIds := RemoveFirst(removed.ConnectedIds, Id());
      }
      ConnectedIds := plan.value.Ids;
      TrimmingIterations := plan.value.Trimming;
      status := Completed;
    }

    /** Rebuilds the snapshots: for each connected id in order, a fresh
        copy of that particle's personal best, padded to this particle's
        width. */
    method CreateConnectedParticlesParameters() returns (status: Status)
      modifies this`ConnectedParticlesParameters
      ensures IdsOf(Particles) == old(IdsOf(Particles)) && BestsOf(Particles) == old(BestsOf(Particles))
      ensures var r := Snapshots(ConnectedIds, old(IdsOf(Particles)), old(BestsOf(Particles)), old(|Base.Base.Speeds|));
        ConnectedParticlesParameters == r.0 && status == r.1
    {
      ConnectedParticlesParameters, status := BuildSnapshots(ConnectedIds, IdsOf(Particles), BestsOf(Particles), |Base.Base.Speeds|);
    }

    /** The Frankenstein rule in place: every speed weighted by the current
        inertia, plus the pull toward every snapshot, with the personal bias
        shared equally among the connected ids. */
    method UpdateSpeeds(parameters: SpeedParameters)
      requires |ConnectedIds| > 0
      requires |Base.Base.CurrentSolution.Parameters| <= |Base.Base.Speeds|
      requires |Base.Base.CurrentSolution.Parameters| <= |parameters.RandomListPersonal|
      requires forall k :: 0 <= k < |ConnectedParticlesParameters| ==>
        |Base.Base.CurrentSolution.Parameters| <= |ConnectedParticlesParameters[k]|
      modifies Base.Base`Speeds
      ensures Base.Base.Speeds == FrankensteinSpeeds(old(Base.Base.Speeds), Base.Base.CurrentSolution.Parameters,
        ConnectedParticlesParameters, parameters.PersonalBestBias / |ConnectedIds| as real,
        parameters.RandomListPersonal, Base.CurrentInertia())
    {
      var currentInertia := Base.CurrentInertia();
      var x := Base.Base.CurrentSolution.Parameters;
      var snapshots := ConnectedParticlesParameters;
      var coefficient := parameters.PersonalBestBias / |ConnectedIds| as real;
      ghost var target := FrankensteinSpeeds(Base.Base.Speeds, x, snapshots, coefficient,
                                             parameters.RandomListPersonal, currentInertia);
      var speeds := Base.Base.Speeds;
      for index := 0 to |x|
        invariant |speeds| == |old(Base.Base.Speeds)|
        invariant forall k :: 0 <= k < index ==> speeds[k] == target[k]
        invariant forall k :: index <= k < |speeds| ==> speeds[k] == old(Base.Base.Speeds)[k]
      {
        var newSpeed := speeds[index];
        newSpeed := newSpeed * currentInertia;
        for j := 0 to |snapshots|
          invariant newSpeed == old(Base.Base.Speeds)[index] * currentInertia
            + PullSum(x[index], snapshots[..j], index, coefficient, parameters.RandomListPersonal[index])
        {
          assert snapshots[..j + 1][..j] == snapshots[..j];
          newSpeed := newSpeed + CalculateInfluence(x[index], snapshots[j][index], coefficient, parameters.RandomListPersonal[index]);
        }
        assert snapshots[..|snapshots|] == snapshots;
        speeds := speeds[index := newSpeed];
      }
      Base.Base.Speeds := speeds;
    }

    /** Prunes with the offset `draw + 2` (draw being what Next(|ConnectedIds| - 3)
        returned), rebuilds the snapshots, then stores the speed snapshot and
        counts the iteration; each step runs only if the previous one did
        not throw. */
    method SetSpeedParameters(parameters: SpeedParameters, draw: nat) returns (status: Status)
      requires |ConnectedIds| > 3 ==> draw < |ConnectedIds| - 3
      requires |ConnectedIds| == 3 ==> draw == 0
      requires Distinct(ConnectedIds)
      modifies this`ConnectedIds, this`TrimmingIterations, Particles`ConnectedIds, this`ConnectedParticlesParameters
      modifies Base.Base`SpeedParameters, Base`CurrentIteration
      ensures var o := SpeedParametersStep(old(Base.CurrentIteration), old(FinalTopologyUpdate), old(IdsOf(Particles)),
                                           old(BestsOf(Particles)), old(|Base.Base.Speeds|), old(Id()),
                                           old(TrimmingIterations), old(ConnectedIds), old(ConnectedParticlesParameters), draw);
        && ConnectedIds == o.Ids && TrimmingIterations == o.Trimming
        && ConnectedParticlesParameters == o.Snapshots && status == o.Status
        && IdsOf(Particles) == old(IdsOf(Particles)) && BestsOf(Particles) == old(BestsOf(Particles))
        && (o.Partner.None? ==> forall p :: p in Particles && p != this ==> p.ConnectedIds == old(p.ConnectedIds))
        && (o.Partner.Some? ==>
              var partner := Particles[o.Partner.value];
              && partner != this
              && partner.ConnectedIds == RemoveFirst(old(partner.ConnectedIds), old(Id()))
              && forall p :: p in Particles && p != this && p != partner ==> p.ConnectedIds == old(p.ConnectedIds))
        && (if o.Stored then Base.Base.SpeedParameters == Some(parameters) && Base.CurrentIteration == old(Base.CurrentIteration) + 1
            else Base.Base.SpeedParameters == old(Base.Base.SpeedParameters) && Base.CurrentIteration == old(Base.CurrentIteration))
    {
      ghost var particleIds, bests, width := IdsOf(Particles), BestsOf(Particles), |Base.Base.Speeds|;
      ghost var o := SpeedParametersStep(Base.CurrentIteration, FinalTopologyUpdate, particleIds, bests, width, Id(),
                                         TrimmingIterations, ConnectedIds, ConnectedParticlesParameters, draw);
      var removed := RemovalOffset(|ConnectedIds|, draw);
      if removed.Failure? {
        assert o.Partner.None?;
        return Threw(removed.exception);
      }
      ghost var pruned := PruneStep(Base.CurrentIteration, FinalTopologyUpdate, particleIds, Id(),
                                    TrimmingIterations, ConnectedIds, removed.value);
      status := UpdateConnectedParticles(removed.value);
      if status.Threw? {
        assert o.Partner.None? && o.Status == status;
        return;
      }
      assert o.Partner == pruned.value.Partner;
      assert ConnectedIds == pruned.value.Ids && TrimmingIterations == pruned.value.Trimming;
      assert IdsOf(Particles) == particleIds && BestsOf(Particles) == bests && |Base.Base.Speeds| == width;
      status := CreateConnectedParticlesParameters();
      if status.Threw? {
        return;
      }
      Base.SetSpeedParameters(parameters);
    }
  }
}
