/** What the find-water job and its shore search guarantee, stated over the model in
    module FindWater. */
module FindWaterProperties {
  import opened Geometry
  import opened Pathing
  import opened FindWater

  // ---------------------------------------------------------------------------------
  // The outer heuristic

  /** The estimate depends on the hut only: jobs that share a hut agree on every cell,
      wherever their searches start. */
  lemma HeuristicIgnoresStart(a: PathJobFindWater, b: PathJobFindWater, x: int, y: int, z: int)
    requires a.hutLocation == b.hutLocation
    ensures a.ComputeHeuristic(x, y, z) == b.ComputeHeuristic(x, y, z)
    ensures a.ComputeHeuristic(x, y, z) == DistManhattan(a.hutLocation, BlockPos(x, y, z))
  {
  }

  /** The estimate is consistent: moving from q to p changes it by at most the
      Manhattan length of the move. */
  lemma HeuristicConsistent(job: PathJobFindWater, p: BlockPos, q: BlockPos)
    ensures job.ComputeHeuristic(p.x, p.y, p.z) <= job.ComputeHeuristic(q.x, q.y, q.z) + DistManhattan(q, p)
    ensures job.ComputeHeuristic(q.x, q.y, q.z) <= job.ComputeHeuristic(p.x, p.y, p.z) + DistManhattan(q, p)
  {
    ManhattanLipschitz(job.hutLocation, p, q);
  }

  // ---------------------------------------------------------------------------------
  // Rejection and acceptance of the outer destination hook

  /** The outer hook accepts n exactly when: n is within range of the hut, n is swimming
      over a water cell, no known pond is within width + 2 of n, and the nested shore
      search started at n returns a path that can reach. */
  lemma AcceptsExactly(job: PathJobFindWater, n: MNode)
    ensures job.Accepts(n) <==>
      && DistSqr(job.hutLocation, n.Pos()) <= MAX_RANGE * MAX_RANGE
      && n.swimming && job.world.isWater(BlockPos(n.x, n.y - 1, n.z))
      && (forall i :: 0 <= i < |job.ponds| ==>
            DistManhattan(job.ponds[i].location, n.Pos()) >= job.poolWidth + 2)
      && var path := job.search(NewFishingPosJob(job.world, n.Pos(), job.hutLocation, 10, job.options.Value()));
         path.Some? && path.value.canReach
  {
  }

  /** A node close to some known pond is rejected. */
  lemma NearKnownPondRejected(job: PathJobFindWater, n: MNode, i: int)
    requires 0 <= i < |job.ponds|
    requires DistManhattan(job.ponds[i].location, n.Pos()) < job.poolWidth + 2
    ensures !job.Accepts(n)
  {
  }

  // ---------------------------------------------------------------------------------
  // The exclusion list

  /** The exclusion test over two concatenated lists is the test over each. */
  lemma {:induction false} ClearOfPondsAppend(a: seq<PondEntry>, b: seq<PondEntry>, p: BlockPos, width: int)
    ensures ClearOfPonds(a + b, p, width) <==> ClearOfPonds(a, p, width) && ClearOfPonds(b, p, width)
  {
    if ClearOfPonds(a, p, width) && ClearOfPonds(b, p, width) {
      forall i | 0 <= i < |a + b|
        ensures DistManhattan((a + b)[i].location, p) >= width + 2
      {
        if i >= |a| {
          assert (a + b)[i] == b[i - |a|];
        }
      }
    }
    if ClearOfPonds(a + b, p, width) {
      forall i | 0 <= i < |a|
        ensures DistManhattan(a[i].location, p) >= width + 2
      {
        assert (a + b)[i] == a[i];
      }
      forall i | 0 <= i < |b|
        ensures DistManhattan(b[i].location, p) >= width + 2
      {
        assert (a + b)[|a| + i] == b[i];
      }
    }
  }

  /** The exclusion test depends only on which entries are listed, not on their order
      or on how often each is listed. */
  lemma {:induction false} ClearOfPondsOrderFree(a: seq<PondEntry>, b: seq<PondEntry>, p: BlockPos, width: int)
    requires forall e :: e in a <==> e in b
    ensures ClearOfPonds(a, p, width) <==> ClearOfPonds(b, p, width)
  {
    if ClearOfPonds(a, p, width) {
      forall j | 0 <= j < |b|
        ensures DistManhattan(b[j].location, p) >= width + 2
      {
        assert b[j] in a;
        var i :| 0 <= i < |a| && a[i] == b[j];
      }
    }
    if ClearOfPonds(b, p, width) {
      forall i | 0 <= i < |a|
        ensures DistManhattan(a[i].location, p) >= width + 2
      {
        assert a[i] in b;
        var j :| 0 <= j < |b| && b[j] == a[i];
      }
    }
  }

  /** Every entry of a also listed in b: a location clear of b's ponds is clear of a's. */
  lemma {:induction false} ClearOfPondsSubset(a: seq<PondEntry>, b: seq<PondEntry>, p: BlockPos, width: int)
    requires forall e :: e in a ==> e in b
    ensures ClearOfPonds(b, p, width) ==> ClearOfPonds(a, p, width)
  {
    if ClearOfPonds(b, p, width) {
      forall i | 0 <= i < |a|
        ensures DistManhattan(a[i].location, p) >= width + 2
      {
        assert a[i] in b;
        var j :| 0 <= j < |b| && b[j] == a[i];
      }
    }
  }

  /** A job that knows more ponds accepts no node that a job knowing fewer rejects. */
  lemma MorePondsAcceptFewer(a: PathJobFindWater, b: PathJobFindWater, n: MNode)
    requires forall e :: e in a.ponds ==> e in b.ponds
    requires a.world == b.world && a.hutLocation == b.hutLocation && a.poolWidth == b.poolWidth
    requires a.search == b.search && a.options.Value() == b.options.Value()
    ensures b.Accepts(n) ==> a.Accepts(n)
  {
    ClearOfPondsSubset(a.ponds, b.ponds, n.Pos(), a.poolWidth);
  }

  // ---------------------------------------------------------------------------------
  // The nested shore search

  /** A swimming node is never a shore. */
  lemma SwimmingNeverShore(job: FishingPosJob, n: MNode)
    requires n.swimming
    ensures !job.IsAtDestination(n)
  {
  }

  /** Shore acceptance does not depend on `direction`; only the estimate does. */
  lemma ShoreAcceptanceIgnoresDirection(job: FishingPosJob, d: BlockPos, n: MNode)
    ensures job.(direction := d).IsAtDestination(n) == job.IsAtDestination(n)
    ensures job.(direction := d).ComputeHeuristic(n.x, n.y, n.z) == DistManhattan(d, n.Pos())
  {
  }

  /** The shore estimate is consistent: moving from q to p changes it by at most the
      Manhattan length of the move. */
  lemma ShoreHeuristicConsistent(job: FishingPosJob, p: BlockPos, q: BlockPos)
    ensures job.ComputeHeuristic(p.x, p.y, p.z) <= job.ComputeHeuristic(q.x, q.y, q.z) + DistManhattan(q, p)
    ensures job.ComputeHeuristic(q.x, q.y, q.z) <= job.ComputeHeuristic(p.x, p.y, p.z) + DistManhattan(q, p)
  {
    ManhattanLipschitz(job.direction, p, q);
  }

  // ---------------------------------------------------------------------------------
  // The two searches composed

  /** When the nested search is sound, every candidate the outer job accepts is a
      swimming water node in range and clear of known ponds, and the shore it records
      is dry, within 10 of the water cell, on a walkable surface and visible from
      1.8 above the water cell. */
  lemma AcceptedResultIsValid(job: PathJobFindWater, n: MNode)
    requires SearchSound(job.search)
    requires job.Accepts(n)
    ensures DistSqr(job.hutLocation, n.Pos()) <= MAX_RANGE * MAX_RANGE
    ensures n.swimming && job.world.isWater(n.Pos().Below())
    ensures forall i :: 0 <= i < |job.ponds| ==>
              DistManhattan(job.ponds[i].location, n.Pos()) >= job.poolWidth + 2
    ensures job.Shore(n).Some?
    ensures var t := job.Shore(n).value;
      && DistManhattan(n.Pos(), t) < SHORE_DISTANCE
      && job.world.surfaceType(t.Below(), job.options.Value()) == Walkable
      && job.world.clearSight(n.Pos(), t)
  {
    var shoreJob := job.ShoreJob(n);
    var path := job.search(shoreJob).value;
    assert shoreJob.IsAtDestination(MNode(path.target.x, path.target.y, path.target.z, false));
  }

  /** The accepting path through the destination hook: the result then holds the water
      cell and a shore satisfying every shore condition; a rejection leaves it as it was. */
  method DestinationRecordsValidShore(job: PathJobFindWater, n: MNode) returns (accepted: bool)
    requires SearchSound(job.search)
    modifies job.result
    ensures accepted == job.Accepts(n)
    ensures accepted ==> job.result.pond == Some(n.Pos()) && job.result.parent.Some?
    ensures accepted ==>
      var t := job.result.parent.value;
      && DistManhattan(n.Pos(), t) < SHORE_DISTANCE
      && job.world.surfaceType(t.Below(), job.options.Value()) == Walkable
      && job.world.clearSight(n.Pos(), t)
    ensures !accepted ==> unchanged(job.result)
  {
    accepted := job.IsAtDestination(n);
    if accepted {
      AcceptedResultIsValid(job, n);
    }
  }

  // ---------------------------------------------------------------------------------
  // Construction and options

  /** The job keeps its own copy of the caller's list: writing to the caller's list
      after construction leaves the job's ponds as they were. */
  method PondListIsCopied(world: World, start: BlockPos, home: BlockPos, range: int,
                          list: array<PondEntry>, poolWidth: int, search: ShoreSearch,
                          options: PathingOptions, i: int, e: PondEntry)
    returns (job: PathJobFindWater)
    requires 0 <= i < list.Length
    modifies list
    ensures list[i] == e
    ensures job.ponds == old(list[..])
  {
    job := new PathJobFindWater(world, start, home, range, list, poolWidth, search, options);
    list[i] := e;
  }

  /** Zeroing the swim costs twice is zeroing them once. */
  lemma SwimFreeIdempotent(v: OptionsValue)
    ensures SwimFree(SwimFree(v)) == SwimFree(v)
    ensures SwimFree(v) == v <==> v.swimCostEnter == 0.0 && v.swimCost == 0.0
  {
  }

  /** The options object the job adopts is the one handed to every shore search it
      starts afterwards, so the shore searches also run with both swim costs at zero. */
  method OverrideReachesShoreSearch(job: PathJobFindWater, o: PathingOptions, n: MNode)
    returns (shoreJob: FishingPosJob)
    modifies job`options, o
    ensures job.options == o && o.Value() == SwimFree(old(o.Value()))
    ensures shoreJob == job.ShoreJob(n)
    ensures shoreJob.options.swimCostEnter == 0.0 && shoreJob.options.swimCost == 0.0
    ensures shoreJob.options.rest == old(o.rest)
  {
    job.SetPathingOptions(o);
    shoreJob := job.ShoreJob(n);
  }
}
