/** The find-water path job (PathJobFindWater) and its nested shore search
    (PathJobFindFishingPos): the two hooks each supplies to the generic best-first
    search, the outer job's options override and its result record. */
module FindWater {
  import opened Geometry
  import opened Pathing

  /** Squared-distance bound around the hut: MAX_RANGE * MAX_RANGE. */
  const MAX_RANGE: int := 100
  /** Declared by the job but not used by any of its hooks. */
  const MIN_DISTANCE: int := 40
  /** The Manhattan distance bound handed to every nested shore search. */
  const SHORE_DISTANCE: int := 10
  /** The shore search's path range is its distance plus this margin. */
  const SHORE_RANGE_MARGIN: int := 100

  /** The nested shore search. Its fields are fixed once it is built: the world, the
      search start (the candidate water cell), the base job's path range, the
      `direction` the heuristic aims at, the acceptance `distance`, and the options. */
  datatype FishingPosJob = FishingPosJob(
    world: World,
    start: BlockPos,
    range: int,
    direction: BlockPos,
    distance: int,
    options: OptionsValue)
  {
    /** Estimate toward `direction`; it is zero exactly at `direction`. */
    function ComputeHeuristic(x: int, y: int, z: int): (h: nat)
      ensures h == 0 <==> BlockPos(x, y, z) == direction
    {
      DistManhattan(direction, BlockPos(x, y, z))
    }

    /** Line of sight from 1.8 blocks above the search start (not above the node) to
        the node's cell. */
    predicate CanSeeTargetFromPos(n: MNode): (visible: bool)
      ensures visible <==> world.clearSight(start, BlockPos(n.x, n.y, n.z))
    {
      world.clearSight(start, n.Pos())
    }

    /** A shore node: not swimming, strictly within `distance` of the start, standing on
        a walkable surface, and visible from above the start. */
    predicate IsAtDestination(n: MNode): (accepted: bool)
      ensures n.swimming ==> !accepted
      ensures accepted ==> 0 < distance
    {
      && !n.swimming
      && DistManhattan(start, n.Pos()) < distance
      && world.surfaceType(n.Pos().Below(), options) == Walkable
      && CanSeeTargetFromPos(n)
    }
  }

  /** Builds a shore search as the outer job does: the constructor (which sets the path
      range to distance + 100) followed by setPathingOptions. */
  function NewFishingPosJob(world: World, start: BlockPos, direction: BlockPos, distance: int,
                            options: OptionsValue): (job: FishingPosJob)
    ensures job.world == world && job.start == start && job.direction == direction
    ensures job.distance == distance && job.options == options
    ensures job.range == distance + SHORE_RANGE_MARGIN
  {
    FishingPosJob(world, start, distance + SHORE_RANGE_MARGIN, direction, distance, options)
  }

  /** The base job's search(), as seen by the find-water job: given a shore search it
      returns no path (null) or a path with its reachability and target. */
  type ShoreSearch = FishingPosJob -> Option<Path>

  /** The hypothesis under which the nested search is sound: whenever it reports a path
      that can reach, the path's target is a node the shore search accepts. */
  ghost predicate SearchSound(search: ShoreSearch) {
    forall job: FishingPosJob ::
      search(job).Some? && search(job).value.canReach ==>
        job.IsAtDestination(MNode(search(job).value.target.x, search(job).value.target.y,
                                  search(job).value.target.z, false))
  }

  /** No entry of `ponds` is within Manhattan distance width + 2 of p. */
  predicate ClearOfPonds(ponds: seq<PondEntry>, p: BlockPos, width: int): (clear: bool)
    ensures clear <==> forall e :: e in ponds ==> DistManhattan(e.location, p) >= width + 2
    ensures ponds == [] ==> clear
  {
    forall i :: 0 <= i < |ponds| ==> DistManhattan(ponds[i].location, p) >= width + 2
  }

  /** The outcome of the swim-cost override: both swim costs are zero. */
  function SwimFree(v: OptionsValue): (r: OptionsValue)
    ensures r.swimCostEnter == 0.0 && r.swimCost == 0.0 && r.rest == v.rest
  {
    v.(swimCostEnter := 0.0, swimCost := 0.0)
  }

  /** The outer job: scans for swimmable water near the worker's hut. */
  class PathJobFindWater {
    const world: World
    const start: BlockPos
    const range: int
    const hutLocation: BlockPos
    /** The job's own copy of the previously used fishing places. */
    const ponds: seq<PondEntry>
    /** Pond.WATER_POOL_WIDTH_REQUIREMENT. */
    const poolWidth: int
    /** The base job's search(), run for the nested shore search. */
    const search: ShoreSearch
    const result: WaterPathResult
    var options: PathingOptions

    /** The base job's constructor takes the world, start, range and a fresh result;
        the options it starts with come from the base job and are passed in here. */
    constructor (world: World, start: BlockPos, home: BlockPos, range: int,
                 ponds: array<PondEntry>, poolWidth: int, search: ShoreSearch,
                 options: PathingOptions)
      ensures this.world == world && this.start == start && this.range == range
      ensures this.hutLocation == home && this.poolWidth == poolWidth && this.search == search
      ensures this.ponds == ponds[..]
      ensures this.options == options
      ensures fresh(result) && result.pond == None && result.parent == None
    {
      this.world := world;
      this.start := start;
      this.range := range;
      this.hutLocation := home;
      this.ponds := ponds[..];
      this.poolWidth := poolWidth;
      this.search := search;
      this.result := new WaterPathResult();
      this.options := options;
    }

    /** Estimate toward the hut, not toward the start; zero exactly at the hut. */
    function ComputeHeuristic(x: int, y: int, z: int): (h: nat)
      ensures h == 0 <==> BlockPos(x, y, z) == hutLocation
    {
      DistManhattan(hutLocation, BlockPos(x, y, z))
    }

    /** The squared-distance range check around the hut. It contains every cell within
        Manhattan distance MAX_RANGE of the hut and none beyond 3 * MAX_RANGE. */
    predicate InHutRange(p: BlockPos): (inRange: bool)
      ensures DistManhattan(hutLocation, p) <= MAX_RANGE ==> inRange
      ensures inRange ==> DistManhattan(hutLocation, p) <= 3 * MAX_RANGE
    {
      ManhattanBoundsSqr(hutLocation, p, MAX_RANGE);
      SqrBoundsManhattan(hutLocation, p, MAX_RANGE);
      DistSqr(hutLocation, p) <= MAX_RANGE * MAX_RANGE
    }

    /** A swimming node over a water cell. Such a node is never a shore of any shore
        search. */
    predicate IsWaterNode(n: MNode): (water: bool)
      ensures water ==> n.swimming && world.isWater(BlockPos(n.x, n.y - 1, n.z))
      ensures water ==> forall job: FishingPosJob :: !job.IsAtDestination(n)
    {
      n.swimming && world.isWater(n.Pos().Below())
    }

    /** The shore search the job runs for candidate n. */
    function ShoreJob(n: MNode): (job: FishingPosJob)
      reads this, options
      ensures job.world == world && job.start == n.Pos() && job.direction == hutLocation
      ensures job.distance == SHORE_DISTANCE && job.range == SHORE_DISTANCE + SHORE_RANGE_MARGIN
      ensures job.options == options.Value()
    {
      NewFishingPosJob(world, n.Pos(), hutLocation, SHORE_DISTANCE, options.Value())
    }

    /** The shore found for candidate n: the target of the nested search's path when that
        path exists and can reach, and nothing otherwise. */
    function Shore(n: MNode): (t: Option<BlockPos>)
      reads this, options
      ensures t.Some? <==> search(ShoreJob(n)).Some? && search(ShoreJob(n)).value.canReach
      ensures t.Some? ==> t.value == search(ShoreJob(n)).value.target
    {
      match search(ShoreJob(n))
      case Some(path) => if path.canReach then Some(path.target) else None
      case None => None
    }

    /** The destination condition of the outer job. */
    predicate Accepts(n: MNode): (accepted: bool)
      reads this, options
      ensures accepted ==> IsWaterNode(n) && Shore(n).Some?
      ensures accepted ==> DistManhattan(hutLocation, n.Pos()) <= 3 * MAX_RANGE
      ensures accepted ==> forall e :: e in ponds ==> DistManhattan(e.location, n.Pos()) >= poolWidth + 2
      ensures !InHutRange(n.Pos()) ==> !accepted
    {
      && InHutRange(n.Pos())
      && IsWaterNode(n)
      && ClearOfPonds(ponds, n.Pos(), poolWidth)
      && Shore(n).Some?
    }

    /** The scan over the previously used fishing places, stopping at the first one
        that is too close to p. */
    method CheckPonds(p: BlockPos) returns (clear: bool)
      ensures clear == ClearOfPonds(ponds, p, poolWidth)
    {
      for i := 0 to |ponds|
        invariant forall j :: 0 <= j < i ==> DistManhattan(ponds[j].location, p) >= poolWidth + 2
      {
        if DistManhattan(ponds[i].location, p) < poolWidth + 2 {
          return false;
        }
      }
      return true;
    }

    /** The destination hook. It accepts exactly the nodes `Accepts` describes, and it
        writes the pond and the shore into the result only when it accepts. */
    method IsAtDestination(n: MNode) returns (accepted: bool)
      modifies result
      ensures accepted == Accepts(n)
      ensures accepted ==> result.pond == Some(n.Pos()) && result.parent == Shore(n)
      ensures !accepted ==> unchanged(result)
    {
      if DistSqr(hutLocation, n.Pos()) > MAX_RANGE * MAX_RANGE {
        return false;
      }
      if n.swimming && world.isWater(n.Pos().Below()) {
        var clear := CheckPonds(n.Pos());
        if !clear {
          return false;
        }
        var job := NewFishingPosJob(world, n.Pos(), hutLocation, SHORE_DISTANCE, options.Value());
        var path := search(job);
        if path.Some? && path.value.canReach {
          result.pond := Some(n.Pos());
          result.parent := Some(path.value.target);
          return true;
        }
      }
      return false;
    }

    /** Adopts the given options object and zeroes its two swim costs; every other
        option keeps its value. The base job's setter is taken to store the object
        itself, so the caller's object is the one whose costs change. */
    method SetPathingOptions(pathingOptions: PathingOptions)
      modifies this`options, pathingOptions
      ensures options == pathingOptions
      ensures pathingOptions.Value() == SwimFree(old(pathingOptions.Value()))
    {
      options := pathingOptions;
      options.swimCostEnter := 0.0;
      options.swimCost := 0.0;
    }
  }
}
