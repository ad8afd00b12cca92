/** The collaborators the find-water job talks to: search nodes, the read-only world
    queries, pathing options, the nested search's path and the job's result record. */
module Pathing {
  import opened Geometry

  datatype Option<+T> = None | Some(value: T)

  /** A search node of the base path job (MNode): its cell and whether the movement
      into it was resolved as swimming. */
  datatype MNode = MNode(x: int, y: int, z: int, swimming: bool) {

    function Pos(): (p: BlockPos)
      ensures p.x == x && p.y == y && p.z == z
    {
      BlockPos(x, y, z)
    }
  }

  /** The classification of the block a node would stand on. Only WALKABLE is tested
      by the find-water jobs; every other classification is folded into NotWalkable. */
  datatype SurfaceType = Walkable | NotWalkable

  /** A value snapshot of the pathing options. The two swim costs are the options the
      find-water job touches; every other option is kept, by name, in `rest`. */
  datatype OptionsValue = OptionsValue(swimCostEnter: real, swimCost: real, rest: map<string, real>)

  /** The world as the jobs see it: read-only queries over a fixed snapshot.
      - isWater(p): the water test of Pond.checkWater on cell p;
      - surfaceType(p, o): SurfaceType.getSurfaceType of the block at p under options o;
      - clearSight(s, t): the collider ray from (s.x, s.y + 1.8, s.z) to the corner of t
        reaches t without a hit (the world's clip query reports a miss). */
  datatype World = World(
    isWater: BlockPos -> bool,
    surfaceType: (BlockPos, OptionsValue) -> SurfaceType,
    clearSight: (BlockPos, BlockPos) -> bool)

  /** The path a search returns: whether it reaches its destination, and its target. */
  datatype Path = Path(canReach: bool, target: BlockPos)

  /** An entry of the list of previously used fishing places: the pond location (the
      tuple's first component) and its associated reference point (the second). */
  datatype PondEntry = PondEntry(location: BlockPos, reference: BlockPos)

  /** The mutable pathing options object (PathingOptions) shared between jobs. */
  class PathingOptions {
    var swimCostEnter: real
    var swimCost: real
    var rest: map<string, real>

    constructor (swimCostEnter: real, swimCost: real, rest: map<string, real>)
      ensures Value() == OptionsValue(swimCostEnter, swimCost, rest)
    {
      this.swimCostEnter := swimCostEnter;
      this.swimCost := swimCost;
      this.rest := rest;
    }

    /** The current option values. */
    function Value(): (v: OptionsValue)
      reads this
      ensures v.swimCostEnter == swimCostEnter && v.swimCost == swimCost && v.rest == rest
    {
      OptionsValue(swimCostEnter, swimCost, rest)
    }
  }

  /** The result record of the find-water job (WaterPathResult): the accepted pond and
      the shore position the route ends at. Both start out unset (null). */
  class WaterPathResult {
    var pond: Option<BlockPos>
    var parent: Option<BlockPos>

    constructor ()
      ensures pond == None && parent == None
    {
      pond := None;
      parent := None;
    }
  }
}
