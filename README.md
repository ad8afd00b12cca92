# Find-water path job: a Dafny model

This project models the goal logic of MineColonies' "find nearest water" path job
(`PathJobFindWater`) and of the shore search nested inside it (`PathJobFindFishingPos`).
The generic best-first grid search that calls these hooks is not modelled.

Both jobs supply two hooks to that search:

- `computeHeuristic`, the estimate for a cell;
- `isAtDestination`, the acceptance test for a node.

The outer job looks for a swimming node over water near the worker's hut. Before it
accepts such a node, it runs a complete shore search from that node. It accepts the node
only if that search returns a path that can reach. It then records the water cell
(`pond`) and the path's target (`parent`) in its result. The shore search accepts a dry
node at Manhattan distance less than 10 from its start, the swimming node's own cell. The
node must stand on a walkable surface and must be in line of sight from 1.8 blocks above
that start cell.

## Layout

- `geometry.dfy`, module `Geometry`: block positions, the Manhattan and squared
  distances, and the facts about them the proofs rely on (triangle inequality; the
  Manhattan ball of radius r lies inside the squared ball of r*r; the squared ball lies
  inside the Manhattan ball of 3*r).
- `pathing.dfy`, module `Pathing`: the collaborators. These are:
  - search nodes (`MNode`);
  - surface types;
  - the read-only world queries (`World`);
  - the pathing options, a class mutated in place, with a value snapshot;
  - the path the nested search returns;
  - the pond list entries;
  - the result record `WaterPathResult`, a class whose two fields are written in place.
- `find_water.dfy`, module `FindWater`: the shore search (`FishingPosJob`, a datatype,
  since every field is final) and the outer job (`PathJobFindWater`, a class). The
  outer job's `IsAtDestination` is a method. It writes the result record and is proved
  against the predicate `Accepts`. Its scan of the pond list is the read-only method
  `CheckPonds`, whose loop is proved against `ClearOfPonds`. `SetPathingOptions`
  mutates the options object the job holds.
- `find_water_properties.dfy`, module `FindWaterProperties`: lemmas and small client
  methods relating the two jobs.

Modelling choices:

- The world is a value of three total functions:
  - `isWater`, standing for the pond water check;
  - `surfaceType`, for the surface classification, which also reads the options;
  - `clearSight(s, t)`, for the collider ray from 1.8 above `s` to `t`. It holds when the
    ray misses.
- The base job's `search()` is the constant field `search` of the outer job. Its type is
  `FishingPosJob -> Option<Path>`, and the constructor takes it as a parameter.
- `AcceptedResultIsValid` relates the two jobs. It assumes the hypothesis
  `SearchSound(search)`: a reaching path's target is a dry node that the shore search
  accepts. The base job's path construction is not part of this model, so this is an
  assumption, not a proved fact.
- `Pond.WATER_POOL_WIDTH_REQUIREMENT` is the constructor parameter `poolWidth`.
- The options the base job starts with are a constructor parameter.
- The caller's pond list is an `array`. The job keeps `ponds[..]`, a value copy.

How the options reach the two searches:

- The job's own code zeroes the swim costs only in `setPathingOptions`
  (PathJobFindWater.java:106-111).
- The shore search is handed the outer job's options (PathJobFindWater.java:92). So,
  once the override has run, the shore search also runs with both swim costs at zero.
  The model builds the shore search with a value snapshot of those options, taken when
  the search is built. `OverrideReachesShoreSearch` states the consequence.
- Manhattan and squared distances are computed on unbounded integers.

## Model

| member | source | states |
|---|---|---|
| `FindWater.PathJobFindWater.ComputeHeuristic` | src/main/java/com/minecolonies/core/entity/pathfinding/pathjobs/PathJobFindWater.java:68-71 | the outer estimate is zero exactly at the hut |
| `FindWaterProperties.HeuristicIgnoresStart` | src/main/java/com/minecolonies/core/entity/pathfinding/pathjobs/PathJobFindWater.java:68-71 | the outer estimate is the Manhattan distance from the hut; jobs sharing a hut agree on it whatever their start |
| `FindWaterProperties.HeuristicConsistent` | src/main/java/com/minecolonies/core/entity/pathfinding/pathjobs/PathJobFindWater.java:68-71 | the outer estimate changes by at most the Manhattan length of a move (a consistent A* estimate) |
| `FindWater.PathJobFindWater.constructor` | src/main/java/com/minecolonies/core/entity/pathfinding/pathjobs/PathJobFindWater.java:47-58 | stores the world, start, range and hut, copies the caller's ponds, and starts with an unset result |
| `FindWaterProperties.PondListIsCopied` | src/main/java/com/minecolonies/core/entity/pathfinding/pathjobs/PathJobFindWater.java:56 | writing the caller's list after construction leaves the job's ponds as they were at construction |
| `FindWater.PathJobFindWater.IsAtDestination` | src/main/java/com/minecolonies/core/entity/pathfinding/pathjobs/PathJobFindWater.java:73-103 | returns true exactly when `Accepts` holds; on true the result holds the node's cell and the shore path's target; on false the result is unchanged |
| `FindWater.PathJobFindWater.CheckPonds` | src/main/java/com/minecolonies/core/entity/pathfinding/pathjobs/PathJobFindWater.java:83-89 | the early-exit scan returns true exactly when every listed pond is at Manhattan distance at least width + 2 |
| `FindWaterProperties.AcceptsExactly` | src/main/java/com/minecolonies/core/entity/pathfinding/pathjobs/PathJobFindWater.java:76-102 | acceptance holds iff the node is within squared distance 100*100 of the hut, swimming over water, clear of every pond, and the shore search from it (start = node, direction = hut, distance 10, the job's options) returns a reaching path |
| `FindWater.PathJobFindWater.InHutRange` | src/main/java/com/minecolonies/core/entity/pathfinding/pathjobs/PathJobFindWater.java:76 | the squared range check around the hut admits every cell within Manhattan distance 100 of the hut and no cell beyond Manhattan distance 300 |
| `FindWater.PathJobFindWater.IsWaterNode` | src/main/java/com/minecolonies/core/entity/pathfinding/pathjobs/PathJobFindWater.java:81 | a candidate is a swimming node whose cell below is water; such a node is never a shore of any shore search |
| `FindWater.PathJobFindWater.Accepts` | src/main/java/com/minecolonies/core/entity/pathfinding/pathjobs/PathJobFindWater.java:76-102 | the outer acceptance condition: an accepted node is a water node with a reaching shore, within Manhattan distance 300 of the hut and at distance at least width + 2 from every listed pond; a node failing the range check is rejected |
| `FindWater.ClearOfPonds` | src/main/java/com/minecolonies/core/entity/pathfinding/pathjobs/PathJobFindWater.java:83-89 | the pond test holds iff every listed pond location is at Manhattan distance at least width + 2; it holds for an empty list |
| `FindWaterProperties.NearKnownPondRejected` | src/main/java/com/minecolonies/core/entity/pathfinding/pathjobs/PathJobFindWater.java:83-89 | a node closer than width + 2 to any listed pond is rejected |
| `FindWaterProperties.ClearOfPondsAppend` | src/main/java/com/minecolonies/core/entity/pathfinding/pathjobs/PathJobFindWater.java:83-89 | the pond test over two concatenated lists is the conjunction of the tests over each |
| `FindWaterProperties.ClearOfPondsOrderFree` | src/main/java/com/minecolonies/core/entity/pathfinding/pathjobs/PathJobFindWater.java:83-89 | the pond test depends only on which entries are listed, not on order or repetition |
| `FindWaterProperties.ClearOfPondsSubset` | src/main/java/com/minecolonies/core/entity/pathfinding/pathjobs/PathJobFindWater.java:83-89 | if every entry of list a also appears in list b, a location clear of b's ponds is clear of a's |
| `FindWaterProperties.MorePondsAcceptFewer` | src/main/java/com/minecolonies/core/entity/pathfinding/pathjobs/PathJobFindWater.java:83-89 | a job whose pond list contains every entry of another's accepts no node the other rejects |
| `FindWater.PathJobFindWater.ShoreJob` | src/main/java/com/minecolonies/core/entity/pathfinding/pathjobs/PathJobFindWater.java:91-92 | the nested search starts at the node, aims at the hut, has distance 10 and range 110, and uses the job's current options |
| `FindWater.PathJobFindWater.Shore` | src/main/java/com/minecolonies/core/entity/pathfinding/pathjobs/PathJobFindWater.java:93-98 | a shore is found iff the nested search returns a path that can reach, and it is that path's target |
| `FindWaterProperties.AcceptedResultIsValid` | src/main/java/com/minecolonies/core/entity/pathfinding/pathjobs/PathJobFindWater.java:81-146 | for a sound nested search, an accepted node is swimming over water, in range and clear of ponds, and its shore is within 10 of it, on a walkable surface and visible from above it |
| `FindWaterProperties.DestinationRecordsValidShore` | src/main/java/com/minecolonies/core/entity/pathfinding/pathjobs/PathJobFindWater.java:94-98 | after the destination hook accepts, the result's pond is the node and its parent is a shore meeting every shore condition; a rejection leaves the result unchanged |
| `FindWater.PathJobFindWater.SetPathingOptions` | src/main/java/com/minecolonies/core/entity/pathfinding/pathjobs/PathJobFindWater.java:105-111 | the job holds the given options object afterwards; both swim costs become zero and every other option keeps its value |
| `FindWater.SwimFree` | src/main/java/com/minecolonies/core/entity/pathfinding/pathjobs/PathJobFindWater.java:109-110 | the override sets both swim costs to zero and leaves every other option as it was |
| `FindWaterProperties.SwimFreeIdempotent` | src/main/java/com/minecolonies/core/entity/pathfinding/pathjobs/PathJobFindWater.java:109-110 | the override is idempotent and changes nothing exactly when both swim costs are already zero |
| `FindWaterProperties.OverrideReachesShoreSearch` | src/main/java/com/minecolonies/core/entity/pathfinding/pathjobs/PathJobFindWater.java:92 | after the override, every shore search the job builds runs with both swim costs zero and the other options unchanged |
| `FindWater.NewFishingPosJob` | src/main/java/com/minecolonies/core/entity/pathfinding/pathjobs/PathJobFindWater.java:121-130 | a shore search keeps start, direction and distance, and its path range is distance + 100 |
| `FindWater.FishingPosJob.ComputeHeuristic` | src/main/java/com/minecolonies/core/entity/pathfinding/pathjobs/PathJobFindWater.java:133-136 | the shore estimate is zero exactly at `direction` |
| `FindWaterProperties.ShoreAcceptanceIgnoresDirection` | src/main/java/com/minecolonies/core/entity/pathfinding/pathjobs/PathJobFindWater.java:133-146 | the shore estimate is the Manhattan distance to `direction`; `direction` affects only the estimate, never acceptance |
| `FindWaterProperties.SwimmingNeverShore` | src/main/java/com/minecolonies/core/entity/pathfinding/pathjobs/PathJobFindWater.java:141 | a swimming node is never a shore |
| `FindWaterProperties.ShoreHeuristicConsistent` | src/main/java/com/minecolonies/core/entity/pathfinding/pathjobs/PathJobFindWater.java:133-136 | the shore estimate changes by at most the Manhattan length of a move (a consistent A* estimate) |
| `FindWater.FishingPosJob.IsAtDestination` | src/main/java/com/minecolonies/core/entity/pathfinding/pathjobs/PathJobFindWater.java:139-146 | the shore condition rejects every swimming node, and accepts nothing when the distance bound is not positive |
| `FindWater.FishingPosJob.CanSeeTargetFromPos` | src/main/java/com/minecolonies/core/entity/pathfinding/pathjobs/PathJobFindWater.java:154-159 | the sight line runs from 1.8 above the shore search's start, not above the node, to the node's cell; it holds iff the world's ray query reports a miss |

## Left out

- `SetPathingOptions`: assumes that the base job's setter stores the given object itself, so the caller's object is the one whose swim costs are zeroed and the object later handed to the shore search. The base setter is not part of this model; if it copied the options, the caller's object would keep its costs.
- `PathJobFindWater.constructor`: the options the base constructor starts from are a parameter, and whether the base constructor already applies the setter is not modelled.
- The base search (`AbstractPathJob`): open and closed sets, neighbour expansion, movement costs, `search()` and path construction. The source of these is not part of this model. `search()` is an opaque function parameter.
- `AcceptedResultIsValid` and `DestinationRecordsValidShore` assume `SearchSound`, the property that a reaching path's target is a dry node the shore search accepts. That property belongs to the base search, which is not modelled.
- World and block queries (`Pond.checkWater`, `SurfaceType.getSurfaceType`, the cached block lookup): uninterpreted functions inside `World`. The mutable scratch position the source reuses is a plain value.
- The raycast with double coordinates: `clearSight` is uninterpreted. The 1.8 offset is documented on it and not computed, because the model has no floating point.
- Surface types other than WALKABLE are folded into `NotWalkable`, because only WALKABLE is tested.
- Pathing options other than the two swim costs are one name-to-value map. The options class itself is not part of this model.
- `getResult` is a plain field access (`result`). The `Mob` entity, `Level` and the `PathResult` of the shore search are foreign types and are not modelled.
- `ComputeHeuristic` (both jobs): returns the integer distance, where the source widens it to a double.
- The integer width of the two distances is not modelled: they are unbounded integers.
- `MIN_DISTANCE` (40) is declared and never used by the hooks; it is kept as a constant only.
- The shore search's own options setter: it is folded into `NewFishingPosJob`, which receives the options snapshot directly. The base job's default options for that search are overwritten before it runs, so they are not modelled.
