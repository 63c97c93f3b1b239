# map-sync client core, modelled in Dafny

map-sync lets the players of a shared multiplayer world exchange explored map
data. The client gets chunk tiles two ways: it samples chunks it has loaded,
and the sync server sends it live and historical ("catchup") tiles. This
project models two pieces of the client:

- **Chunk sampling** (`cartography.dfy`, module `Cartography`). A tile has
  256 columns, one per (x, z) cell of the chunk, stored at index `z * 16 + x`.
  Each column is built by walking down from the world-surface height. The walk
  records one layer per block-state transition. It passes over air and over
  repeats of the layer above, and it stops at the first solid, light-blocking
  state.
- **The render queue** (`render_queue.dfy`, module `RenderQueues`, and
  `dimension_state.dfy`, module `DimensionStates`). One priority queue per
  dimension feeds a single worker, which takes tiles newest first. The worker
  drops tiles for another dimension. It also drops tiles older than the
  timestamp already recorded for their chunk. It hands every other tile to the
  installed map mods (JourneyMap, VoxelMap). When one of them applied the tile,
  the worker sets the per-chunk timestamp and the last-applied timestamp to the tile's.
  When the queue runs low, it asks the server for more catchup data, following
  a watermark and debounce rule.

`tiles.dfy` (module `Tiles`) holds the value types: `ChunkPos`, `Dimension`,
`BlockState`, `BlockInfo` (a layer), `BlockColumn` and `ChunkTile`.

How the model is built:

- **Chunk sampling is imperative.** `BlockColumnFromChunk` is a nested
  `while` walk that appends layers to a sequence. `ChunkTileFromLevel` fills a
  256-element array with a counter, z outer and x inner. The chunk, the world
  and the level are inputs: a surface-height function, a block-state function,
  and block-light and biome functions.
- **The render queue is a class.** `RenderQueue` has the fields `queue`
  (a multiset of tiles), `tsRequestMore`, `workerRunning` (which stands for
  the `thread` field being non-null) and `beginLiveTs`. The ledger is a second
  class, `DimensionState`. Each method is proved equal to a function of the
  abstract state (`Scheduler`): `AfterRenderLater`, `AfterShutDown` and
  `Step`, which covers one iteration of the worker's loop. The lemmas are about
  those functions.
- **Each iteration gets its outside world as an `Env` input:** the clock, the
  active level's dimension (or none), each map mod's not-available, mapping
  and applied-the-tile answers, and the watermark. The catchup positions the
  iteration would send to the server are recorded in its `Outcome`.
- **Poll returns some tile of maximal timestamp.** A priority queue does not
  order tiles of equal timestamp, so `IsPoll` allows any one of them.

Four behaviours of the code a reader could easily assume otherwise; the model
follows the code in each:

- **Equal timestamps are re-applied.** The staleness test drops a tile only
  when its timestamp is *less than* the recorded one
  (`RenderQueue.java:77`). A tile with an equal timestamp passes and is
  dispatched again.
- **The catchup rule runs only after a dispatch.** A tile dropped for its
  dimension or as stale ends the iteration with `continue`, and so does the
  wait for a map mod. None of them evaluates the watermark rule.
- **An empty queue stops the worker**, whether or not a catchup request is
  outstanding. `renderLater` starts it again.
- **The walk can pass over a solid-blocking state.** It skips any state that
  is air, solid or not. Such a state can only end the walk at the surface
  height.

## Model

| member | source | states |
|---|---|---|
| `Cartography.BlockColumnFromChunk` | mod/common/src/main/java/gjum/minecraft/mapsync/common/Cartography.java:38-57 | The column's layers are a complete walk of cell (x, z). The first layer is at the surface height, and each layer holds the state found at its height. Heights strictly decrease. Only the last layer is solid-blocking. Each later layer is non-air and differs from the layer above it. Every cell in between is air or a repeat of the layer above. Light and biome are the world's at the position where the walk stopped. |
| `Cartography.ChunkTileFromLevel` | mod/common/src/main/java/gjum/minecraft/mapsync/common/Cartography.java:15-36 | The tile has exactly 256 columns. The column at index `z * 16 + x` is the sample of cell (x, z), and every column, at index i, is the sample of cell (i mod 16, i div 16), so none is left unfilled. The data version is 1, the hash is the given hash of the columns, and the tile carries the level's dimension and the chunk position. |
| `Cartography.CellIndex` | mod/common/src/main/java/gjum/minecraft/mapsync/common/Cartography.java:22-27 | Index `z * 16 + x` of a cell (x, z) with both in 0..15 lies in 0..255, and x and z can be recovered from it, so no two cells share an index. |
| `Cartography.WalkUnique` | mod/common/src/main/java/gjum/minecraft/mapsync/common/Cartography.java:43-51 | Two walks of the same cell are equal, so the walk's contract fixes its layers completely. |
| `Cartography.SampleUnique` | mod/common/src/main/java/gjum/minecraft/mapsync/common/Cartography.java:38-57 | Two samples of the same cell are equal, light and biome included. |
| `Cartography.WalkEndsAtFirstFloor` | mod/common/src/main/java/gjum/minecraft/mapsync/common/Cartography.java:43-51 | The last layer is a floor: a solid-blocking state that the scan does not pass over. No height above it is a floor, so the walk stops at the first floor it reaches. |
| `DimensionStates.PollCount` | mod/common/src/main/java/gjum/minecraft/mapsync/common/RenderQueue.java:96 | A poll never hands out more positions than the backlog holds, and none for a limit of zero or less. For a positive limit it hands out at most the limit, and either the whole backlog or exactly the limit. |
| `DimensionStates.Advance` | mod/common/src/main/java/gjum/minecraft/mapsync/common/RenderQueue.java:85-86 | After an advance, the chunk's recorded timestamp and the last timestamp are the tile's. Every other chunk's record, the default and the backlog are unchanged. |
| `DimensionStates.PollCatchup` | mod/common/src/main/java/gjum/minecraft/mapsync/common/RenderQueue.java:96 | The positions handed out are the front of the backlog, `PollCount` many. The rest stays in order, and nothing else in the ledger changes. |
| `DimensionStates.DimensionState.GetChunkTimestamp` | mod/common/src/main/java/gjum/minecraft/mapsync/common/RenderQueue.java:77 | Returns the chunk's recorded timestamp, or the default when there is no record. |
| `DimensionStates.DimensionState.SetChunkTimestamp` | mod/common/src/main/java/gjum/minecraft/mapsync/common/RenderQueue.java:85 | Records the timestamp for the chunk. Nothing else changes. |
| `DimensionStates.DimensionState.WriteLastTimestamp` | mod/common/src/main/java/gjum/minecraft/mapsync/common/RenderQueue.java:86 | Sets the last timestamp. Nothing else changes. |
| `DimensionStates.DimensionState.PollCatchupChunks` | mod/common/src/main/java/gjum/minecraft/mapsync/common/RenderQueue.java:96 | Removes and returns the positions `PollCatchup` hands out. |
| `RenderQueues.RenderQueue.constructor` | mod/common/src/main/java/gjum/minecraft/mapsync/common/RenderQueue.java:15-27 | A new queue is empty and has no worker. `tsRequestMore` is 0, `beginLiveTs` is the creation time, and the queue holds the given ledger. |
| `RenderQueues.RenderQueue.RenderLater` | mod/common/src/main/java/gjum/minecraft/mapsync/common/RenderQueue.java:32-43 | Adds exactly the given tile and leaves the worker running. `started` is true exactly when no worker ran before the call. Sets `tsRequestMore` to now + 100 exactly when the tile's timestamp is below `beginLiveTs`, and otherwise leaves it unchanged. The ledger is unchanged. |
| `RenderQueues.RenderQueue.ShutDown` | mod/common/src/main/java/gjum/minecraft/mapsync/common/RenderQueue.java:45-50 | Clears the worker flag and changes nothing else. `interrupted` is true exactly when a worker was running. |
| `RenderQueues.RenderQueue.RenderLoopIteration` | mod/common/src/main/java/gjum/minecraft/mapsync/common/RenderQueue.java:56-108 | When the iteration reaches the poll, the tile it took is a newest one, or there is none because the queue is empty. The new queue, ledger, timer, worker flag and outcome are exactly those of `Step`. |
| `RenderQueues.RenderQueue.DispatchTile` | mod/common/src/main/java/gjum/minecraft/mapsync/common/RenderQueue.java:81-98 | The new state and outcome are exactly those of `Dispatch`: apply, advance when applied, then the catchup rule. |
| `RenderQueues.NewestExists` | mod/common/src/main/java/gjum/minecraft/mapsync/common/RenderQueue.java:21-23 | Every non-empty queue holds a tile of greatest timestamp, so poll returns a tile whenever the queue is not empty. |
| `RenderQueues.DrainIsNewestFirst` | mod/common/src/main/java/gjum/minecraft/mapsync/common/RenderQueue.java:21-23 | Successive polls with nothing added in between return tiles whose timestamps never increase, all taken from the queue. |
| `RenderQueues.IterationsDrainQueue` | mod/common/src/main/java/gjum/minecraft/mapsync/common/RenderQueue.java:56-99 | The tiles taken by a run of the worker's iterations, with no call in between, are successive newest-first polls of the starting queue. |
| `RenderQueues.IterationsPollNewestFirst` | mod/common/src/main/java/gjum/minecraft/mapsync/common/RenderQueue.java:56-99 | Such iterations take tiles whose timestamps never increase, all from the starting queue. |
| `RenderQueues.IterationPollsNewest` | mod/common/src/main/java/gjum/minecraft/mapsync/common/RenderQueue.java:69 | An iteration that polled removes exactly one tile of greatest timestamp, so the queue shrinks by one. Any other iteration leaves the queue unchanged. |
| `RenderQueues.NoWorldStopsWorker` | mod/common/src/main/java/gjum/minecraft/mapsync/common/RenderQueue.java:58-60 | With no open world, the worker exits. The queue, ledger and timer are kept. |
| `RenderQueues.WaitingConsumesNothing` | mod/common/src/main/java/gjum/minecraft/mapsync/common/RenderQueue.java:62-67 | With a world open, while an installed map mod is not mapping, the iteration changes nothing, queue and ledger included. |
| `RenderQueues.ForeignDimensionDropped` | mod/common/src/main/java/gjum/minecraft/mapsync/common/RenderQueue.java:72-74 | A tile for another dimension is removed. The ledger and the timer are unchanged. |
| `RenderQueues.StaleTileDropped` | mod/common/src/main/java/gjum/minecraft/mapsync/common/RenderQueue.java:77-79 | A tile strictly older than its chunk's record is removed. The ledger and the timer are unchanged. |
| `RenderQueues.CurrentTileDispatched` | mod/common/src/main/java/gjum/minecraft/mapsync/common/RenderQueue.java:77-84 | A tile of the active dimension that is not older than its chunk's record, equal timestamps included, is dispatched. It counts as applied exactly when either map mod applied it. |
| `RenderQueues.LedgerAdvancesOnlyOnApply` | mod/common/src/main/java/gjum/minecraft/mapsync/common/RenderQueue.java:81-87 | If a map mod applied a tile that passed the gates, the chunk's recorded timestamp and the last timestamp become the tile's, and no other chunk changes. Otherwise neither the recorded timestamps nor the last timestamp change. |
| `RenderQueues.IterationKeepsTimestampsMonotone` | mod/common/src/main/java/gjum/minecraft/mapsync/common/RenderQueue.java:77-87 | No iteration lowers a chunk's recorded timestamp. |
| `RenderQueues.EventKeepsTimestampsMonotone` | mod/common/src/main/java/gjum/minecraft/mapsync/common/RenderQueue.java:32-99 | No `renderLater`, `shutDown` or iteration lowers a chunk's recorded timestamp. |
| `RenderQueues.RunKeepsTimestampsMonotone` | mod/common/src/main/java/gjum/minecraft/mapsync/common/RenderQueue.java:32-99 | Over any run of calls and iterations, whatever order the tiles arrive in, no chunk's recorded timestamp ever decreases. |
| `RenderQueues.CatchupRule` | mod/common/src/main/java/gjum/minecraft/mapsync/common/RenderQueue.java:91-98 | A dispatch issues a request exactly when the queue left is empty, or is below the watermark with `tsRequestMore < now`. A request sets `tsRequestMore` to now + 1000 and hands out the front of the backlog, limited by the watermark. Without a request, the timer and backlog are unchanged. Any other iteration changes neither the timer nor the ledger. |
| `RenderQueues.DebounceDefersCatchup` | mod/common/src/main/java/gjum/minecraft/mapsync/common/RenderQueue.java:38-42 | After a catchup tile arrives at time `now`, whatever calls and iterations follow from then on, a dispatch up to `now` + 100 that leaves the queue non-empty issues no request. |
| `RenderQueues.RunKeepsDebounce` | mod/common/src/main/java/gjum/minecraft/mapsync/common/RenderQueue.java:38-42 | Once `tsRequestMore` is at `now` + 100 or later, no run of calls and iterations from time `now` on moves it below that: `renderLater` only re-arms it from a later clock, and a request only from a later clock plus 1000. |
| `RenderQueues.WorkerFlagLifecycle` | mod/common/src/main/java/gjum/minecraft/mapsync/common/RenderQueue.java:32-50 | `renderLater` leaves the worker running, so a second `renderLater` starts no further worker. `shutDown` clears the flag and is idempotent, and a second `shutDown` interrupts nothing. `renderLater` after `shutDown` starts a worker again. |
| `RenderQueues.IterationStopsWorker` | mod/common/src/main/java/gjum/minecraft/mapsync/common/RenderQueue.java:56-108 | An iteration clears the worker flag exactly when no world is open, or when it reaches the poll (no map mod waiting) with the queue empty, and it never sets the flag. It ends with `WorldClosed` exactly when no world is open, and with `Drained` exactly when it reaches the poll on an empty queue. |
| `RenderQueues.ReorderScenario` | mod/common/src/main/java/gjum/minecraft/mapsync/common/RenderQueue.java:69-86 | Chunk (3, 5) gets tile A (timestamp 1000) and tile B (timestamp 900), in either order. Two iterations with an applying map mod apply A and drop B as stale, and the recorded timestamp ends at 1000. |

## Left out

- RenderQueues.RunKeepsTimestampsMonotone: holds for runs in which iterations are atomic and come from one worker at a time. In the source, a worker interrupted by `shutDown` (`RenderQueue.java:45-50`) keeps running until its next sleep (`RenderQueue.java:89`), while a `renderLater` (`RenderQueue.java:34-37`) can already have started a second worker. Two workers can then both pass the staleness gate (`RenderQueue.java:77`) and write at `RenderQueue.java:85` in the wrong order. For example, with 800 recorded, tiles of 900 and 1000 both pass the gate, 1000 is written first and 900 last, and the record drops to 900. That interleaving is not modelled.
- Runs admit iterations whether or not the worker flag is set. This over-approximates the source, whose iterations run only in a started worker; it also covers the last iterations of an interrupted worker, and the lemmas over runs hold for all of them.
- Threads, `Thread.sleep`, `interrupt`, `synchronized`, and the exception paths of the worker loop are not modelled; one loop iteration is one step. Concurrency cannot be stated here. This leaves out two exits: the worker leaves at the next sleep after `shutDown`, and a `Throwable` ends the loop. It also leaves out the race in which a finishing worker clears the flag of a newer one.
- The one-second sleep while waiting for a map mod is not modelled. The iteration only reports `WaitingForMapping`.
- `Minecraft.getInstance().level`, `JourneyMapHelper`/`VoxelMapHelper` `isMapping` and `updateWithChunkTile`, and the availability flags are foreign collaborators. They are inputs of each iteration (`Env`). `getMod().requestCatchupData` is recorded in the outcome instead of being called.
- `System.currentTimeMillis()` and the configured catchup watermark are inputs. The source reads the watermark once when a worker starts; the model takes it with each iteration.
- `RenderQueue.areAllMapModsMapping` (`RenderQueue.java:111-113`) is a static query of one foreign collaborator, and nothing it does can be stated here.
- `DimensionState` is not part of this model's sources. The class here has only the operations the render queue calls. Its poll is assumed to hand out the front of the backlog (FIFO). Its setters are assumed to overwrite, with no extra checks, so the last timestamp is that of the last applied tile and not a high-water mark: it can go down.
- `ChunkTile.writeColumns` and `computeDataHash` are not part of this model. The hash is a function of the column sequence, passed in as `dataHash`.
- The `ChunkTile` constructor is not part of this model either. `ChunkTileFromLevel` takes the tile's timestamp as a parameter.
- The block-light and biome lookups are world access. They are the `World` functions, applied to the position the source passes: the chunk-local (x, z) and the height where the walk stopped. The source sets that position from the chunk-local loop counters (`Cartography.java:24`) and hands it to the world's light and biome queries (`Cartography.java:54-55`), which take world coordinates. So every tile likely reads light and biome from the cells of chunk (0, 0) rather than from its own. That is probably a defect in the source; the model reproduces it.
- The source mutates the `BlockPos` it is given. The model uses local coordinates instead, and the caller's position object is not modelled.
- `Cartography.BlockColumnFromChunk`: requires a floor at or below the surface (`Grounded`). Without one the source loop does not terminate, and that non-termination is not modelled.
- `VoxelMapHelper.java` is not modelled. It works by reflection into another mod's private state and does not compile as written. Its x-outer column order is not compared with the z-outer order used here.
