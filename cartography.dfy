/** Sampling a loaded chunk into a chunk tile: a downward walk per (x, z)
    cell that records one layer per block-state transition and stops at the
    first solid, light-blocking state, and the 256-cell fill in z-major order. */
module Cartography {
  import opened Tiles

  /** A loaded chunk, addressed by chunk-local coordinates: the world-surface
      height of each (x, z) cell and the block state at each position. */
  datatype LevelChunk = LevelChunk(
    surface: (int, int) -> int,
    blockState: (int, int, int) -> BlockState)

  /** The client world the sampler asks for block light and biome. */
  datatype World = World(
    blockLight: (int, int, int) -> int,
    biome: (int, int, int) -> Biome)

  /** A level: its dimension and its chunks by chunk coordinates. */
  datatype Level = Level(dimension: Dimension, chunk: (int, int) -> LevelChunk)

  /** The number of cells of a chunk, and of columns of a tile. */
  const CellCount := 256

  /** The data version every sampled tile carries. */
  const DataVersion := 1

  /** A cell the downward scan passes over: air, or the same state as the
      layer above it. */
  predicate Skippable(bs: BlockState, prev: BlockState)
  {
    bs == prev || bs.isAir
  }

  /** A height at which the walk of cell (x, z) can end: a solid-blocking
      state at or below the surface that the scan would not pass over (below
      the surface a state that is air is passed over, whatever its material). */
  predicate FloorAt(chunk: LevelChunk, x: int, z: int, y: int)
  {
    var top := chunk.surface(x, z);
    var bs := chunk.blockState(x, y, z);
    y <= top && bs.isSolidBlocking && (y == top || !bs.isAir)
  }

  /** The walk of cell (x, z) terminates: some floor lies at or below the
      surface. */
  ghost predicate Grounded(chunk: LevelChunk, x: int, z: int)
  {
    exists y :: FloorAt(chunk, x, z, y)
  }

  /** Every cell strictly between the layer `upper` and the height `lowerY`
      is one the scan passes over. */
  predicate PassedOver(chunk: LevelChunk, x: int, z: int, upper: BlockInfo, lowerY: int)
  {
    forall y :: lowerY < y < upper.y ==> Skippable(chunk.blockState(x, y, z), upper.state)
  }

  /** The layers recorded so far by the walk of cell (x, z): the first at the
      surface, each holding the state found at its height, heights strictly
      decreasing, none solid except possibly the last, every later layer a
      state the scan stops at, and every cell passed over in between air or a
      repeat of the layer above. */
  predicate WalkPrefix(chunk: LevelChunk, x: int, z: int, layers: seq<BlockInfo>)
  {
    && |layers| > 0
    && layers[0].y == chunk.surface(x, z)
    && (forall k :: 0 <= k < |layers| ==> layers[k].state == chunk.blockState(x, layers[k].y, z))
    && (forall i, j :: 0 <= i < j < |layers| ==> layers[j].y < layers[i].y)
    && (forall k :: 0 <= k < |layers| - 1 ==> !layers[k].state.isSolidBlocking)
    && (forall k :: 0 < k < |layers| ==> !Skippable(layers[k].state, layers[k - 1].state))
    && (forall k :: 0 < k < |layers| ==> PassedOver(chunk, x, z, layers[k - 1], layers[k].y))
  }

  /** A complete walk: a walk prefix whose last layer is solid-blocking. */
  predicate IsWalk(chunk: LevelChunk, x: int, z: int, layers: seq<BlockInfo>)
  {
    WalkPrefix(chunk, x, z, layers) && layers[|layers| - 1].state.isSolidBlocking
  }

  /** `column` is the sample of cell (x, z): its layers are the walk, and its
      light and biome are the world's at the position where the walk ended. */
  predicate SampledColumn(chunk: LevelChunk, world: World, x: int, z: int, column: BlockColumn)
  {
    && IsWalk(chunk, x, z, column.layers)
    && var last := column.layers[|column.layers| - 1];
    && column.light == world.blockLight(x, last.y, z)
    && column.biome == world.biome(x, last.y, z)
  }

  /** Between steps of the walk: the layers so far are a prefix ending in a
      state that is not solid, and y is the height where the scan below that
      layer stopped. */
  predicate NextLayerAt(chunk: LevelChunk, x: int, z: int, layers: seq<BlockInfo>, y: int)
  {
    && WalkPrefix(chunk, x, z, layers)
    && var last := layers[|layers| - 1];
    && !last.state.isSolidBlocking
    && y < last.y
    && !Skippable(chunk.blockState(x, y, z), last.state)
    && PassedOver(chunk, x, z, last, y)
  }

  /** Recording the layer at y, the surface or the height where the scan
      stopped, keeps a walk prefix. */
  lemma ExtendWalk(chunk: LevelChunk, x: int, z: int, layers: seq<BlockInfo>, y: int)
    requires layers == [] ==> y == chunk.surface(x, z)
    requires layers != [] ==> NextLayerAt(chunk, x, z, layers, y)
    ensures WalkPrefix(chunk, x, z, layers + [BlockInfo(y, chunk.blockState(x, y, z))])
  {
    var next := layers + [BlockInfo(y, chunk.blockState(x, y, z))];
    if layers != [] {
      assert forall k :: 0 <= k < |layers| ==> next[k] == layers[k];
    }
  }

  /** The column of a tile that holds cell (x, z): index z * 16 + x. */
  function ColumnAt(columns: seq<BlockColumn>, x: int, z: int): BlockColumn
    requires |columns| == CellCount && 0 <= x < 16 && 0 <= z < 16
  {
    columns[z * 16 + x]
  }

  /** Samples cell (x, z) of a chunk. The walk starts at the world-surface
      height and goes down; it records a layer, stops if that layer is solid,
      and otherwise scans down past air and repeats of that layer's state.
      Light and biome are then read at the position where the walk stopped. */
  method BlockColumnFromChunk(chunk: LevelChunk, world: World, x: int, z: int)
    returns (column: BlockColumn)
    requires Grounded(chunk, x, z)
    ensures SampledColumn(chunk, world, x, z, column)
  {
    var layers: seq<BlockInfo> := [];
    var y := chunk.surface(x, z);
    var bs := chunk.blockState(x, y, z);
    ghost var floor :| FloorAt(chunk, x, z, floor);
    while true
      invariant bs == chunk.blockState(x, y, z)
      invariant floor <= y <= chunk.surface(x, z)
      invariant layers == [] ==> y == chunk.surface(x, z)
      invariant layers != [] ==> NextLayerAt(chunk, x, z, layers, y)
      decreases y - floor
    {
      ExtendWalk(chunk, x, z, layers, y);
      layers := layers + [BlockInfo(y, bs)];
      if bs.isSolidBlocking {
        break;
      }
      var prevBS := bs;
      y := y - 1;
      bs := chunk.blockState(x, y, z);
      while Skippable(bs, prevBS)
        invariant bs == chunk.blockState(x, y, z)
        invariant prevBS == layers[|layers| - 1].state && !prevBS.isSolidBlocking
        invariant floor <= y < layers[|layers| - 1].y <= chunk.surface(x, z)
        invariant PassedOver(chunk, x, z, layers[|layers| - 1], y)
        decreases y - floor
      {
        y := y - 1;
        bs := chunk.blockState(x, y, z);
      }
    }
    var light := world.blockLight(x, y, z);
    var biome := world.biome(x, y, z);
    column := BlockColumn(biome, light, layers);
  }

  /** Samples all 256 cells of chunk (cx, cz) of `level`, z outer and x
      inner, into a tile of data version 1 whose hash is `dataHash` of the
      columns. The producer timestamp is an input. */
  method ChunkTileFromLevel(
    level: Level, world: World, cx: int, cz: int, timestamp: int,
    dataHash: seq<BlockColumn> -> string)
    returns (tile: ChunkTile)
    requires forall x, z :: 0 <= x < 16 && 0 <= z < 16 ==> Grounded(level.chunk(cx, cz), x, z)
    ensures tile.dimension == level.dimension
    ensures tile.chunkPos == ChunkPos(cx, cz) && tile.timestamp == timestamp
    ensures tile.dataVersion == DataVersion
    ensures |tile.columns| == CellCount
    ensures forall x, z :: 0 <= x < 16 && 0 <= z < 16 ==>
      SampledColumn(level.chunk(cx, cz), world, x, z, ColumnAt(tile.columns, x, z))
    ensures forall i :: 0 <= i < CellCount ==>
      SampledColumn(level.chunk(cx, cz), world, i % 16, i / 16, tile.columns[i])
    ensures tile.dataHash == dataHash(tile.columns)
  {
    var chunk := level.chunk(cx, cz);
    var columns := new BlockColumn[CellCount];
    var i := 0;
    for z := 0 to 16
      invariant i == z * 16
      invariant forall j :: 0 <= j < i ==> SampledColumn(chunk, world, j % 16, j / 16, columns[j])
    {
      for x := 0 to 16
        invariant i == z * 16 + x
        invariant forall j :: 0 <= j < i ==> SampledColumn(chunk, world, j % 16, j / 16, columns[j])
      {
        CellIndex(x, z);
        columns[i] := BlockColumnFromChunk(chunk, world, x, z);
        i := i + 1;
      }
    }
    var cols := columns[..];
    forall x, z | 0 <= x < 16 && 0 <= z < 16
      ensures SampledColumn(chunk, world, x, z, ColumnAt(cols, x, z))
    {
      CellIndex(x, z);
    }
    tile := ChunkTile(level.dimension, ChunkPos(cx, cz), timestamp, DataVersion, dataHash(cols), cols);
  }

  /** Index z * 16 + x enumerates the cells of a chunk one to one. */
  lemma CellIndex(x: int, z: int)
    requires 0 <= x < 16 && 0 <= z < 16
    ensures 0 <= z * 16 + x < CellCount
    ensures (z * 16 + x) % 16 == x && (z * 16 + x) / 16 == z
  {
  }

  /** A state below a layer that the scan would stop at lies at or below the
      next layer of the walk. */
  lemma NextLayerIsFirstStop(chunk: LevelChunk, x: int, z: int, layers: seq<BlockInfo>, k: nat, y: int)
    requires WalkPrefix(chunk, x, z, layers) && 0 < k < |layers|
    requires y < layers[k - 1].y && !Skippable(chunk.blockState(x, y, z), layers[k - 1].state)
    ensures y <= layers[k].y
  {
    assert PassedOver(chunk, x, z, layers[k - 1], layers[k].y);
  }

  /** Two walks of the same cell agree at every index both have. */
  lemma {:induction false} WalksAgreeAt(
    chunk: LevelChunk, x: int, z: int, a: seq<BlockInfo>, b: seq<BlockInfo>, k: nat)
    requires WalkPrefix(chunk, x, z, a) && WalkPrefix(chunk, x, z, b)
    requires k < |a| && k < |b|
    ensures a[k] == b[k]
  {
    if k > 0 {
      WalksAgreeAt(chunk, x, z, a, b, k - 1);
      NextLayerIsFirstStop(chunk, x, z, a, k, b[k].y);
      NextLayerIsFirstStop(chunk, x, z, b, k, a[k].y);
    }
  }

  /** The walk of a cell is unique: the contract of BlockColumnFromChunk
      determines its layers completely. */
  lemma WalkUnique(chunk: LevelChunk, x: int, z: int, a: seq<BlockInfo>, b: seq<BlockInfo>)
    requires IsWalk(chunk, x, z, a) && IsWalk(chunk, x, z, b)
    ensures a == b
  {
    WalksAgreeAt(chunk, x, z, a, b, if |a| < |b| then |a| - 1 else |b| - 1);
    assert |a| == |b|;
    forall k | 0 <= k < |a| ensures a[k] == b[k] {
      WalksAgreeAt(chunk, x, z, a, b, k);
    }
  }

  /** The sample of a cell is unique, light and biome included; with
      ChunkTileFromLevel's contract this fixes every column of a tile. */
  lemma SampleUnique(chunk: LevelChunk, world: World, x: int, z: int, c: BlockColumn, d: BlockColumn)
    requires SampledColumn(chunk, world, x, z, c) && SampledColumn(chunk, world, x, z, d)
    ensures c == d
  {
    WalkUnique(chunk, x, z, c.layers, d.layers);
  }

  /** Every height from the surface down to the last layer lies within one
      step of the walk: at layer i, or strictly between layers i and i + 1. */
  lemma {:induction false} LocateHeight(chunk: LevelChunk, x: int, z: int, layers: seq<BlockInfo>, y: int, k: nat)
    returns (i: nat)
    requires WalkPrefix(chunk, x, z, layers)
    requires k < |layers| && layers[|layers| - 1].y <= y <= layers[k].y
    ensures k <= i < |layers|
    ensures y == layers[i].y || (i + 1 < |layers| && layers[i + 1].y < y < layers[i].y)
    decreases |layers| - k
  {
    if y != layers[k].y && k + 1 < |layers| && y <= layers[k + 1].y {
      i := LocateHeight(chunk, x, z, layers, y, k + 1);
    } else {
      i := k;
    }
  }

  /** A height above the last layer of a walk is not a floor. */
  lemma NoFloorAbove(chunk: LevelChunk, x: int, z: int, layers: seq<BlockInfo>, y: int)
    requires IsWalk(chunk, x, z, layers)
    requires layers[|layers| - 1].y < y <= layers[0].y
    ensures !FloorAt(chunk, x, z, y)
  {
    var i := LocateHeight(chunk, x, z, layers, y, 0);
    if y != layers[i].y {
      assert PassedOver(chunk, x, z, layers[i], layers[i + 1].y);
    }
  }

  /** The walk ends at the highest floor of the cell: its last layer is a
      floor, and no height above it is one. So every solid-blocking state
      above the last layer is air passed over by the scan. */
  lemma WalkEndsAtFirstFloor(chunk: LevelChunk, x: int, z: int, layers: seq<BlockInfo>)
    requires IsWalk(chunk, x, z, layers)
    ensures FloorAt(chunk, x, z, layers[|layers| - 1].y)
    ensures forall y :: FloorAt(chunk, x, z, y) ==> y <= layers[|layers| - 1].y
  {
    var n := |layers|;
    if n > 1 {
      assert !Skippable(layers[n - 1].state, layers[n - 2].state);
    }
    forall y | FloorAt(chunk, x, z, y) ensures y <= layers[n - 1].y {
      if y > layers[n - 1].y {
        NoFloorAbove(chunk, x, z, layers, y);
      }
    }
  }
}
