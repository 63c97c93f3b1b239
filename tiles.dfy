/** Value types shared by the chunk sampler and the render queue: a chunk tile
    and the columns and layers it is made of. */
module Tiles {

  /** Chunk coordinates (one chunk is 16 x 16 blocks). */
  datatype ChunkPos = ChunkPos(x: int, z: int)

  /** A world dimension key (overworld, nether, ...). The game interns these
      keys and the source compares them by reference, so equality of keys
      stands for that here. */
  datatype Dimension = Dimension(key: string)

  /** A biome, opaque to the core. */
  datatype Biome = Biome(id: int)

  /** A block state. Block states are canonical objects in the game, so the
      source's reference comparison is equality here; the walk reads only the
      two material flags. */
  datatype BlockState = BlockState(id: int, isAir: bool, isSolidBlocking: bool)

  /** One layer of a column: a height and the block state found there. */
  datatype BlockInfo = BlockInfo(y: int, state: BlockState)

  /** One sampled (x, z) cell of a chunk: biome, block light and the layers
      from the surface downward. */
  datatype BlockColumn = BlockColumn(biome: Biome, light: int, layers: seq<BlockInfo>)

  /** A chunk's map content at one producer timestamp. */
  datatype ChunkTile = ChunkTile(
    dimension: Dimension,
    chunkPos: ChunkPos,
    timestamp: int,
    dataVersion: int,
    dataHash: string,
    columns: seq<BlockColumn>)
}
