/** Chunks of the older, two-dimensional world: a 16 x 16 x 16 block of
    tiles filled from a 16 x 16 height map (world/src/chunk.rs; the copy in
    src/world/chunk.rs differs only in taking `f32` heights, and both are
    modelled by this module). Floats are modelled as exact reals. */
module TileChunk {
  import opened Tiles

  /** `CHUNK_SIZE` of the world crate: chunks are 16 tiles on a side. */
  const CHUNK_SIZE: nat := 16

  /** A cube of values nested `[y][z][x]`, each axis `CHUNK_SIZE` long. */
  predicate IsCube<T>(a: seq<seq<seq<T>>>)
  {
    && |a| == CHUNK_SIZE
    && (forall y :: 0 <= y < CHUNK_SIZE ==> |a[y]| == CHUNK_SIZE)
    && (forall y, z :: 0 <= y < CHUNK_SIZE && 0 <= z < CHUNK_SIZE ==> |a[y][z]| == CHUNK_SIZE)
  }

  /** A square of values nested `[x][z]`, each axis `CHUNK_SIZE` long. */
  predicate IsSquare<T>(a: seq<seq<T>>)
  {
    |a| == CHUNK_SIZE && forall x :: 0 <= x < CHUNK_SIZE ==> |a[x]| == CHUNK_SIZE
  }

  /** `array_16x16x16`: the outermost index is `y`, then `z`, then `x`, and
      the cell at `[y][z][x]` holds `f(x, y, z)`. */
  function Array16x16x16<T>(f: (nat, nat, nat) -> T): (a: seq<seq<seq<T>>>)
    ensures IsCube(a)
    ensures forall x, y, z :: 0 <= x < CHUNK_SIZE && 0 <= y < CHUNK_SIZE && 0 <= z < CHUNK_SIZE ==>
              a[y][z][x] == f(x, y, z)
  {
    seq(CHUNK_SIZE, y requires 0 <= y =>
      seq(CHUNK_SIZE, z requires 0 <= z =>
        seq(CHUNK_SIZE, x requires 0 <= x => f(x, y, z))))
  }

  /** `(h * CHUNK_SIZE as f64) as usize`: the column height in tiles. The
      cast truncates toward zero and saturates negative values at 0. */
  function ColumnHeight(h: real): (n: nat)
    ensures h * CHUNK_SIZE as real >= 0.0 ==> n as real <= h * CHUNK_SIZE as real < n as real + 1.0
    ensures h * CHUNK_SIZE as real < 1.0 ==> n == 0
  {
    var scaled := h * CHUNK_SIZE as real;
    if scaled <= 0.0 then 0 else scaled.Floor
  }

  /** The tile type at height `y` of a column of height `height`. */
  function ColumnTile(height: nat, y: nat): TileType
  {
    if height < y then Air else Wall
  }

  datatype Chunk = Chunk(tiles: seq<seq<seq<Tile>>>)

  /** `Chunk::generate`: the tile at `(x, y, z)` is air above the column's
      height and wall at or below it; `heightMap` is indexed `[x][z]`. */
  function Generate(heightMap: seq<seq<real>>): (c: Chunk)
    requires IsSquare(heightMap)
    ensures IsCube(c.tiles)
    ensures forall x, y, z :: 0 <= x < CHUNK_SIZE && 0 <= y < CHUNK_SIZE && 0 <= z < CHUNK_SIZE ==>
              (c.tiles[y][z][x].tileType == Air <==> ColumnHeight(heightMap[x][z]) < y)
  {
    Chunk(Array16x16x16((x: nat, y: nat, z: nat) =>
      Tile(if x < CHUNK_SIZE && z < CHUNK_SIZE then ColumnTile(ColumnHeight(heightMap[x][z]), y) else Wall)))
  }

  /** A generated chunk holds only air and walls, never `OutOfBounds`. */
  lemma GenerateOnlyAirAndWall(heightMap: seq<seq<real>>, x: nat, y: nat, z: nat)
    requires IsSquare(heightMap)
    requires x < CHUNK_SIZE && y < CHUNK_SIZE && z < CHUNK_SIZE
    ensures Generate(heightMap).tiles[y][z][x].tileType != OutOfBounds
    ensures Generate(heightMap).tiles[y][z][x].tileType == Wall <==> y <= ColumnHeight(heightMap[x][z])
  {
  }

  /** Columns are monotone: above an air tile there is only air. */
  lemma GenerateColumnsMonotone(heightMap: seq<seq<real>>, x: nat, y: nat, y': nat, z: nat)
    requires IsSquare(heightMap)
    requires x < CHUNK_SIZE && y <= y' < CHUNK_SIZE && z < CHUNK_SIZE
    requires Generate(heightMap).tiles[y][z][x].tileType == Air
    ensures Generate(heightMap).tiles[y'][z][x].tileType == Air
  {
  }

  /** The bottom layer is all wall, since a column height is never negative;
      and a column whose height map value is below one sixteenth has a wall
      at the bottom and air everywhere above it. */
  lemma GenerateBottomIsWall(heightMap: seq<seq<real>>, x: nat, z: nat)
    requires IsSquare(heightMap)
    requires x < CHUNK_SIZE && z < CHUNK_SIZE
    ensures Generate(heightMap).tiles[0][z][x].tileType == Wall
    ensures heightMap[x][z] * CHUNK_SIZE as real < 1.0 ==>
              forall y :: 0 < y < CHUNK_SIZE ==> Generate(heightMap).tiles[y][z][x].tileType == Air
  {
  }
}
