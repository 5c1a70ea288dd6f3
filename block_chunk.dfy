/** The earliest chunk type (src/chunk.rs): a 16 x 16 x 16 block of numeric
    block states, 1 for a filled block and 0 for an empty one, filled from a
    height map the same way as the tile chunks. */
module BlockChunk {
  import TileChunk

  /** A `u16` value. */
  type U16 = x: int | 0 <= x < 0x1_0000

  /** `SIZE`: 16 blocks on a side. */
  const SIZE: nat := 16

  datatype BlockState = BlockState(value: U16)

  /** `EMPTY_BLOCK`. */
  const EMPTY_BLOCK: BlockState := BlockState(0)

  datatype Chunk = Chunk(blocks: seq<seq<seq<BlockState>>>)

  /** `EMPTY_CHUNK`: every block is `EMPTY_BLOCK`. */
  function EmptyChunk(): (c: Chunk)
    ensures TileChunk.IsCube(c.blocks)
    ensures forall y, z, x :: 0 <= y < SIZE && 0 <= z < SIZE && 0 <= x < SIZE ==> c.blocks[y][z][x].value == 0
  {
    Chunk(TileChunk.Array16x16x16((x: nat, y: nat, z: nat) => EMPTY_BLOCK))
  }

  /** `Chunk::generate`: the block at `(x, y, z)` has value 0 above the
      column's height and 1 at or below it; `heightMap` is indexed `[x][z]`. */
  function Generate(heightMap: seq<seq<real>>): (c: Chunk)
    requires TileChunk.IsSquare(heightMap)
    ensures TileChunk.IsCube(c.blocks)
    ensures forall x, y, z :: 0 <= x < SIZE && 0 <= y < SIZE && 0 <= z < SIZE ==>
              (c.blocks[y][z][x].value == 0 <==> TileChunk.ColumnHeight(heightMap[x][z]) < y)
  {
    Chunk(TileChunk.Array16x16x16((x: nat, y: nat, z: nat) =>
      var height := if x < SIZE && z < SIZE then TileChunk.ColumnHeight(heightMap[x][z]) else 0;
      BlockState(if height < y then 0 else 1)))
  }

  /** The glyph `render` draws for a block value. */
  function Glyph(value: U16): char
  {
    match value
    case 0 => ' '
    case 1 => 'W'
    case _ => '?'
  }

  /** Generated values are 0 or 1; they are monotone up a column; the bottom
      layer is always 1. */
  lemma GenerateValues(heightMap: seq<seq<real>>, x: nat, y: nat, y': nat, z: nat)
    requires TileChunk.IsSquare(heightMap)
    requires x < SIZE && y <= y' < SIZE && z < SIZE
    ensures Generate(heightMap).blocks[y][z][x].value in {0, 1}
    ensures Generate(heightMap).blocks[y][z][x].value == 0 ==> Generate(heightMap).blocks[y'][z][x].value == 0
    ensures Generate(heightMap).blocks[0][z][x].value == 1
  {
  }

  /** `render` never draws `'?'` for a generated chunk, and draws a blank
      exactly where the block is above its column's height. */
  lemma RenderGeneratedNeverUnknown(heightMap: seq<seq<real>>, x: nat, y: nat, z: nat)
    requires TileChunk.IsSquare(heightMap)
    requires x < SIZE && y < SIZE && z < SIZE
    ensures Glyph(Generate(heightMap).blocks[y][z][x].value) != '?'
    ensures Glyph(Generate(heightMap).blocks[y][z][x].value) == ' ' <==> TileChunk.ColumnHeight(heightMap[x][z]) < y
  {
    GenerateValues(heightMap, x, y, y, z);
  }

  /** The empty chunk renders as blanks everywhere. */
  lemma RenderEmptyChunk(x: nat, y: nat, z: nat)
    requires x < SIZE && y < SIZE && z < SIZE
    ensures Glyph(EmptyChunk().blocks[y][z][x].value) == ' '
  {
  }
}
