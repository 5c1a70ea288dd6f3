/** The older world store (src/world/world.rs): the same chunked tile lookup
    as the world crate's `Area`, except that the chunk key is computed with
    the truncating `/`, which disagrees with the offset arithmetic for
    negative positions. */
module LegacyWorld {
  import opened Common
  import opened Tiles
  import opened TileChunk
  import Area

  /** The chunk key as `get_tile` computes it: `p / CHUNK_SIZE` on each axis,
      truncating toward zero. */
  function TruncatingChunkPos(p: Point2): (key: (int, int))
    ensures p.x >= 0 ==> key.0 * CHUNK_SIZE <= p.x < key.0 * CHUNK_SIZE + CHUNK_SIZE
    ensures p.y >= 0 ==> key.1 * CHUNK_SIZE <= p.y < key.1 * CHUNK_SIZE + CHUNK_SIZE
  {
    (TruncDiv(p.x, CHUNK_SIZE), TruncDiv(p.y, CHUNK_SIZE))
  }

  /** For non-negative positions the truncating key and the offsets put the
      position back together, and agree with the world crate's key. */
  lemma TruncatingRoundTripNonNegative(p: Point2)
    requires p.x >= 0 && p.y >= 0
    ensures TruncatingChunkPos(p).0 * CHUNK_SIZE + Area.Offset(p.x) == p.x
    ensures TruncatingChunkPos(p).1 * CHUNK_SIZE + Area.Offset(p.y) == p.y
    ensures TruncatingChunkPos(p) == Area.ChunkPos(p)
  {
    Area.ChunkPosRoundTrip(p);
  }

  /** The discrepancy: position -1 gets key 0 but offset 15, so the round
      trip gives 15 instead of -1. */
  lemma TruncatingRoundTripFailsAtMinusOne()
    ensures TruncatingChunkPos(Point2(-1, 0)) == (0, 0)
    ensures Area.Offset(-1) == 15
    ensures TruncatingChunkPos(Point2(-1, 0)).0 * CHUNK_SIZE + Area.Offset(-1) != -1
    ensures Area.ChunkPos(Point2(-1, 0)) == (-1, 0)
  {
    Area.ChunkPosRoundTrip(Point2(-1, 0));
  }

  class World {
    /** The stored chunks by chunk key; the noise seed is not modelled. */
    var chunks: map<(int, int), Area.Cube>

    /** `World::new`: no chunks stored. */
    constructor ()
      ensures chunks == map[]
    {
      chunks := map[];
    }

    /** `World::get_tile`: the tile at `height` in the chunk under the
        truncating key, at the offsets of `p`, or `OutOfBounds` when no chunk
        is stored under that key. */
    function GetTile(p: Point2, height: nat): (r: Result<Tile>)
      reads this
      ensures TruncatingChunkPos(p) !in chunks ==> r == Ok(Tile(OutOfBounds))
      ensures TruncatingChunkPos(p) in chunks ==>
                r == Area.ReadTile(chunks[TruncatingChunkPos(p)], height, Area.Offset(p.x), Area.Offset(p.y))
    {
      var key := TruncatingChunkPos(p);
      if key in chunks then Area.ReadTile(chunks[key], height, Area.Offset(p.x), Area.Offset(p.y))
      else Ok(Tile(OutOfBounds))
    }

    /** `World::add_chunk`: stores `c` under `(x, z)`, replacing any chunk
        stored there and keeping every other key. */
    method AddChunk(x: int, z: int, c: Area.Cube)
      modifies this
      ensures chunks == old(chunks)[(x, z) := c]
      ensures forall k :: k != (x, z) ==> (k in chunks <==> k in old(chunks))
      ensures forall k :: k != (x, z) && k in old(chunks) ==> chunks[k] == old(chunks)[k]
    {
      chunks := chunks[(x, z) := c];
    }
  }

  /** As written, position `(-1, z)` reads the same tile as `(15, z)`: both
      go to chunk `(0, z / 16)` at offset 15, so the column west of the
      origin shows the far edge of chunk 0 instead of chunk -1. */
  lemma GetTileMinusOneReadsFifteen(world: World, z: int, height: nat)
    ensures world.GetTile(Point2(-1, z), height) == world.GetTile(Point2(15, z), height)
  {
  }

  /** A world with no chunks reads `OutOfBounds` everywhere, whatever the height. */
  lemma EmptyWorldOutOfBounds(world: World, p: Point2, height: nat)
    requires world.chunks == map[]
    ensures world.GetTile(p, height) == Ok(Tile(OutOfBounds))
  {
  }

  /** `get_glyph` of src/world/world.rs: air is blank, a wall is character
      177, outside the world is `'?'`. */
  function GetGlyph(t: TileType): (c: char)
    ensures c == Tiles.GetGlyph(t)
  {
    match t
    case Air => ' '
    case Wall => 177 as char
    case OutOfBounds => '?'
  }
}
