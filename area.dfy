/** The chunked tile store of the world crate (world/src/area.rs): an absolute
    horizontal position is split into the key of its chunk and the offset
    inside it, and the tile is read from the chunk stored under that key. */
module Area {
  import opened Common
  import opened Tiles
  import opened TileChunk

  /** `LOG2_OF_CHUNK_SIZE`. */
  const LOG2_OF_CHUNK_SIZE: nat := 4

  /** A chunk as the world crate stores it: a full 16 x 16 x 16 cube. */
  type Cube = c: Chunk | IsCube(c.tiles)
    witness Chunk(Array16x16x16((x: nat, y: nat, z: nat) => Tile(Air)))

  /** `v >> LOG2_OF_CHUNK_SIZE` on a signed integer: an arithmetic shift,
      which rounds toward negative infinity. */
  function ShiftRight(v: int, n: nat): int
  {
    if n == 0 then v else ShiftRight(v, n - 1) / 2
  }

  /** The shift by 4 is floor division by 16, also for negative values. */
  lemma ShiftRightIsFloorDiv(v: int)
    ensures ShiftRight(v, LOG2_OF_CHUNK_SIZE) * CHUNK_SIZE <= v < ShiftRight(v, LOG2_OF_CHUNK_SIZE) * CHUNK_SIZE + CHUNK_SIZE
  {
    var a, b, c := ShiftRight(v, 1), ShiftRight(v, 2), ShiftRight(v, 3);
    assert a == ShiftRight(v, 0) / 2 == v / 2;
    assert 2 * a <= v < 2 * a + 2;
    assert 4 * b <= v < 4 * b + 4;
    assert 8 * c <= v < 8 * c + 8;
  }

  /** `abs_pos_to_chunk_pos`: the key of the chunk holding `p`. */
  function ChunkPos(p: Point2): (key: (int, int))
    ensures key.0 * CHUNK_SIZE <= p.x < key.0 * CHUNK_SIZE + CHUNK_SIZE
    ensures key.1 * CHUNK_SIZE <= p.y < key.1 * CHUNK_SIZE + CHUNK_SIZE
  {
    ShiftRightIsFloorDiv(p.x);
    ShiftRightIsFloorDiv(p.y);
    (ShiftRight(p.x, LOG2_OF_CHUNK_SIZE), ShiftRight(p.y, LOG2_OF_CHUNK_SIZE))
  }

  /** `((v % CHUNK_SIZE + CHUNK_SIZE) % CHUNK_SIZE) as usize` with the
      source's truncating remainder: the offset inside the chunk. */
  function Offset(v: int): (o: nat)
    ensures o < CHUNK_SIZE
    ensures o == v % CHUNK_SIZE
  {
    TruncRem(TruncRem(v, CHUNK_SIZE) + CHUNK_SIZE, CHUNK_SIZE)
  }

  /** The key and the offsets put the position back together, for every
      position, negative ones included. */
  lemma ChunkPosRoundTrip(p: Point2)
    ensures ChunkPos(p).0 * CHUNK_SIZE + Offset(p.x) == p.x
    ensures ChunkPos(p).1 * CHUNK_SIZE + Offset(p.y) == p.y
  {
    var key := ChunkPos(p);
    assert key.0 == p.x / CHUNK_SIZE;
    assert key.1 == p.y / CHUNK_SIZE;
  }

  /** The tile at `height` and local offsets `tx`, `tz` of a chunk, read as
      `tiles[height][tx][tz]`; a height outside the chunk panics. */
  function ReadTile(c: Cube, height: nat, tx: nat, tz: nat): (r: Result<Tile>)
    requires tx < CHUNK_SIZE && tz < CHUNK_SIZE
    ensures r.Ok? <==> height < CHUNK_SIZE
  {
    if height < CHUNK_SIZE then Ok(c.tiles[height][tx][tz]) else Panicked
  }

  class Area {
    /** The stored chunks by chunk key. */
    var chunks: map<(int, int), Cube>

    /** `Area::get_tile`: the tile at horizontal position `p` and `height`
        in the chunk holding `p`, or `OutOfBounds` when no chunk is stored
        there. */
    function GetTile(p: Point2, height: nat): (r: Result<Tile>)
      reads this
      ensures ChunkPos(p) !in chunks ==> r == Ok(Tile(OutOfBounds))
      ensures ChunkPos(p) in chunks ==> r == ReadTile(chunks[ChunkPos(p)], height, Offset(p.x), Offset(p.y))
    {
      var key := ChunkPos(p);
      if key in chunks then ReadTile(chunks[key], height, Offset(p.x), Offset(p.y))
      else Ok(Tile(OutOfBounds))
    }

    /** `Area::add_chunk`: stores `c` under `(x, z)`, replacing any chunk
        stored there; positions in that chunk now read from `c`, and every
        other position reads as before. */
    method AddChunk(x: int, z: int, c: Cube)
      modifies this
      ensures chunks == old(chunks)[(x, z) := c]
      ensures forall p: Point2, height: nat {:trigger GetTile(p, height)} :: ChunkPos(p) == (x, z) ==>
                GetTile(p, height) == ReadTile(c, height, Offset(p.x), Offset(p.y))
      ensures forall p: Point2, height: nat {:trigger GetTile(p, height)} :: ChunkPos(p) != (x, z) ==>
                GetTile(p, height) == old(GetTile(p, height))
    {
      chunks := chunks[(x, z) := c];
    }
  }

  /** A missing chunk reads as `OutOfBounds` at every height, the heights
      beyond the chunk included; a stored chunk panics exactly at those. */
  lemma GetTileOutcomes(area: Area, p: Point2, height: nat)
    ensures ChunkPos(p) !in area.chunks ==> area.GetTile(p, height) == Ok(Tile(OutOfBounds))
    ensures ChunkPos(p) in area.chunks ==> (area.GetTile(p, height).Panicked? <==> height >= CHUNK_SIZE)
  {
  }

  /** Reading a generated chunk: since the lookup indexes `[height][tx][tz]`
      while the chunk is laid out `[y][z][x]`, the tile read at offsets
      `(tx, tz)` is the one generated from the height map entry `[tz][tx]`. */
  lemma GetTileOfGenerated(area: Area, heightMap: seq<seq<real>>, p: Point2, height: nat)
    requires IsSquare(heightMap)
    requires ChunkPos(p) in area.chunks && area.chunks[ChunkPos(p)] == Generate(heightMap)
    requires height < CHUNK_SIZE
    ensures area.GetTile(p, height).Ok?
    ensures area.GetTile(p, height).value.tileType == Air <==>
              ColumnHeight(heightMap[Offset(p.y)][Offset(p.x)]) < height
  {
  }
}
