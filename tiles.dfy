/** The tile types of the older, two-dimensional world (world/src/terrain.rs):
    which are solid, and the glyph each is drawn with on the rendered level
    and one level below it. */
module Tiles {

  datatype TileType = Air | OutOfBounds | Wall

  /** A tile of a chunk: only its type. */
  datatype Tile = Tile(tileType: TileType)

  /** The glyph `177u8 as char`. */
  const WALL_GLYPH: char := 177 as char

  /** `TileType::is_solid`: only walls are solid. */
  predicate IsSolid(t: TileType)
  {
    match t
    case Wall => true
    case _ => false
  }

  /** `TileType::get_glyph`: the glyph on the rendered level. */
  function GetGlyph(t: TileType): char
  {
    match t
    case Air => ' '
    case OutOfBounds => '?'
    case Wall => WALL_GLYPH
  }

  /** `TileType::get_lower_glyph`: the glyph of a tile one level lower than
      the rendered level. */
  function GetLowerGlyph(t: TileType): char
  {
    match t
    case Air => ' '
    case OutOfBounds => '?'
    case Wall => '.'
  }

  /** `Tile::new`: a tile of the given type. */
  function NewTile(t: TileType): (r: Tile)
    ensures r.tileType == t
  {
    Tile(t)
  }

  /** `is_solid` holds of `Wall` and of nothing else. */
  lemma SolidIffWall(t: TileType)
    ensures IsSolid(t) <==> t == Wall
  {
    match t
    case Air =>
    case OutOfBounds =>
    case Wall =>
  }

  /** The glyph table: a blank for air, a question mark outside the world,
      character 177 for a wall; and no two tile types share a glyph. */
  lemma GlyphTable(t: TileType, u: TileType)
    ensures GetGlyph(Air) == ' ' && GetGlyph(OutOfBounds) == '?' && GetGlyph(Wall) == 177 as char
    ensures GetGlyph(t) == GetGlyph(u) ==> t == u
  {
  }

  /** The lower-level table: walls below show as `'.'`, so that glyphs of
      the two levels can be told apart, and again no two types share one. */
  lemma LowerGlyphTable(t: TileType, u: TileType)
    ensures GetLowerGlyph(Air) == ' ' && GetLowerGlyph(OutOfBounds) == '?' && GetLowerGlyph(Wall) == '.'
    ensures GetLowerGlyph(t) == GetLowerGlyph(u) ==> t == u
  {
  }

  /** The two glyph functions agree exactly on the tiles that are not solid. */
  lemma GlyphsAgreeOffWalls(t: TileType)
    ensures GetGlyph(t) == GetLowerGlyph(t) <==> !IsSolid(t)
  {
    match t
    case Air =>
    case OutOfBounds =>
    case Wall =>
  }
}
