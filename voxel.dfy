/** The voxel value stored in every cell of the terrain and its three
    classification predicates (crates/common/src/terrain.rs; the same five
    variants are declared as `CubeVoxel` in src/noise.rs). */
module Voxel {

  datatype CubeVoxel = Air | Stone | Grass | Gold | Water

  /** Whether a physics body may collide with the voxel. */
  predicate Collidable(v: CubeVoxel)
  {
    match v
    case Air | Water => false
    case Stone | Grass | Gold => true
  }

  /** Whether the mesher treats the voxel as hiding what lies behind it. */
  predicate IsOpaque(v: CubeVoxel)
  {
    match v
    case Air | Water => false
    case Stone | Grass | Gold => true
  }

  /** Whether the voxel is the empty (ambient) value, which never emits faces. */
  predicate IsEmpty(v: CubeVoxel)
  {
    match v
    case Air => true
    case Stone | Grass | Gold | Water => false
  }

  /** The value the greedy mesher compares when deciding whether two faces merge. */
  function VoxelMergeValue(v: CubeVoxel): (m: CubeVoxel)
    ensures m == v
  {
    v
  }

  /** `is_empty` holds of `Air` and of nothing else. */
  lemma EmptyIffAir(v: CubeVoxel)
    ensures IsEmpty(v) <==> v == Air
  {
    match v
    case Air =>
    case Stone =>
    case Grass =>
    case Gold =>
    case Water =>
  }

  /** `is_opaque` is false exactly for `Air` and `Water`. */
  lemma OpaqueIffSolidMaterial(v: CubeVoxel)
    ensures !IsOpaque(v) <==> (v == Air || v == Water)
  {
    match v
    case Air =>
    case Stone =>
    case Grass =>
    case Gold =>
    case Water =>
  }

  /** `collidable` is false exactly for `Air` and `Water`, so the two tables agree. */
  lemma CollidableIffOpaque(v: CubeVoxel)
    ensures !Collidable(v) <==> (v == Air || v == Water)
    ensures Collidable(v) == IsOpaque(v)
  {
    match v
    case Air =>
    case Stone =>
    case Grass =>
    case Gold =>
    case Water =>
  }

  /** An empty voxel is neither opaque nor collidable; `Water` is the one
      voxel that is neither empty nor opaque. */
  lemma EmptyIsTransparent(v: CubeVoxel)
    ensures IsEmpty(v) ==> !IsOpaque(v) && !Collidable(v)
    ensures !IsEmpty(v) && !IsOpaque(v) <==> v == Water
  {
    match v
    case Air =>
    case Stone =>
    case Grass =>
    case Gold =>
    case Water =>
  }
}
