/** Chunked voxel storage and mesh-cache bookkeeping of the game's terrain
    plugin (src/terrain.rs). The chunk map is a map from chunk key to the
    chunk's voxels, read with ambient `Air`; greedy meshing is foreign and
    its output is an input list of quad groups; entities and asset handles
    are opaque tokens. */
module Terrain {
  import opened Common
  import opened Voxel
  import Strata

  /** The side of a cubic chunk of the terrain's chunk map. */
  const CHUNK_SIZE: int := 256

  /** The minimum point of the chunk holding `p`, which the chunk map uses
      as the chunk's key (floor division, also for negative coordinates). */
  function ChunkKeyOf(p: Point3): (k: Point3)
    ensures k.x <= p.x < k.x + CHUNK_SIZE && k.y <= p.y < k.y + CHUNK_SIZE && k.z <= p.z < k.z + CHUNK_SIZE
    ensures k.x % CHUNK_SIZE == 0 && k.y % CHUNK_SIZE == 0 && k.z % CHUNK_SIZE == 0
  {
    Point3(p.x / CHUNK_SIZE * CHUNK_SIZE, p.y / CHUNK_SIZE * CHUNK_SIZE, p.z / CHUNK_SIZE * CHUNK_SIZE)
  }

  /** A chunk map: the stored chunks by key, each giving the voxel of every
      absolute point it covers. */
  datatype ChunkMap = ChunkMap(chunks: map<Point3, Point3 -> CubeVoxel>)
  {
    /** The voxel at `p`; a point of a chunk that is not stored reads as the
        ambient value `Air`. */
    function Get(p: Point3): CubeVoxel
    {
      if ChunkKeyOf(p) in chunks then chunks[ChunkKeyOf(p)](p) else Air
    }
  }

  /** `ChunkMap::new(.., CubeVoxel::Air, ..)`: no chunks stored. */
  function EmptyChunkMap(): (m: ChunkMap)
    ensures m.chunks == map[]
  {
    ChunkMap(map[])
  }

  /** An empty chunk map reads `Air` everywhere. */
  lemma EmptyChunkMapIsAir(p: Point3)
    ensures EmptyChunkMap().Get(p) == Air
  {
  }

  /** The generated region: its side, its height (512 layers below sea
      level and 256 above), its minimum corner and its shape, and the sea
      level passed to `generate_map`. */
  const REGION_SIZE: int := 512
  const REGION_HEIGHT: int := 768
  const REGION_MIN_3D: Point3 := Point3(-(REGION_SIZE / 2), -512, -(REGION_SIZE / 2))
  const REGION_SHAPE_3D: Point3 := Point3(REGION_SIZE, REGION_HEIGHT, REGION_SIZE)
  const SEA_LEVEL: int := 0

  /** The region that `generate_voxels` asks `generate_map` for meets the
      conditions under which `generate_map` returns a map, as soon as both
      noise functions stay in `[-1, 1]` over its columns. */
  lemma RegionGeneratesMap(elevation: (int, int) -> real, thickness: (int, int) -> real)
    requires Strata.ColumnsInRange(elevation, REGION_MIN_3D, REGION_SIZE, REGION_SIZE)
    requires Strata.ColumnsInRange(thickness, REGION_MIN_3D, REGION_SIZE, REGION_SIZE)
    ensures REGION_SHAPE_3D.x >= 0 && REGION_SHAPE_3D.y >= 0 && REGION_SHAPE_3D.z >= 0
    ensures Strata.GeneratesMap(elevation, thickness, SEA_LEVEL, REGION_MIN_3D, REGION_SHAPE_3D)
  {
  }

  /** The side of the gold search box. */
  const SEARCH_SIZE: int := 10

  /** The search box of `find_nearest_gold` around `(x, y, z)`: shape 10 in
      each axis, minimum 5 below the centre in each axis. */
  predicate InSearchBox(x: int, y: int, z: int, p: Point3)
  {
    && x - SEARCH_SIZE / 2 <= p.x < x - SEARCH_SIZE / 2 + SEARCH_SIZE
    && y - SEARCH_SIZE / 2 <= p.y < y - SEARCH_SIZE / 2 + SEARCH_SIZE
    && z - SEARCH_SIZE / 2 <= p.z < z - SEARCH_SIZE / 2 + SEARCH_SIZE
  }

  /** An opaque entity spawned for a mesh, and the handle of its mesh asset. */
  datatype MeshEntity = MeshEntity(entity: nat, handle: nat)

  /** A material key of the mesher. */
  type Material = CubeVoxel

  /** A quad of the greedy mesher; its geometry is not modelled. */
  datatype Quad = Quad(minimum: Point3, width: nat, height: nat)

  /** A face orientation of a quad group. */
  datatype Face = Face(normal: Point3)

  /** One group of the mesher's output: quads facing the same way, each
      with its material. */
  datatype QuadGroup = QuadGroup(face: Face, quads: seq<(Quad, Material)>)

  /** A position-normal mesh, as the sequence of quads added to it in order
      (each adds four vertices and six indices). */
  datatype PosNormMesh = PosNormMesh(quads: seq<(Face, Quad)>)
  {
    /** `is_empty`: no vertices, that is, no quad added. */
    predicate IsEmpty()
    {
      quads == []
    }
  }

  /** The first `n` quads of group `g` as (face, quad, material) entries. */
  function Entries(g: QuadGroup, n: nat): (r: seq<(Face, Quad, Material)>)
    requires n <= |g.quads|
    ensures |r| == n
  {
    seq(n, i requires 0 <= i < n => (g.face, g.quads[i].0, g.quads[i].1))
  }

  /** The mesher's output as one list of (face, quad, material) entries,
      group by group. */
  function Flatten(groups: seq<QuadGroup>): (r: seq<(Face, Quad, Material)>)
    ensures |groups| == 0 ==> r == []
  {
    if groups == [] then []
    else
      var g := groups[0];
      Entries(g, |g.quads|) + Flatten(groups[1..])
  }

  /** The quads of `entries` with material `m`, in order. */
  function QuadsOf(entries: seq<(Face, Quad, Material)>, m: Material): seq<(Face, Quad)>
  {
    if entries == [] then []
    else
      var rest := QuadsOf(entries[..|entries| - 1], m);
      var e := entries[|entries| - 1];
      if e.2 == m then rest + [(e.0, e.1)] else rest
  }

  /** The materials that occur in `entries`. */
  function Materials(entries: seq<(Face, Quad, Material)>): set<Material>
  {
    set i | 0 <= i < |entries| :: entries[i].2
  }

  /** A material occurs in the entries exactly when it has at least one quad. */
  lemma {:induction false} QuadsOfNonEmpty(entries: seq<(Face, Quad, Material)>, m: Material)
    ensures QuadsOf(entries, m) != [] <==> m in Materials(entries)
  {
    if entries != [] {
      var init := entries[..|entries| - 1];
      QuadsOfNonEmpty(init, m);
      assert Materials(entries) == Materials(init) + {entries[|entries| - 1].2} by {
        forall v | v in Materials(entries) ensures v in Materials(init) + {entries[|entries| - 1].2} {
          var i :| 0 <= i < |entries| && entries[i].2 == v;
          if i < |entries| - 1 {
            assert init[i] == entries[i];
          }
        }
        forall v | v in Materials(init) ensures v in Materials(entries) {
          var i :| 0 <= i < |init| && init[i].2 == v;
          assert entries[i] == init[i];
        }
      }
    }
  }

  /** `meshes` holds, for each material of `done`, exactly its quads in order. */
  predicate Grouped(meshes: map<Material, PosNormMesh>, done: seq<(Face, Quad, Material)>)
  {
    && meshes.Keys == Materials(done)
    && forall m :: m in meshes ==> meshes[m].quads == QuadsOf(done, m)
  }

  /** Adding one quad to the mesh of its material, creating the mesh on
      first use, keeps the grouping exact. */
  lemma GroupedSnoc(meshes: map<Material, PosNormMesh>, done: seq<(Face, Quad, Material)>, e: (Face, Quad, Material))
    requires Grouped(meshes, done)
    ensures var mesh := if e.2 in meshes then meshes[e.2] else PosNormMesh([]);
            Grouped(meshes[e.2 := PosNormMesh(mesh.quads + [(e.0, e.1)])], done + [e])
  {
    AppendEntry(done, e);
    QuadsOfNonEmpty(done, e.2);
  }

  /** The inner loop of the grouping: the quads of one group, in order. */
  method AddGroup(meshes: map<Material, PosNormMesh>, ghost done: seq<(Face, Quad, Material)>, group: QuadGroup)
    returns (meshes': map<Material, PosNormMesh>)
    requires Grouped(meshes, done)
    ensures Grouped(meshes', done + Entries(group, |group.quads|))
  {
    meshes' := meshes;
    var qi := 0;
    assert done + Entries(group, 0) == done;
    while qi < |group.quads|
      invariant 0 <= qi <= |group.quads|
      invariant Grouped(meshes', done + Entries(group, qi))
    {
      var (quad, material) := group.quads[qi];
      var mesh := if material in meshes' then meshes'[material] else PosNormMesh([]);
      GroupedSnoc(meshes', done + Entries(group, qi), (group.face, quad, material));
      meshes' := meshes'[material := PosNormMesh(mesh.quads + [(group.face, quad)])];
      assert done + Entries(group, qi + 1) == done + Entries(group, qi) + [(group.face, quad, material)];
      qi := qi + 1;
    }
  }

  /** The grouping loop of `generate_mesh`: every quad, in order, is added
      to the mesh of its material, the mesh being created on first use. */
  method GroupByMaterial(groups: seq<QuadGroup>) returns (meshes: map<Material, PosNormMesh>)
    ensures meshes.Keys == Materials(Flatten(groups))
    ensures forall m :: m in meshes ==> meshes[m].quads == QuadsOf(Flatten(groups), m)
  {
    meshes := map[];
    var gi := 0;
    while gi < |groups|
      invariant 0 <= gi <= |groups|
      invariant Grouped(meshes, Flatten(groups[..gi]))
    {
      meshes := AddGroup(meshes, Flatten(groups[..gi]), groups[gi]);
      FlattenSnoc(groups, gi);
      gi := gi + 1;
    }
    assert groups[..gi] == groups;
  }

  /** Appending one entry adds its material and extends that material's quads only. */
  lemma AppendEntry(done: seq<(Face, Quad, Material)>, e: (Face, Quad, Material))
    ensures Materials(done + [e]) == Materials(done) + {e.2}
    ensures QuadsOf(done + [e], e.2) == QuadsOf(done, e.2) + [(e.0, e.1)]
    ensures forall m :: m != e.2 ==> QuadsOf(done + [e], m) == QuadsOf(done, m)
  {
    var s := done + [e];
    assert s[..|s| - 1] == done;
    assert s[|done|] == e;
    forall v | v in Materials(s) ensures v in Materials(done) + {e.2} {
      var i :| 0 <= i < |s| && s[i].2 == v;
      if i < |done| {
        assert done[i] == s[i];
      }
    }
    forall v | v in Materials(done) ensures v in Materials(s) {
      var i :| 0 <= i < |done| && done[i].2 == v;
      assert s[i] == done[i];
    }
  }

  /** `Flatten` over one more group. */
  lemma {:induction false} FlattenSnoc(groups: seq<QuadGroup>, n: int)
    requires 0 <= n < |groups|
    ensures Flatten(groups[..n + 1]) == Flatten(groups[..n]) + Entries(groups[n], |groups[n].quads|)
    decreases n
  {
    if n == 0 {
      assert groups[..1][1..] == [];
      assert groups[..0] == [];
    } else {
      var tail := groups[1..];
      assert groups[..n + 1] == [groups[0]] + tail[..n];
      assert groups[..n] == [groups[0]] + tail[..n - 1];
      assert groups[..n + 1][1..] == tail[..n];
      assert groups[..n][1..] == tail[..n - 1];
      FlattenSnoc(tail, n - 1);
    }
  }

  /** Every mesh built by the grouping loop has at least one quad. */
  lemma GroupedMeshesNonEmpty(groups: seq<QuadGroup>, meshes: map<Material, PosNormMesh>)
    requires meshes.Keys == Materials(Flatten(groups))
    requires forall m :: m in meshes ==> meshes[m].quads == QuadsOf(Flatten(groups), m)
    ensures forall m :: m in meshes ==> !meshes[m].IsEmpty()
  {
    forall m | m in meshes ensures !meshes[m].IsEmpty() {
      QuadsOfNonEmpty(Flatten(groups), m);
    }
  }

  /** The fold of `generate_mesh` over the per-material meshes, visited in
      the map's unspecified order: once the accumulator is true it stays
      true, otherwise it becomes whether the current mesh is empty. The
      result is whether SOME mesh is empty. */
  method SomeMeshEmpty(meshes: map<Material, PosNormMesh>) returns (acc: bool)
    ensures acc <==> exists m :: m in meshes && meshes[m].IsEmpty()
  {
    acc := false;
    var remaining := meshes.Keys;
    while remaining != {}
      invariant remaining <= meshes.Keys
      invariant acc <==> exists m :: m in meshes.Keys - remaining && meshes[m].IsEmpty()
      decreases |remaining|
    {
      var m :| m in remaining;
      acc := if acc then acc else meshes[m].IsEmpty();
      remaining := remaining - {m};
    }
  }

  /** `generate_mesh` after the foreign meshing step: group the quads by
      material, then return `None` when the fold finds an empty mesh. */
  method GenerateMesh(chunkKey: Point3, groups: seq<QuadGroup>)
    returns (key: Point3, r: Option<map<Material, PosNormMesh>>)
    ensures key == chunkKey
    ensures r.Some? && r.value.Keys == Materials(Flatten(groups))
    ensures forall m :: m in r.value ==> r.value[m].quads == QuadsOf(Flatten(groups), m)
  {
    var meshes := GroupByMaterial(groups);
    var allAreEmpty := SomeMeshEmpty(meshes);
    GroupedMeshesNonEmpty(groups, meshes);
    if allAreEmpty {
      return chunkKey, None;
    }
    return chunkKey, Some(meshes);
  }

  /** The fold that the comment of `generate_mesh` describes ("if all the
      meshes are empty"): true exactly when every per-material mesh is
      empty, and so also when there is no mesh at all. */
  method AllMeshesEmpty(meshes: map<Material, PosNormMesh>) returns (acc: bool)
    ensures acc <==> forall m :: m in meshes ==> meshes[m].IsEmpty()
  {
    acc := true;
    var remaining := meshes.Keys;
    while remaining != {}
      invariant remaining <= meshes.Keys
      invariant acc <==> forall m :: m in meshes.Keys - remaining ==> meshes[m].IsEmpty()
      decreases |remaining|
    {
      var m :| m in remaining;
      acc := acc && meshes[m].IsEmpty();
      remaining := remaining - {m};
    }
  }

  /** `generate_mesh` with the fold its comment intends: a chunk without
      quads (only air) gives `None`, any other chunk `Some` of its grouped
      meshes. */
  method GenerateMeshIntended(chunkKey: Point3, groups: seq<QuadGroup>)
    returns (key: Point3, r: Option<map<Material, PosNormMesh>>)
    ensures key == chunkKey
    ensures r.None? <==> Flatten(groups) == []
    ensures r.Some? ==> r.value.Keys == Materials(Flatten(groups))
    ensures r.Some? ==> forall m :: m in r.value ==> r.value[m].quads == QuadsOf(Flatten(groups), m)
  {
    var meshes := GroupByMaterial(groups);
    var allAreEmpty := AllMeshesEmpty(meshes);
    GroupedMeshesNonEmpty(groups, meshes);
    var quads := Flatten(groups);
    if quads != [] {
      assert quads[0].2 in Materials(quads);
    }
    if allAreEmpty {
      return chunkKey, None;
    }
    return chunkKey, Some(meshes);
  }

  /** A chunk with no quads (only air) yields `Some` of an empty map rather
      than `None`, because the fold looks for some empty mesh and there is
      none. */
  lemma NoQuadsGivesEmptyMap(groups: seq<QuadGroup>)
    requires forall i :: 0 <= i < |groups| ==> groups[i].quads == []
    ensures Materials(Flatten(groups)) == {}
  {
    FlattenOfEmptyGroups(groups);
  }

  lemma {:induction false} FlattenOfEmptyGroups(groups: seq<QuadGroup>)
    requires forall i :: 0 <= i < |groups| ==> groups[i].quads == []
    ensures Flatten(groups) == []
  {
    if groups != [] {
      FlattenOfEmptyGroups(groups[1..]);
    }
  }

  /** `flat_array_f32_to_points`: consecutive triples of the index array;
      `chunks(3)` leaves a short last chunk when the length is not a
      multiple of three, and indexing it panics. */
  function FlatArrayToPoints(a: seq<nat>): (r: Result<seq<(nat, nat, nat)>>)
    ensures r.Ok? <==> |a| % 3 == 0
    ensures r.Ok? ==> |r.value| == |a| / 3
    ensures r.Ok? ==> forall i :: 0 <= i < |r.value| ==> r.value[i] == (a[3 * i], a[3 * i + 1], a[3 * i + 2])
  {
    if |a| % 3 != 0 then Panicked
    else Ok(seq(|a| / 3, i requires 0 <= i < |a| / 3 => (a[3 * i], a[3 * i + 1], a[3 * i + 2])))
  }

  /** The flat layout of a list of triples. */
  function FlattenPoints(ps: seq<(nat, nat, nat)>): (a: seq<nat>)
    ensures |a| == 3 * |ps|
  {
    if ps == [] then [] else [ps[0].0, ps[0].1, ps[0].2] + FlattenPoints(ps[1..])
  }

  lemma {:induction false} FlattenPointsAt(ps: seq<(nat, nat, nat)>, i: int)
    requires 0 <= i < |ps|
    ensures FlattenPoints(ps)[3 * i] == ps[i].0
    ensures FlattenPoints(ps)[3 * i + 1] == ps[i].1
    ensures FlattenPoints(ps)[3 * i + 2] == ps[i].2
  {
    if i > 0 {
      FlattenPointsAt(ps[1..], i - 1);
    }
  }

  /** Splitting a flattened list of triples gives the triples back. */
  lemma PointsRoundTrip(ps: seq<(nat, nat, nat)>)
    ensures FlatArrayToPoints(FlattenPoints(ps)) == Ok(ps)
  {
    var r := FlatArrayToPoints(FlattenPoints(ps));
    assert r.Ok? && |r.value| == |ps|;
    forall i | 0 <= i < |ps| ensures r.value[i] == ps[i] {
      FlattenPointsAt(ps, i);
    }
    assert r.value == ps;
  }

  /** `TerrainResource`: the voxels of the world and whether they have
      been generated. */
  class TerrainResource {
    var chunks: ChunkMap
    var generatedVoxels: bool

    /** `TerrainResource::default`: no chunks, not generated. */
    constructor ()
      ensures chunks == EmptyChunkMap() && !generatedVoxels
    {
      chunks := EmptyChunkMap();
      generatedVoxels := false;
    }

    /** `find_nearest_gold`: visits every point of the search box once, in
        the order `order` of the chunk-map reader, and keeps the last point
        holding `Gold`. */
    method FindNearestGold(x: int, y: int, z: int, order: seq<Point3>) returns (r: Option<Point3>)
      requires forall i :: 0 <= i < |order| ==> InSearchBox(x, y, z, order[i])
      requires forall p :: InSearchBox(x, y, z, p) ==> p in order
      ensures r.None? <==> forall p :: InSearchBox(x, y, z, p) ==> chunks.Get(p) != Gold
      ensures r.Some? ==> InSearchBox(x, y, z, r.value) && chunks.Get(r.value) == Gold
      ensures r.Some? ==>
        exists i :: 0 <= i < |order| && order[i] == r.value && (forall j :: i < j < |order| ==> chunks.Get(order[j]) != Gold)
    {
      r := None;
      var t := 0;
      while t < |order|
        invariant 0 <= t <= |order|
        invariant r.None? <==> forall j :: 0 <= j < t ==> chunks.Get(order[j]) != Gold
        invariant r.Some? ==> chunks.Get(r.value) == Gold
        invariant r.Some? ==>
          exists i :: 0 <= i < t && order[i] == r.value && (forall j :: i < j < t ==> chunks.Get(order[j]) != Gold)
      {
        if chunks.Get(order[t]) == Gold {
          r := Some(order[t]);
        }
        t := t + 1;
      }
      if r.None? {
        forall p | InSearchBox(x, y, z, p) ensures chunks.Get(p) != Gold {
          var i :| 0 <= i < |order| && order[i] == p;
        }
      }
    }

    /** `generate_voxels`: once the flag is set, nothing happens; otherwise
        the generated region (built by the foreign noise, `generate_map` and
        the copy into the chunk map) replaces the chunks, and the flag is set. */
    method GenerateVoxels(generated: ChunkMap)
      modifies this
      ensures old(generatedVoxels) ==> chunks == old(chunks) && generatedVoxels
      ensures !old(generatedVoxels) ==> chunks == generated && generatedVoxels
    {
      if generatedVoxels {
        return;
      }
      chunks := generated;
      generatedVoxels := true;
    }
  }

  /** `MeshResource`: for each chunk key that has been meshed, the entities
      spawned for it, or `None` for a chunk without meshes. */
  class MeshResource {
    var meshes: map<Point3, Option<seq<MeshEntity>>>

    /** `MeshResource::default`: no chunk meshed. */
    constructor ()
      ensures meshes == map[]
    {
      meshes := map[];
    }

    /** The entities recorded for the chunk at `k`, if any. */
    function EntitiesAt(k: Point3): seq<MeshEntity>
      reads this
    {
      if k in meshes && meshes[k].Some? then meshes[k].value else []
    }
  }

  /** `reset_world`: the chunk map becomes empty; every key is removed from
      the mesh map in the map's unspecified order, and each entity recorded
      under it is despawned (its mesh asset removed with it); the world is
      marked as not generated. */
  method ResetWorld(terrain: TerrainResource, meshRes: MeshResource) returns (despawned: seq<MeshEntity>)
    modifies terrain, meshRes
    ensures terrain.chunks == EmptyChunkMap() && !terrain.generatedVoxels
    ensures meshRes.meshes == map[]
    ensures forall e :: e in despawned <==> exists k :: k in old(meshRes.meshes) && e in old(meshRes.EntitiesAt(k))
  {
    terrain.chunks := EmptyChunkMap();
    ghost var original := meshRes.meshes;
    var toRemove := meshRes.meshes.Keys;
    despawned := [];
    while toRemove != {}
      invariant terrain.chunks == EmptyChunkMap()
      invariant toRemove <= original.Keys
      invariant meshRes.meshes == map k | k in toRemove :: original[k]
      invariant forall e :: e in despawned <==>
        exists k :: k in original.Keys - toRemove && original[k].Some? && e in original[k].value
      decreases |toRemove|
    {
      var p :| p in toRemove;
      var removed := meshRes.meshes[p];
      meshRes.meshes := meshRes.meshes - {p};
      if removed.Some? {
        despawned := despawned + removed.value;
      }
      toRemove := toRemove - {p};
    }
    terrain.generatedVoxels := false;
  }

  /** The chunk keys that `generate_meshes` schedules: stored chunks with no
      entry in the mesh map. */
  function Unmeshed(chunks: ChunkMap, meshes: map<Point3, Option<seq<MeshEntity>>>): set<Point3>
  {
    set k | k in chunks.chunks && k !in meshes
  }

  /** What `generate_meshes` records for a chunk whose mesher output is
      `groups`: `Some` of one spawned entity per material mesh. */
  ghost predicate Recorded(entry: Option<seq<MeshEntity>>, groups: seq<QuadGroup>,
                           spawn: (Material, PosNormMesh) -> MeshEntity)
  {
    && entry.Some?
    && |entry.value| == |Materials(Flatten(groups))|
    && forall e :: e in entry.value <==>
         exists m :: m in Materials(Flatten(groups)) && e == spawn(m, PosNormMesh(QuadsOf(Flatten(groups), m)))
  }

  /** The recording step of `generate_meshes` for one chunk: `Some` meshes
      become `Some` of one spawned entity per material mesh, `None` is
      recorded as `None`, so that the chunk is not meshed again. */
  method RecordMesh(meshRes: MeshResource, p: Point3, mesh: Option<map<Material, PosNormMesh>>,
                    spawn: (Material, PosNormMesh) -> MeshEntity)
    modifies meshRes
    ensures meshRes.meshes.Keys == old(meshRes.meshes).Keys + {p}
    ensures forall k :: k in old(meshRes.meshes) && k != p ==> meshRes.meshes[k] == old(meshRes.meshes)[k]
    ensures mesh.None? ==> meshRes.meshes[p] == None
    ensures mesh.Some? ==> meshRes.meshes[p].Some? && |meshRes.meshes[p].value| == |mesh.value.Keys|
    ensures mesh.Some? ==> forall e :: e in meshRes.meshes[p].value <==>
      exists m :: m in mesh.value && e == spawn(m, mesh.value[m])
  {
    if mesh.Some? {
      var entities := SpawnAll(mesh.value, spawn);
      meshRes.meshes := meshRes.meshes[p := Some(entities)];
    } else {
      meshRes.meshes := meshRes.meshes[p := None];
    }
  }

  /** Meshing of one scheduled chunk and the recording of its result. */
  method MeshChunk(meshRes: MeshResource, chunkKey: Point3, groups: seq<QuadGroup>,
                   spawn: (Material, PosNormMesh) -> MeshEntity)
    modifies meshRes
    ensures meshRes.meshes.Keys == old(meshRes.meshes).Keys + {chunkKey}
    ensures forall k :: k in old(meshRes.meshes) && k != chunkKey ==> meshRes.meshes[k] == old(meshRes.meshes)[k]
    ensures Recorded(meshRes.meshes[chunkKey], groups, spawn)
  {
    var p, mesh := GenerateMesh(chunkKey, groups);
    RecordMesh(meshRes, p, mesh, spawn);
  }

  /** Every key of `keys` holds what `generate_meshes` records for it. */
  ghost predicate AllRecorded(meshes: map<Point3, Option<seq<MeshEntity>>>, keys: set<Point3>,
                              quadsOf: Point3 -> seq<QuadGroup>, spawn: (Material, PosNormMesh) -> MeshEntity)
  {
    forall k :: k in keys ==> k in meshes && Recorded(meshes[k], quadsOf(k), spawn)
  }

  /** `generate_meshes`: meshes every unmeshed chunk (the greedy mesher is
      the input `quadsOf`, the entity spawn the input `spawn`) and records
      `Some` of the spawned entities, one per material mesh, or `None`.
      Entries already present are kept. */
  method GenerateMeshes(terrain: TerrainResource, meshRes: MeshResource,
                        quadsOf: Point3 -> seq<QuadGroup>, spawn: (Material, PosNormMesh) -> MeshEntity)
    modifies meshRes
    ensures meshRes.meshes.Keys == old(meshRes.meshes).Keys + Unmeshed(terrain.chunks, old(meshRes.meshes))
    ensures forall k :: k in old(meshRes.meshes) ==> meshRes.meshes[k] == old(meshRes.meshes)[k]
    ensures AllRecorded(meshRes.meshes, Unmeshed(terrain.chunks, old(meshRes.meshes)), quadsOf, spawn)
  {
    var chunkKeys := Unmeshed(terrain.chunks, meshRes.meshes);
    ghost var original := meshRes.meshes;
    var remaining := chunkKeys;
    while remaining != {}
      invariant remaining <= chunkKeys
      invariant forall k :: k in meshRes.meshes <==> k in original || (k in chunkKeys && k !in remaining)
      invariant forall k :: k in original ==> meshRes.meshes[k] == original[k]
      invariant AllRecorded(meshRes.meshes, chunkKeys - remaining, quadsOf, spawn)
      decreases |remaining|
    {
      var chunkKey :| chunkKey in remaining;
      ghost var before := meshRes.meshes;
      MeshChunk(meshRes, chunkKey, quadsOf(chunkKey), spawn);
      AllRecordedExtend(before, meshRes.meshes, chunkKeys - remaining, chunkKey, quadsOf, spawn);
      remaining := remaining - {chunkKey};
    }
  }

  /** Recording one more key, with every other entry kept, extends `AllRecorded`. */
  lemma AllRecordedExtend(m0: map<Point3, Option<seq<MeshEntity>>>, m1: map<Point3, Option<seq<MeshEntity>>>,
                          keys: set<Point3>, k: Point3,
                          quadsOf: Point3 -> seq<QuadGroup>, spawn: (Material, PosNormMesh) -> MeshEntity)
    requires AllRecorded(m0, keys, quadsOf, spawn)
    requires m1.Keys == m0.Keys + {k}
    requires forall j :: j in m0 && j != k ==> m1[j] == m0[j]
    requires Recorded(m1[k], quadsOf(k), spawn)
    ensures AllRecorded(m1, keys + {k}, quadsOf, spawn)
  {
  }

  /** Spawns one entity per material mesh, in the map's unspecified order. */
  method SpawnAll(meshes: map<Material, PosNormMesh>, spawn: (Material, PosNormMesh) -> MeshEntity)
    returns (entities: seq<MeshEntity>)
    ensures |entities| == |meshes.Keys|
    ensures forall e :: e in entities <==> exists m :: m in meshes && e == spawn(m, meshes[m])
  {
    entities := [];
    var remaining := meshes.Keys;
    while remaining != {}
      invariant remaining <= meshes.Keys
      invariant |entities| + |remaining| == |meshes.Keys|
      invariant forall e :: e in entities <==> exists m :: m in meshes.Keys - remaining && e == spawn(m, meshes[m])
      decreases |remaining|
    {
      var m :| m in remaining;
      entities := entities + [spawn(m, meshes[m])];
      remaining := remaining - {m};
    }
  }
}
