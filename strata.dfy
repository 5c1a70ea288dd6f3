/** Terrain generation over a dense region (crates/core/src/terrain.rs):
    a height map, a strata fill of every column, and a breadth-first water
    flood fill from four seed columns at sea level.

    The dense 3-D array of the source is an `array3`; the cell at local
    indices `(i, j, k)` holds the voxel of the absolute point
    `origin + (i, j, k)`, where `origin` is the array extent's minimum. */
module Strata {
  import opened Common
  import opened Voxel
  import opened Numeric
  import Noise

  /** Whether the absolute point `p` lies in the array's extent. */
  predicate InArray(a: array3<CubeVoxel>, origin: Point3, p: Point3)
  {
    && 0 <= p.x - origin.x < a.Length0
    && 0 <= p.y - origin.y < a.Length1
    && 0 <= p.z - origin.z < a.Length2
  }

  /** The voxel at absolute point `p`. */
  function At(a: array3<CubeVoxel>, origin: Point3, p: Point3): CubeVoxel
    reads a
    requires InArray(a, origin, p)
  {
    a[p.x - origin.x, p.y - origin.y, p.z - origin.z]
  }

  /** The absolute point of local indices `(i, j, k)`. */
  function Cell(origin: Point3, i: int, j: int, k: int): Point3
  {
    Point3(origin.x + i, origin.y + j, origin.z + k)
  }

  /** Every point of the array's extent. */
  ghost function Region(a: array3<CubeVoxel>, origin: Point3): set<Point3>
  {
    set i, j, k | 0 <= i < a.Length0 && 0 <= j < a.Length1 && 0 <= k < a.Length2 :: Cell(origin, i, j, k)
  }

  lemma InRegion(a: array3<CubeVoxel>, origin: Point3, p: Point3)
    requires InArray(a, origin, p)
    ensures p in Region(a, origin)
  {
    assert p == Cell(origin, p.x - origin.x, p.y - origin.y, p.z - origin.z);
  }

  /** The contents of the array, by absolute point. */
  ghost function Snapshot(a: array3<CubeVoxel>, origin: Point3): (m: map<Point3, CubeVoxel>)
    reads a
    ensures forall p :: InArray(a, origin, p) ==> p in m && m[p] == At(a, origin, p)
  {
    RegionCovers(a, origin);
    map p | p in Region(a, origin) && InArray(a, origin, p) :: At(a, origin, p)
  }

  lemma RegionCovers(a: array3<CubeVoxel>, origin: Point3)
    ensures forall p :: InArray(a, origin, p) ==> p in Region(a, origin)
  {
    forall p | InArray(a, origin, p) ensures p in Region(a, origin) {
      InRegion(a, origin, p);
    }
  }

  /** Writes one cell through `get_mut`. */
  method Put(a: array3<CubeVoxel>, origin: Point3, p: Point3, v: CubeVoxel)
    requires InArray(a, origin, p)
    modifies a
    ensures forall q :: InArray(a, origin, q) ==> At(a, origin, q) == if q == p then v else old(At(a, origin, q))
  {
    a[p.x - origin.x, p.y - origin.y, p.z - origin.z] := v;
  }

  /** `WaterGenerator`: the sea level, the horizontal extent (inclusive
      maxima), the lowest height, and the voxel that water replaces (`src`)
      and becomes (`dst`). */
  datatype WaterGenerator = WaterGenerator(
    seaLevel: int, minX: int, maxX: int, minY: int, minZ: int, maxZ: int,
    src: CubeVoxel, dst: CubeVoxel)
  {
    /** `WaterGenerator::new`: water replaces air. */
    static function New(seaLevel: int, minX: int, maxX: int, minY: int, minZ: int, maxZ: int): (g: WaterGenerator)
      ensures g.src == Air && g.dst == Water && g.src != g.dst
      ensures g.seaLevel == seaLevel && g.minY == minY
      ensures g.minX == minX && g.maxX == maxX && g.minZ == minZ && g.maxZ == maxZ
    {
      WaterGenerator(seaLevel, minX, maxX, minY, minZ, maxZ, Air, Water)
    }

    /** The moves of the fill from `p` to `q`: one step west (+x), east (-x),
        north (+z), south (-z) or down (-y), each under the source's guard.
        The south guard compares z with `minX`, exactly as written. */
    predicate Step(p: Point3, q: Point3)
    {
      || (p.x < maxX - 1 && q == Point3(p.x + 1, p.y, p.z))
      || (p.x > minX && q == Point3(p.x - 1, p.y, p.z))
      || (p.z < maxZ - 1 && q == Point3(p.x, p.y, p.z + 1))
      || (p.z > minX && q == Point3(p.x, p.y, p.z - 1))
      || (p.y > minY && q == Point3(p.x, p.y - 1, p.z))
    }

    /** The bounding box of the fill from seed column `(x, z)`: never above
        the seed height `seaLevel - 1`, never past the guards of `Step`. */
    predicate InSpread(x: int, z: int, p: Point3)
    {
      && Min(seaLevel - 1, minY) <= p.y <= seaLevel - 1
      && Min(x, minX) <= p.x <= Max(x, maxX - 1)
      && Min(z, minX) <= p.z <= Max(z, maxZ - 1)
    }

    /** The bounds that the loop asserts of every point it takes off the queue. */
    predicate PassesAsserts(p: Point3)
    {
      minX <= p.x <= maxX && minZ <= p.z <= maxZ
    }

    /** A sufficient condition for the fill from `(x, z)` never to panic: the
        seed passes the asserts, sea level is not below `minY`, the south
        guard stays inside the extent (`minX >= minZ`), and the array covers
        the whole box the fill can reach. */
    predicate SafeFill(a: array3<CubeVoxel>, origin: Point3, x: int, z: int)
    {
      && minX <= x <= maxX && minZ <= z <= maxZ
      && minY <= seaLevel - 1
      && minX >= minZ
      && InArray(a, origin, Point3(minX, minY, minZ))
      && InArray(a, origin, Point3(maxX, seaLevel - 1, maxZ))
    }

    /** Against the contents `before`, the cells that differ are exactly
        `changed`, each turned from `src` into `dst`. */
    ghost predicate ChangedFrom(a: array3<CubeVoxel>, origin: Point3, before: map<Point3, CubeVoxel>, changed: set<Point3>)
      reads a
    {
      && (forall p :: p in changed ==> InArray(a, origin, p))
      && forall p :: InArray(a, origin, p) ==>
           (p in before &&
            if p in changed then before[p] == src && At(a, origin, p) == dst
            else At(a, origin, p) == before[p])
    }

    /** A move keeps the fill inside the bounding box of the seed `(x, z)`. */
    lemma StepStaysInSpread(x: int, z: int, p: Point3, q: Point3)
      requires InSpread(x, z, p) && Step(p, q)
      ensures InSpread(x, z, q)
    {
    }

    /** Under `SafeFill`, every point of the seed's bounding box passes the asserts
        and lies in the array. */
    lemma SafeSpread(a: array3<CubeVoxel>, origin: Point3, x: int, z: int, p: Point3)
      requires SafeFill(a, origin, x, z) && InSpread(x, z, p)
      ensures PassesAsserts(p) && InArray(a, origin, p)
    {
    }

    /** One guarded move of the loop: read the neighbour with `get_mut`
        (panicking outside the array) and, if it holds `src`, overwrite it
        with `dst` and enqueue it. */
    method Visit(a: array3<CubeVoxel>, origin: Point3, q: Point3, queue: seq<Point3>)
      returns (ok: bool, converted: bool, queue': seq<Point3>)
      requires src != dst
      modifies a
      ensures ok <==> InArray(a, origin, q)
      ensures !ok ==> !converted && queue' == queue && unchanged(a)
      ensures ok ==> converted == (old(At(a, origin, q)) == src) && At(a, origin, q) != src
      ensures converted ==> queue' == queue + [q] && At(a, origin, q) == dst
      ensures !converted ==> queue' == queue && unchanged(a)
      ensures forall p :: InArray(a, origin, p) && p != q ==> At(a, origin, p) == old(At(a, origin, p))
    {
      if !InArray(a, origin, q) {
        return false, false, queue;
      }
      if At(a, origin, q) == src {
        Put(a, origin, q, dst);
        return true, true, queue + [q];
      }
      return true, false, queue;
    }

    /** Every move from `n` lands inside the array. */
    predicate MovesInArray(a: array3<CubeVoxel>, origin: Point3, n: Point3)
    {
      && (n.x < maxX - 1 ==> InArray(a, origin, Point3(n.x + 1, n.y, n.z)))
      && (n.x > minX ==> InArray(a, origin, Point3(n.x - 1, n.y, n.z)))
      && (n.z < maxZ - 1 ==> InArray(a, origin, Point3(n.x, n.y, n.z + 1)))
      && (n.z > minX ==> InArray(a, origin, Point3(n.x, n.y, n.z - 1)))
      && (n.y > minY ==> InArray(a, origin, Point3(n.x, n.y - 1, n.z)))
    }

    /** Every move from `n` lands inside the array on a cell that is not `src`. */
    predicate MovesSettled(a: array3<CubeVoxel>, origin: Point3, n: Point3)
      reads a
    {
      && (n.x < maxX - 1 ==> InArray(a, origin, Point3(n.x + 1, n.y, n.z)) && At(a, origin, Point3(n.x + 1, n.y, n.z)) != src)
      && (n.x > minX ==> InArray(a, origin, Point3(n.x - 1, n.y, n.z)) && At(a, origin, Point3(n.x - 1, n.y, n.z)) != src)
      && (n.z < maxZ - 1 ==> InArray(a, origin, Point3(n.x, n.y, n.z + 1)) && At(a, origin, Point3(n.x, n.y, n.z + 1)) != src)
      && (n.z > minX ==> InArray(a, origin, Point3(n.x, n.y, n.z - 1)) && At(a, origin, Point3(n.x, n.y, n.z - 1)) != src)
      && (n.y > minY ==> InArray(a, origin, Point3(n.x, n.y - 1, n.z)) && At(a, origin, Point3(n.x, n.y - 1, n.z)) != src)
    }

    lemma MovesInArrayIff(a: array3<CubeVoxel>, origin: Point3, n: Point3)
      ensures MovesInArray(a, origin, n) <==> forall q :: Step(n, q) ==> InArray(a, origin, q)
    {
    }

    lemma MovesSettledIff(a: array3<CubeVoxel>, origin: Point3, n: Point3)
      ensures MovesSettled(a, origin, n) <==>
        forall q :: Step(n, q) ==> InArray(a, origin, q) && At(a, origin, q) != src
    {
    }

    /** `queue1` is `queue0` with cells of `changed1` appended, and the queue
        grows only when the set of changed cells does. */
    ghost predicate Extends(queue0: seq<Point3>, queue1: seq<Point3>, changed0: set<Point3>, changed1: set<Point3>)
    {
      && changed0 <= changed1
      && |queue0| <= |queue1| && queue1[..|queue0|] == queue0
      && (forall i :: |queue0| <= i < |queue1| ==> queue1[i] in changed1)
      && (forall p :: p in changed1 - changed0 ==> p in queue1[|queue0|..])
      && (changed1 == changed0 ==> queue1 == queue0)
    }

    /** The `i`-th step of `path` is a move. */
    ghost predicate StepAt(path: seq<Point3>, i: int)
      requires 0 <= i < |path| - 1
    {
      Step(path[i], path[i + 1])
    }

    /** `path` is a walk of moves that never leaves `cells`. */
    ghost predicate IsWalk(path: seq<Point3>, cells: set<Point3>)
    {
      && |path| > 0
      && (forall i :: 0 <= i < |path| ==> path[i] in cells)
      && (forall i :: 0 <= i < |path| - 1 ==> StepAt(path, i))
    }

    /** The walk recorded for `p`, if any. */
    ghost function PathOf(paths: map<Point3, seq<Point3>>, p: Point3): seq<Point3>
    {
      if p in paths then paths[p] else []
    }

    /** `paths` holds, for each cell of `cells`, a walk through `cells` from
        one of `seeds` to that cell. */
    ghost predicate Reached(seeds: set<Point3>, paths: map<Point3, seq<Point3>>, cells: set<Point3>)
    {
      forall p {:trigger PathOf(paths, p)} :: p in cells ==>
        && p in paths
        && IsWalk(PathOf(paths, p), cells)
        && PathOf(paths, p)[0] in seeds && PathOf(paths, p)[|PathOf(paths, p)| - 1] == p
    }

    /** Cells reached by one move from a reached cell `n` are reached too. */
    lemma ReachedStep(seeds: set<Point3>, paths: map<Point3, seq<Point3>>, cells: set<Point3>,
                      n: Point3, cells': set<Point3>)
      returns (paths': map<Point3, seq<Point3>>)
      requires Reached(seeds, paths, cells) && n in cells && cells <= cells'
      requires forall q :: q in cells' - cells ==> Step(n, q)
      ensures Reached(seeds, paths', cells')
    {
      paths' := map p | p in cells' :: if p in cells then PathOf(paths, p) else PathOf(paths, n) + [p];
      forall p | p in cells'
        ensures IsWalk(PathOf(paths', p), cells') && PathOf(paths', p)[0] in seeds
        ensures PathOf(paths', p)[|PathOf(paths', p)| - 1] == p
      {
        var w := PathOf(paths', p);
        if p in cells {
          assert w == PathOf(paths, p);
        } else {
          var v := PathOf(paths, n);
          assert w == v + [p];
          forall i | 0 <= i < |w| - 1 ensures StepAt(w, i) {
            if i < |v| - 1 {
              assert StepAt(v, i);
            }
          }
        }
      }
    }

    /** Two records of reached cells combine into one. */
    lemma ReachedUnion(seeds0: set<Point3>, paths0: map<Point3, seq<Point3>>, cells0: set<Point3>,
                       seeds1: set<Point3>, paths1: map<Point3, seq<Point3>>, cells1: set<Point3>)
      returns (paths: map<Point3, seq<Point3>>)
      requires Reached(seeds0, paths0, cells0) && Reached(seeds1, paths1, cells1)
      ensures Reached(seeds0 + seeds1, paths, cells0 + cells1)
    {
      paths := map p | p in cells0 + cells1 :: if p in cells1 then PathOf(paths1, p) else PathOf(paths0, p);
      forall p | p in cells0 + cells1
        ensures IsWalk(PathOf(paths, p), cells0 + cells1) && PathOf(paths, p)[0] in seeds0 + seeds1
        ensures PathOf(paths, p)[|PathOf(paths, p)| - 1] == p
      {
        if p in cells1 {
          assert PathOf(paths, p) == PathOf(paths1, p);
        } else {
          assert PathOf(paths, p) == PathOf(paths0, p);
        }
      }
    }

    lemma ExtendsTrans(queue0: seq<Point3>, queue1: seq<Point3>, queue2: seq<Point3>,
                       changed0: set<Point3>, changed1: set<Point3>, changed2: set<Point3>)
      requires Extends(queue0, queue1, changed0, changed1) && Extends(queue1, queue2, changed1, changed2)
      ensures Extends(queue0, queue2, changed0, changed2)
    {
      assert queue2[..|queue1|][..|queue0|] == queue2[..|queue0|];
      forall p | p in changed2 - changed0 ensures p in queue2[|queue0|..] {
        if p in changed1 - changed0 {
          var j :| 0 <= j < |queue1[|queue0|..]| && queue1[|queue0|..][j] == p;
          assert queue2[|queue0|..][j] == p;
        } else {
          assert p in changed2 - changed1;
          var j :| 0 <= j < |queue2[|queue1|..]| && queue2[|queue1|..][j] == p;
          assert queue2[|queue0|..][j + |queue1| - |queue0|] == p;
        }
      }
    }

    /** One guarded move from `n` to `q`, keeping the record of changed cells. */
    method Move(a: array3<CubeVoxel>, origin: Point3, n: Point3, q: Point3, queue: seq<Point3>,
                ghost before: map<Point3, CubeVoxel>, ghost changed: set<Point3>)
      returns (ok: bool, queue': seq<Point3>, ghost changed': set<Point3>)
      requires src != dst && Step(n, q)
      requires ChangedFrom(a, origin, before, changed)
      modifies a
      ensures ChangedFrom(a, origin, before, changed')
      ensures || (changed' == changed && queue' == queue)
              || (q !in changed && changed' == changed + {q} && queue' == queue + [q])
      ensures Extends(queue, queue', changed, changed')
      ensures ok <==> InArray(a, origin, q)
      ensures ok ==> At(a, origin, q) != src
      ensures forall p :: InArray(a, origin, p) && old(At(a, origin, p)) != src ==> At(a, origin, p) == old(At(a, origin, p))
    {
      var converted;
      ok, converted, queue' := Visit(a, origin, q, queue);
      changed' := if converted then changed + {q} else changed;
    }

    /** The guarded move to `q` when `guard` holds; nothing otherwise. */
    predicate SettledMove(a: array3<CubeVoxel>, origin: Point3, guard: bool, q: Point3)
      reads a
    {
      guard ==> InArray(a, origin, q) && At(a, origin, q) != src
    }

    /** The guarded move to `q`, when `guard` holds, lands in the array. */
    predicate InArrayMove(a: array3<CubeVoxel>, origin: Point3, guard: bool, q: Point3)
    {
      guard ==> InArray(a, origin, q)
    }

    /** The west and east moves of the loop body. */
    method ExpandX(a: array3<CubeVoxel>, origin: Point3, n: Point3, queue: seq<Point3>,
                   ghost before: map<Point3, CubeVoxel>, ghost changed: set<Point3>)
      returns (ok: bool, queue': seq<Point3>, ghost changed': set<Point3>)
      requires src != dst
      requires ChangedFrom(a, origin, before, changed)
      modifies a
      ensures ChangedFrom(a, origin, before, changed')
      ensures forall q :: q in changed' - changed ==> Step(n, q)
      ensures Extends(queue, queue', changed, changed')
      ensures forall p :: InArray(a, origin, p) && old(At(a, origin, p)) != src ==> At(a, origin, p) == old(At(a, origin, p))
      ensures ok ==> SettledMove(a, origin, n.x < maxX - 1, Point3(n.x + 1, n.y, n.z))
      ensures ok ==> SettledMove(a, origin, n.x > minX, Point3(n.x - 1, n.y, n.z))
      ensures (InArrayMove(a, origin, n.x < maxX - 1, Point3(n.x + 1, n.y, n.z)) &&
               InArrayMove(a, origin, n.x > minX, Point3(n.x - 1, n.y, n.z))) ==> ok
    {
      queue', changed' := queue, changed;
      var queue1: seq<Point3>;
      ghost var changed1: set<Point3>;
      if n.x < maxX - 1 {
        ok, queue1, changed1 := Move(a, origin, n, Point3(n.x + 1, n.y, n.z), queue', before, changed');
        ExtendsTrans(queue, queue', queue1, changed, changed', changed1);
        queue', changed' := queue1, changed1;
        if !ok { return; }
      }
      if n.x > minX {
        ok, queue1, changed1 := Move(a, origin, n, Point3(n.x - 1, n.y, n.z), queue', before, changed');
        ExtendsTrans(queue, queue', queue1, changed, changed', changed1);
        queue', changed' := queue1, changed1;
        if !ok { return; }
      }
      ok := true;
    }

    /** The north and south moves of the loop body. */
    method ExpandZ(a: array3<CubeVoxel>, origin: Point3, n: Point3, queue: seq<Point3>,
                   ghost before: map<Point3, CubeVoxel>, ghost changed: set<Point3>)
      returns (ok: bool, queue': seq<Point3>, ghost changed': set<Point3>)
      requires src != dst
      requires ChangedFrom(a, origin, before, changed)
      modifies a
      ensures ChangedFrom(a, origin, before, changed')
      ensures forall q :: q in changed' - changed ==> Step(n, q)
      ensures Extends(queue, queue', changed, changed')
      ensures forall p :: InArray(a, origin, p) && old(At(a, origin, p)) != src ==> At(a, origin, p) == old(At(a, origin, p))
      ensures ok ==> SettledMove(a, origin, n.z < maxZ - 1, Point3(n.x, n.y, n.z + 1))
      ensures ok ==> SettledMove(a, origin, n.z > minX, Point3(n.x, n.y, n.z - 1))
      ensures (InArrayMove(a, origin, n.z < maxZ - 1, Point3(n.x, n.y, n.z + 1)) &&
               InArrayMove(a, origin, n.z > minX, Point3(n.x, n.y, n.z - 1))) ==> ok
    {
      queue', changed' := queue, changed;
      var queue1: seq<Point3>;
      ghost var changed1: set<Point3>;
      if n.z < maxZ - 1 {
        ok, queue1, changed1 := Move(a, origin, n, Point3(n.x, n.y, n.z + 1), queue', before, changed');
        ExtendsTrans(queue, queue', queue1, changed, changed', changed1);
        queue', changed' := queue1, changed1;
        if !ok { return; }
      }
      if n.z > minX {
        ok, queue1, changed1 := Move(a, origin, n, Point3(n.x, n.y, n.z - 1), queue', before, changed');
        ExtendsTrans(queue, queue', queue1, changed, changed', changed1);
        queue', changed' := queue1, changed1;
        if !ok { return; }
      }
      ok := true;
    }

    /** The loop body of `flood_fill_horizontal` after the asserts: the five
        guarded moves from `n`, in the source's order (west, east, north,
        south, down). `ok == false` is a panic on a neighbour outside the
        array. */
    method Expand(a: array3<CubeVoxel>, origin: Point3, n: Point3, queue: seq<Point3>,
                  ghost before: map<Point3, CubeVoxel>, ghost changed: set<Point3>)
      returns (ok: bool, queue': seq<Point3>, ghost changed': set<Point3>)
      requires src != dst
      requires ChangedFrom(a, origin, before, changed)
      modifies a
      ensures ChangedFrom(a, origin, before, changed')
      ensures forall q :: q in changed' - changed ==> Step(n, q)
      ensures Extends(queue, queue', changed, changed')
      ensures forall p :: InArray(a, origin, p) && old(At(a, origin, p)) != src ==> At(a, origin, p) == old(At(a, origin, p))
      ensures ok ==> MovesSettled(a, origin, n)
      ensures MovesInArray(a, origin, n) ==> ok
    {
      var queue1, queue2: seq<Point3>;
      ghost var changed1, changed2: set<Point3>;
      ok, queue1, changed1 := ExpandX(a, origin, n, queue, before, changed);
      queue', changed' := queue1, changed1;
      if !ok { return; }
      ok, queue2, changed2 := ExpandZ(a, origin, n, queue1, before, changed1);
      ExtendsTrans(queue, queue1, queue2, changed, changed1, changed2);
      queue', changed' := queue2, changed2;
      if !ok { return; }
      if n.y > minY {
        ok, queue2, changed2 := Move(a, origin, n, Point3(n.x, n.y - 1, n.z), queue', before, changed');
        ExtendsTrans(queue, queue', queue2, changed, changed', changed2);
        queue', changed' := queue2, changed2;
        if !ok { return; }
      }
      ok := true;
    }

    /** A dequeued cell `p` is settled: it passed the asserts, and each move
        from it lands in the array on a cell that is filled already or never
        held `src`. */
    ghost predicate Settled(a: array3<CubeVoxel>, origin: Point3, before: map<Point3, CubeVoxel>,
                            filled: set<Point3>, p: Point3)
    {
      && PassesAsserts(p)
      && forall q :: Step(p, q) ==> InArray(a, origin, q) && q in before && (q in filled || before[q] != src)
    }

    lemma SettledAfterMoves(a: array3<CubeVoxel>, origin: Point3, before: map<Point3, CubeVoxel>,
                            filled: set<Point3>, n: Point3)
      requires ChangedFrom(a, origin, before, filled) && PassesAsserts(n) && MovesSettled(a, origin, n)
      ensures Settled(a, origin, before, filled, n)
    {
      MovesSettledIff(a, origin, n);
    }

    lemma SettledGrows(a: array3<CubeVoxel>, origin: Point3, before: map<Point3, CubeVoxel>,
                       filled: set<Point3>, filled': set<Point3>, p: Point3)
      requires filled <= filled' && Settled(a, origin, before, filled, p)
      ensures Settled(a, origin, before, filled', p)
    {
    }

    /** Once every filled cell is settled, no move from a filled cell reaches `src`. */
    lemma AllSettledClosed(a: array3<CubeVoxel>, origin: Point3, before: map<Point3, CubeVoxel>,
                           filled: set<Point3>, p: Point3, q: Point3)
      requires src != dst && ChangedFrom(a, origin, before, filled)
      requires Settled(a, origin, before, filled, p) && Step(p, q)
      ensures InArray(a, origin, q) && At(a, origin, q) != src
    {
    }

    /** A cell that was filled and is no longer queued was dequeued: it is
        an old cell missing from the old queue. */
    lemma Dequeued(rest: seq<Point3>, queue: seq<Point3>, filled: set<Point3>, filled': set<Point3>, p: Point3)
      requires Extends(rest, queue, filled, filled')
      requires p in filled' && p !in queue
      ensures p in filled && p !in rest
    {
      assert queue == rest + queue[|rest|..];
    }

    /** The invariant of the fill's queue: every filled cell lies in the
        seed's bounding box, queued cells are filled, and filled cells no longer
        queued are settled. */
    ghost predicate QueueInvariant(a: array3<CubeVoxel>, origin: Point3, x: int, z: int,
                                   before: map<Point3, CubeVoxel>, filled: set<Point3>, queue: seq<Point3>)
    {
      && (forall p :: p in filled ==> InSpread(x, z, p))
      && (forall i :: 0 <= i < |queue| ==> queue[i] in filled)
      && (forall p :: p in filled && p !in queue ==> Settled(a, origin, before, filled, p))
    }

    /** One iteration of the loop of `flood_fill_horizontal`: dequeue `n`,
        check the asserts, and make the five moves. */
    method Process(a: array3<CubeVoxel>, origin: Point3, x: int, z: int, queue: seq<Point3>,
                   ghost before: map<Point3, CubeVoxel>, ghost filled: set<Point3>,
                   ghost seeds: set<Point3>, ghost paths: map<Point3, seq<Point3>>)
      returns (ok: bool, queue': seq<Point3>, ghost filled': set<Point3>, ghost paths': map<Point3, seq<Point3>>)
      requires src != dst && queue != []
      requires ChangedFrom(a, origin, before, filled)
      requires QueueInvariant(a, origin, x, z, before, filled, queue)
      requires Reached(seeds, paths, filled)
      modifies a
      ensures ChangedFrom(a, origin, before, filled')
      ensures Reached(seeds, paths', filled')
      ensures filled <= filled' <= Region(a, origin)
      ensures filled' == filled ==> |queue'| < |queue|
      ensures forall p :: p in filled' ==> InSpread(x, z, p)
      ensures forall i :: 0 <= i < |queue'| ==> queue'[i] in filled'
      ensures ok ==> QueueInvariant(a, origin, x, z, before, filled', queue')
      ensures SafeFill(a, origin, x, z) ==> ok
    {
      var n := queue[0];
      var rest := queue[1..];
      assert n in filled;
      if !PassesAsserts(n) {
        assert !SafeFill(a, origin, x, z) by {
          if SafeFill(a, origin, x, z) { SafeSpread(a, origin, x, z, n); }
        }
        RegionCovers(a, origin);
        return false, rest, filled, paths;
      }
      if SafeFill(a, origin, x, z) {
        forall q | Step(n, q) ensures InArray(a, origin, q) {
          StepStaysInSpread(x, z, n, q);
          SafeSpread(a, origin, x, z, q);
        }
        MovesInArrayIff(a, origin, n);
      }
      ok, queue', filled' := Expand(a, origin, n, rest, before, filled);
      paths' := ReachedStep(seeds, paths, filled, n, filled');
      RegionCovers(a, origin);
      forall q | q in filled' - filled ensures InSpread(x, z, q) {
        StepStaysInSpread(x, z, n, q);
      }
      if ok {
        SettledAfterMoves(a, origin, before, filled', n);
        forall p | p in filled' && p !in queue' ensures Settled(a, origin, before, filled', p) {
          if p != n {
            Dequeued(rest, queue', filled, filled', p);
            SettledGrows(a, origin, before, filled, filled', p);
          }
        }
      }
    }

    /** The loop of `flood_fill_horizontal`, run until the queue empties or a
        panic. */
    method Drain(a: array3<CubeVoxel>, origin: Point3, x: int, z: int, queue: seq<Point3>,
                 ghost before: map<Point3, CubeVoxel>, ghost filled: set<Point3>,
                 ghost seeds: set<Point3>, ghost paths: map<Point3, seq<Point3>>)
      returns (ok: bool, ghost filled': set<Point3>, ghost paths': map<Point3, seq<Point3>>)
      requires src != dst
      requires ChangedFrom(a, origin, before, filled)
      requires QueueInvariant(a, origin, x, z, before, filled, queue)
      requires Reached(seeds, paths, filled)
      modifies a
      ensures ChangedFrom(a, origin, before, filled') && filled <= filled'
      ensures Reached(seeds, paths', filled')
      ensures forall p :: p in filled' ==> InSpread(x, z, p)
      ensures ok ==> forall p :: p in filled' ==> Settled(a, origin, before, filled', p)
      ensures SafeFill(a, origin, x, z) ==> ok
    {
      var queue := queue;
      filled', paths' := filled, paths;
      ok := true;
      while ok && queue != []
        invariant ChangedFrom(a, origin, before, filled') && filled <= filled'
        invariant Reached(seeds, paths', filled')
        invariant forall p :: p in filled' ==> InSpread(x, z, p)
        invariant forall i :: 0 <= i < |queue| ==> queue[i] in filled'
        invariant ok ==> QueueInvariant(a, origin, x, z, before, filled', queue)
        invariant SafeFill(a, origin, x, z) ==> ok
        decreases Region(a, origin) - filled', |queue|
      {
        ok, queue, filled', paths' := Process(a, origin, x, z, queue, before, filled', seeds, paths');
      }
    }

    /** `flood_fill_horizontal`: breadth-first fill from `(x, seaLevel - 1, z)`.
        `ok == false` is a panic: an access outside the array or a failed
        bounds assert. Whatever happens, only `src` cells change, only into
        `dst`, and only inside the seed's bounding box; the changed cells are
        `filled`, and `paths` gives each of them a walk of moves from the
        seed through changed cells, that is, through cells that held `src`.
        On success the changed cells are closed under the moves: no
        neighbour still holds `src`. */
    method FloodFillHorizontal(a: array3<CubeVoxel>, origin: Point3, x: int, z: int)
      returns (ok: bool, ghost filled: set<Point3>, ghost paths: map<Point3, seq<Point3>>)
      requires src != dst
      modifies a
      ensures forall p :: p in filled ==> InArray(a, origin, p)
      ensures forall p :: InArray(a, origin, p) ==> (p in filled <==> At(a, origin, p) != old(At(a, origin, p)))
      ensures Reached({Point3(x, seaLevel - 1, z)}, paths, filled)
      ensures forall p :: InArray(a, origin, p) ==>
        At(a, origin, p) == old(At(a, origin, p)) || (old(At(a, origin, p)) == src && At(a, origin, p) == dst)
      ensures forall p :: InArray(a, origin, p) && At(a, origin, p) != old(At(a, origin, p)) ==> InSpread(x, z, p)
      ensures !InArray(a, origin, Point3(x, seaLevel - 1, z)) ==> !ok && unchanged(a)
      ensures InArray(a, origin, Point3(x, seaLevel - 1, z)) && old(At(a, origin, Point3(x, seaLevel - 1, z))) != src
        ==> ok && unchanged(a)
      ensures ok && InArray(a, origin, Point3(x, seaLevel - 1, z)) ==> At(a, origin, Point3(x, seaLevel - 1, z)) != src
      ensures ok ==> forall p :: InArray(a, origin, p) && At(a, origin, p) != old(At(a, origin, p)) ==>
        PassesAsserts(p) && forall q :: Step(p, q) ==> InArray(a, origin, q) && At(a, origin, q) != src
      ensures SafeFill(a, origin, x, z) ==> ok
    {
      ghost var before := Snapshot(a, origin);
      var seed := Point3(x, seaLevel - 1, z);
      if !InArray(a, origin, seed) {
        return false, {}, map[];
      }
      if At(a, origin, seed) != src {
        return true, {}, map[];
      }
      Put(a, origin, seed, dst);
      ok, filled, paths := Drain(a, origin, x, z, [seed], before, {seed}, {seed}, map[seed := [seed]]);
      if ok {
        forall p, q | p in filled && Step(p, q) ensures InArray(a, origin, q) && At(a, origin, q) != src {
          AllSettledClosed(a, origin, before, filled, p, q);
        }
      }
    }

    /** The conditions under which none of the four fills panics: each
        seed passes the asserts (the extent is at least two cells wide
        in x and z), sea level is not below `minY`, the south guard stays in
        the extent, and the array covers the box from the minimum corner to
        the maximum corner at sea level. */
    predicate SafeMap(a: array3<CubeVoxel>, origin: Point3)
    {
      && minX <= maxX - 1 && minZ <= maxZ - 1
      && minY <= seaLevel - 1
      && minX >= minZ
      && InArray(a, origin, Point3(minX, minY, minZ))
      && InArray(a, origin, Point3(maxX, seaLevel - 1, maxZ))
    }

    /** A seed column of `flood_fill`: `minX` or `maxX - 1` in x, `minZ` or
        `maxZ - 1` in z. */
    predicate IsSeed(x: int, z: int)
    {
      (x == minX || x == maxX - 1) && (z == minZ || z == maxZ - 1)
    }

    /** The box the four fills together can reach: at or below the seed
        height, not below `minY` (unless the seeds are), and never in the
        column `x == maxX` or `z == maxZ` unless a seed is. */
    predicate InMapSpread(p: Point3)
    {
      && Min(seaLevel - 1, minY) <= p.y <= seaLevel - 1
      && p.x <= Max(minX, maxX - 1)
      && p.z <= Max(minZ, maxZ - 1)
    }

    lemma SeedSpreadInMapSpread(x: int, z: int, p: Point3)
      requires IsSeed(x, z) && InSpread(x, z, p)
      ensures InMapSpread(p)
    {
    }

    /** The fills so far changed exactly `changed`, from `src` to `dst`, and
        all of it at or below the seed height. */
    ghost predicate Filled(a: array3<CubeVoxel>, origin: Point3, before: map<Point3, CubeVoxel>, changed: set<Point3>)
      reads a
    {
      && ChangedFrom(a, origin, before, changed)
      && forall p :: p in changed ==> InMapSpread(p)
    }

    ghost predicate AllSettled(a: array3<CubeVoxel>, origin: Point3, before: map<Point3, CubeVoxel>, changed: set<Point3>)
    {
      forall p :: p in changed ==> Settled(a, origin, before, changed, p)
    }

    /** The cell `c` is in the array and no longer holds `src`. */
    ghost predicate Watered(a: array3<CubeVoxel>, origin: Point3, before: map<Point3, CubeVoxel>,
                            changed: set<Point3>, c: Point3)
    {
      InArray(a, origin, c) && c in before && (c in changed || before[c] != src)
    }

    lemma WateredGrows(a: array3<CubeVoxel>, origin: Point3, before: map<Point3, CubeVoxel>,
                       changed: set<Point3>, changed': set<Point3>, c: Point3)
      requires changed <= changed' && Watered(a, origin, before, changed, c)
      ensures Watered(a, origin, before, changed', c)
    {
    }

    lemma SafeMapSeeds(a: array3<CubeVoxel>, origin: Point3)
      requires SafeMap(a, origin)
      ensures SafeFill(a, origin, minX, minZ) && SafeFill(a, origin, minX, maxZ - 1)
      ensures SafeFill(a, origin, maxX - 1, minZ) && SafeFill(a, origin, maxX - 1, maxZ - 1)
    {
    }

    /** What the record of changed cells says about the array. */
    lemma FilledMeans(a: array3<CubeVoxel>, origin: Point3, before: map<Point3, CubeVoxel>, changed: set<Point3>)
      requires src != dst && Filled(a, origin, before, changed)
      ensures forall p :: InArray(a, origin, p) ==>
        At(a, origin, p) == before[p] || (before[p] == src && At(a, origin, p) == dst)
      ensures forall p :: InArray(a, origin, p) && At(a, origin, p) != before[p] ==> p in changed && InMapSpread(p)
      ensures forall c :: Watered(a, origin, before, changed, c) ==> At(a, origin, c) != src
    {
    }

    /** One `flood_fill_horizontal` call of `flood_fill`, with the record of
        the cells changed by all the fills so far. */
    method FillSeed(a: array3<CubeVoxel>, origin: Point3, x: int, z: int,
                      ghost before: map<Point3, CubeVoxel>, ghost changed: set<Point3>,
                      ghost paths: map<Point3, seq<Point3>>)
      returns (ok: bool, ghost changed': set<Point3>, ghost paths': map<Point3, seq<Point3>>)
      requires src != dst && Filled(a, origin, before, changed) && IsSeed(x, z)
      requires Reached(SeedCells(), paths, changed)
      modifies a
      ensures Filled(a, origin, before, changed') && changed <= changed'
      ensures Reached(SeedCells(), paths', changed')
      ensures ok && AllSettled(a, origin, before, changed) ==> AllSettled(a, origin, before, changed')
      ensures ok ==> Watered(a, origin, before, changed', Point3(x, seaLevel - 1, z))
      ensures SafeFill(a, origin, x, z) ==> ok
    {
      ghost var spread, reached;
      ok, spread, reached := FloodFillHorizontal(a, origin, x, z);
      changed' := changed + spread;
      paths' := ReachedUnion(SeedCells(), paths, changed, {Point3(x, seaLevel - 1, z)}, reached, spread);
      assert SeedCells() + {Point3(x, seaLevel - 1, z)} == SeedCells();
      forall p | p in spread ensures InMapSpread(p) {
        SeedSpreadInMapSpread(x, z, p);
      }
      assert ChangedFrom(a, origin, before, changed');
      if ok && AllSettled(a, origin, before, changed) {
        forall p | p in changed' ensures Settled(a, origin, before, changed', p) {
          if p in changed {
            SettledGrows(a, origin, before, changed, changed', p);
          }
        }
      }
    }

    /** Two consecutive calls of `flood_fill`, with the record of changed cells. */
    method FillTwo(a: array3<CubeVoxel>, origin: Point3, x0: int, z0: int, x1: int, z1: int,
                   ghost before: map<Point3, CubeVoxel>, ghost changed: set<Point3>,
                   ghost paths: map<Point3, seq<Point3>>)
      returns (ok: bool, ghost changed': set<Point3>, ghost paths': map<Point3, seq<Point3>>)
      requires src != dst && Filled(a, origin, before, changed) && IsSeed(x0, z0) && IsSeed(x1, z1)
      requires Reached(SeedCells(), paths, changed)
      modifies a
      ensures Filled(a, origin, before, changed') && changed <= changed'
      ensures Reached(SeedCells(), paths', changed')
      ensures ok && AllSettled(a, origin, before, changed) ==> AllSettled(a, origin, before, changed')
      ensures ok ==> Watered(a, origin, before, changed', Point3(x0, seaLevel - 1, z0))
      ensures ok ==> Watered(a, origin, before, changed', Point3(x1, seaLevel - 1, z1))
      ensures SafeFill(a, origin, x0, z0) && SafeFill(a, origin, x1, z1) ==> ok
    {
      ghost var k;
      ok, k, paths' := FillSeed(a, origin, x0, z0, before, changed, paths);
      changed' := k;
      if !ok { return; }
      ok, changed', paths' := FillSeed(a, origin, x1, z1, before, k, paths');
      if ok {
        WateredGrows(a, origin, before, k, changed', Point3(x0, seaLevel - 1, z0));
      }
    }

    /** Watering the four seeds, one by one, waters every seed cell. */
    lemma SeedCellsWatered(a: array3<CubeVoxel>, origin: Point3, before: map<Point3, CubeVoxel>, changed: set<Point3>)
      requires Watered(a, origin, before, changed, Point3(minX, seaLevel - 1, minZ))
      requires Watered(a, origin, before, changed, Point3(minX, seaLevel - 1, maxZ - 1))
      requires Watered(a, origin, before, changed, Point3(maxX - 1, seaLevel - 1, minZ))
      requires Watered(a, origin, before, changed, Point3(maxX - 1, seaLevel - 1, maxZ - 1))
      ensures forall c :: IsSeedCell(c) ==> Watered(a, origin, before, changed, c)
    {
      forall c | IsSeedCell(c) ensures Watered(a, origin, before, changed, c) {
        InSeedCellsIff(c);
      }
    }

    /** The four calls of `flood_fill`, with the record of changed cells. */
    method FillSeeds(a: array3<CubeVoxel>, origin: Point3, ghost before: map<Point3, CubeVoxel>)
      returns (ok: bool, ghost changed: set<Point3>, ghost paths: map<Point3, seq<Point3>>)
      requires src != dst && Filled(a, origin, before, {})
      modifies a
      ensures Filled(a, origin, before, changed)
      ensures Reached(SeedCells(), paths, changed)
      ensures ok ==> AllSettled(a, origin, before, changed)
      ensures ok ==> forall c :: IsSeedCell(c) ==> Watered(a, origin, before, changed, c)
      ensures SafeMap(a, origin) ==> ok
    {
      if SafeMap(a, origin) {
        SafeMapSeeds(a, origin);
      }
      ghost var k;
      ok, k, paths := FillTwo(a, origin, minX, minZ, minX, maxZ - 1, before, {}, map[]);
      changed := k;
      if !ok { return; }
      ok, changed, paths := FillTwo(a, origin, maxX - 1, minZ, maxX - 1, maxZ - 1, before, k, paths);
      if !ok { return; }
      WateredGrows(a, origin, before, k, changed, Point3(minX, seaLevel - 1, minZ));
      WateredGrows(a, origin, before, k, changed, Point3(minX, seaLevel - 1, maxZ - 1));
      SeedCellsWatered(a, origin, before, changed);
    }

    /** `flood_fill`: the horizontal fill from the four seed columns of the
        extent, in order; a panic in one stops the rest. The changed cells
        are `filled`, each reached by a walk of moves from a seed
        through changed cells. */
    method FloodFill(a: array3<CubeVoxel>, origin: Point3)
      returns (ok: bool, ghost filled: set<Point3>, ghost paths: map<Point3, seq<Point3>>)
      requires src != dst
      modifies a
      ensures forall p :: p in filled ==> InArray(a, origin, p)
      ensures forall p :: InArray(a, origin, p) ==> (p in filled <==> At(a, origin, p) != old(At(a, origin, p)))
      ensures Reached(SeedCells(), paths, filled)
      ensures forall p :: InArray(a, origin, p) ==>
        At(a, origin, p) == old(At(a, origin, p)) || (old(At(a, origin, p)) == src && At(a, origin, p) == dst)
      ensures forall p :: InArray(a, origin, p) && At(a, origin, p) != old(At(a, origin, p)) ==> InMapSpread(p)
      ensures ok ==> forall p :: InArray(a, origin, p) && At(a, origin, p) != old(At(a, origin, p)) ==>
        PassesAsserts(p) && forall q :: Step(p, q) ==> InArray(a, origin, q) && At(a, origin, q) != src
      ensures ok ==> forall c :: IsSeedCell(c) ==> InArray(a, origin, c) && At(a, origin, c) != src
      ensures SafeMap(a, origin) ==> ok
    {
      ghost var before := Snapshot(a, origin);
      ok, filled, paths := FillSeeds(a, origin, before);
      FilledMeans(a, origin, before, filled);
      if ok {
        forall p, q | p in filled && Step(p, q) ensures InArray(a, origin, q) && At(a, origin, q) != src {
          AllSettledClosed(a, origin, before, filled, p, q);
        }
      }
    }

    /** The four seed cells of `flood_fill`, at height `seaLevel - 1`: x is
        `minX` or `maxX - 1`, z is `minZ` or `maxZ - 1`. They are the corners
        of the extent only when `maxX` and `maxZ` are exclusive bounds. */
    predicate IsSeedCell(c: Point3)
    {
      c.y == seaLevel - 1 && (c.x == minX || c.x == maxX - 1) && (c.z == minZ || c.z == maxZ - 1)
    }

    /** The seeds of `flood_fill` as a set. */
    ghost function SeedCells(): set<Point3>
    {
      {Point3(minX, seaLevel - 1, minZ), Point3(minX, seaLevel - 1, maxZ - 1),
       Point3(maxX - 1, seaLevel - 1, minZ), Point3(maxX - 1, seaLevel - 1, maxZ - 1)}
    }

    lemma InSeedCellsIff(c: Point3)
      ensures c in SeedCells() <==> IsSeedCell(c)
    {
    }
  }

  /** A noise sample inside the range that `scale` accepts. */
  predicate InUnit(v: real)
  {
    -1.0 <= v <= 1.0
  }

  /** Every column `(x, z)` of the horizontal extent has a sample that
      `scale` accepts. */
  predicate ColumnsInRange(noise: (int, int) -> real, minimum: Point3, width: int, depth: int)
  {
    forall x, z | minimum.x <= x < minimum.x + width && minimum.z <= z < minimum.z + depth :: InUnit(noise(x, z))
  }

  /** The voxel that the strata pass puts at `p`: the dirt transition is the
      rounded, rescaled elevation sample of the column, the stone transition
      lies the truncated dirt thickness below it. */
  function StrataAt(elevation: (int, int) -> real, thickness: (int, int) -> real, p: Point3): (v: CubeVoxel)
    requires InUnit(elevation(p.x, p.z)) && InUnit(thickness(p.x, p.z))
    ensures v in {Stone, Grass, Air}
  {
    var dirt := Noise.SampleElevation(elevation(p.x, p.z)).value;
    var stone := dirt - Trunc(Noise.SampleDirtThickness(thickness(p.x, p.z)).value);
    Noise.SampleVoxel(stone, dirt, p.y)
  }

  /** The strata pass of `generate_map` and a column iterator of
      `VoxelColumn` over the same heights yield the same voxels. */
  lemma StrataMatchesColumn(elevation: (int, int) -> real, thickness: (int, int) -> real,
                            x: int, z: int, minY: int, maxY: int, i: int)
    requires InUnit(elevation(x, z)) && InUnit(thickness(x, z))
    requires 0 <= i < maxY - minY
    ensures var dirt := Noise.SampleElevation(elevation(x, z)).value;
            var stone := dirt - Trunc(Noise.SampleDirtThickness(thickness(x, z)).value);
            var items := Noise.ColumnItems(stone, dirt, minY, maxY);
            i < |items| && items[i] == StrataAt(elevation, thickness, Point3(x, minY + i, z))
  {
    var dirt := Noise.SampleElevation(elevation(x, z)).value;
    var stone := dirt - Trunc(Noise.SampleDirtThickness(thickness(x, z)).value);
    Noise.ColumnItemsAt(stone, dirt, minY, maxY);
  }

  /** Sets every voxel of column `(x, z)` from the two transition heights,
      bottom up: the closure that the strata pass runs over a column. */
  method FillColumn(a: array3<CubeVoxel>, origin: Point3, x: int, z: int, stoneTransition: int, dirtTransition: int)
    requires 0 <= x - origin.x < a.Length0 && 0 <= z - origin.z < a.Length2
    modifies a
    ensures forall p :: InArray(a, origin, p) ==>
      At(a, origin, p) == if p.x == x && p.z == z then Noise.SampleVoxel(stoneTransition, dirtTransition, p.y)
                          else old(At(a, origin, p))
  {
    var j := 0;
    while j < a.Length1
      invariant 0 <= j <= a.Length1
      invariant forall p :: InArray(a, origin, p) ==>
        At(a, origin, p) == if p.x == x && p.z == z && p.y < origin.y + j then Noise.SampleVoxel(stoneTransition, dirtTransition, p.y)
                            else old(At(a, origin, p))
    {
      var p := Point3(x, origin.y + j, z);
      if p.y <= stoneTransition {
        Put(a, origin, p, Stone);
      } else if p.y <= dirtTransition {
        Put(a, origin, p, Grass);
      } else {
        Put(a, origin, p, Air);
      }
      j := j + 1;
    }
  }

  /** The columns of one row `z` of the strata pass, x ascending. */
  method FillRow(a: array3<CubeVoxel>, origin: Point3, z: int, elevation: (int, int) -> real, thickness: (int, int) -> real)
    returns (ok: bool)
    requires 0 <= z - origin.z < a.Length2
    requires forall x | origin.x <= x < origin.x + a.Length0 :: InUnit(elevation(x, z))
    modifies a
    ensures ok <==> forall x | origin.x <= x < origin.x + a.Length0 :: InUnit(thickness(x, z))
    ensures ok ==> forall p :: InArray(a, origin, p) ==>
      At(a, origin, p) == if p.z == z then StrataAt(elevation, thickness, p) else old(At(a, origin, p))
  {
    var i := 0;
    while i < a.Length0
      invariant 0 <= i <= a.Length0
      invariant forall x | origin.x <= x < origin.x + i :: InUnit(thickness(x, z))
      invariant forall p :: InArray(a, origin, p) ==>
        At(a, origin, p) == if p.z == z && p.x < origin.x + i then StrataAt(elevation, thickness, p) else old(At(a, origin, p))
    {
      var x := origin.x + i;
      var sample := Noise.SampleDirtThickness(thickness(x, z));
      if sample.None? {
        return false;
      }
      var dirtThickness := Trunc(sample.value);
      var dirtTransition := Noise.SampleElevation(elevation(x, z)).value;
      var stoneTransition := dirtTransition - dirtThickness;
      FillColumn(a, origin, x, z, stoneTransition, dirtTransition);
      i := i + 1;
    }
    return true;
  }

  /** The strata pass of `generate_map`: for every column, z outer and x
      inner, sample the dirt thickness (panicking, as `scale` does, outside
      `[-1, 1]`) and set each voxel of the column to stone, grass or air. */
  method FillStrata(a: array3<CubeVoxel>, origin: Point3, elevation: (int, int) -> real, thickness: (int, int) -> real)
    returns (ok: bool)
    requires ColumnsInRange(elevation, origin, a.Length0, a.Length2)
    modifies a
    ensures ok <==> ColumnsInRange(thickness, origin, a.Length0, a.Length2)
    ensures ok ==> forall p :: InArray(a, origin, p) ==> At(a, origin, p) == StrataAt(elevation, thickness, p)
  {
    var k := 0;
    while k < a.Length2
      invariant 0 <= k <= a.Length2
      invariant ColumnsInRange(thickness, origin, a.Length0, k)
      invariant forall p :: InArray(a, origin, p) && p.z < origin.z + k ==>
                  At(a, origin, p) == StrataAt(elevation, thickness, p)
    {
      var z := origin.z + k;
      ok := FillRow(a, origin, z, elevation, thickness);
      if !ok {
        return;
      }
      k := k + 1;
    }
    return true;
  }

  /** The water generator that `generate_map` builds for the extent with
      minimum `minimum` and shape `shape`; the maxima are inclusive, while
      `flood_fill` treats them as exclusive, so three of its seeds sit one
      column or row inside the extent's far x and z edges (see
      `FarEdgesStayDry`). */
  function MapWaterGenerator(seaLevel: int, minimum: Point3, shape: Point3): (g: WaterGenerator)
    ensures g.src == Air && g.dst == Water
    ensures g.maxX - g.minX == shape.x - 1 && g.maxZ - g.minZ == shape.z - 1
  {
    WaterGenerator.New(seaLevel, minimum.x, minimum.x + shape.x - 1, minimum.y,
                       minimum.z, minimum.z + shape.z - 1)
  }

  /** Conditions under which `generate_map` returns: both noise functions
      stay in `[-1, 1]` over the extent, the extent is at least two columns
      wide in x and z, sea level lies strictly above the lowest layer and at
      most one above the highest, and the extent's minimum x is not below its
      minimum z (the south guard of the fill compares z with minimum x). */
  predicate GeneratesMap(elevation: (int, int) -> real, thickness: (int, int) -> real,
                         seaLevel: int, minimum: Point3, shape: Point3)
  {
    && ColumnsInRange(elevation, minimum, shape.x, shape.z)
    && ColumnsInRange(thickness, minimum, shape.x, shape.z)
    && shape.x >= 2 && shape.z >= 2
    && minimum.y < seaLevel <= minimum.y + shape.y
    && minimum.x >= minimum.z
  }

  /** What the water pass leaves in `a` over the strata of `elevation` and
      `thickness`: every voxel is its strata voxel, except strata air that
      became water; the water voxels are exactly `water`; each of them lies
      in the box the four fills can reach, passes the asserts, and no move of
      `g` from it reaches air; no seed is left as air; and `paths`
      gives every water voxel a walk of moves from a seed through
      water voxels. */
  ghost predicate Flooded(a: array3<CubeVoxel>, origin: Point3, g: WaterGenerator,
                          elevation: (int, int) -> real, thickness: (int, int) -> real,
                          water: set<Point3>, paths: map<Point3, seq<Point3>>)
    reads a
  {
    && ColumnsInRange(elevation, origin, a.Length0, a.Length2)
    && ColumnsInRange(thickness, origin, a.Length0, a.Length2)
    && (forall p :: InArray(a, origin, p) ==>
          || At(a, origin, p) == StrataAt(elevation, thickness, p)
          || (StrataAt(elevation, thickness, p) == Air && At(a, origin, p) == Water))
    && (forall p :: p in water ==> InArray(a, origin, p))
    && (forall p :: InArray(a, origin, p) ==> (p in water <==> At(a, origin, p) == Water))
    && (forall p :: p in water ==>
          && g.InMapSpread(p) && g.PassesAsserts(p)
          && forall q :: g.Step(p, q) ==> InArray(a, origin, q) && At(a, origin, q) != Air)
    && (forall c :: g.IsSeedCell(c) ==> InArray(a, origin, c) && At(a, origin, c) != Air)
    && g.Reached(g.SeedCells(), paths, water)
  }

  /** The last x column and the last z row of the extent never get water:
      the seeds and the guards of `generate_map`'s generator stop one short
      of them (as long as the extent is at least two cells wide). */
  lemma FarEdgesStayDry(a: array3<CubeVoxel>, seaLevel: int, minimum: Point3, shape: Point3,
                        elevation: (int, int) -> real, thickness: (int, int) -> real,
                        water: set<Point3>, paths: map<Point3, seq<Point3>>, p: Point3)
    requires Flooded(a, minimum, MapWaterGenerator(seaLevel, minimum, shape), elevation, thickness, water, paths)
    requires p.x == minimum.x + shape.x - 1 || p.z == minimum.z + shape.z - 1
    requires shape.x >= 2 && shape.z >= 2
    ensures InArray(a, minimum, p) ==> At(a, minimum, p) != Water
  {
    var g := MapWaterGenerator(seaLevel, minimum, shape);
    assert InArray(a, minimum, p) ==> (p in water <==> At(a, minimum, p) == Water);
    assert p in water ==> g.InMapSpread(p);
  }

  /** The water pass of `generate_map`: `flood_fill` over an array holding
      the strata. */
  method FloodStrata(a: array3<CubeVoxel>, origin: Point3, g: WaterGenerator,
                     elevation: (int, int) -> real, thickness: (int, int) -> real)
    returns (ok: bool, ghost water: set<Point3>, ghost paths: map<Point3, seq<Point3>>)
    requires g.src == Air && g.dst == Water
    requires ColumnsInRange(elevation, origin, a.Length0, a.Length2)
    requires ColumnsInRange(thickness, origin, a.Length0, a.Length2)
    requires forall p :: InArray(a, origin, p) ==> At(a, origin, p) == StrataAt(elevation, thickness, p)
    modifies a
    ensures g.SafeMap(a, origin) ==> ok
    ensures ok ==> Flooded(a, origin, g, elevation, thickness, water, paths)
  {
    ok, water, paths := g.FloodFill(a, origin);
  }

  /** `generate_map`: the height map, the strata pass over an array filled
      with air, and the water flood fill. `Panicked` is a panic of `scale` on
      a noise sample outside `[-1, 1]`, or of the flood fill. */
  method GenerateMap(elevation: (int, int) -> real, thickness: (int, int) -> real,
                     seaLevel: int, minimum: Point3, shape: Point3)
    returns (r: Result<array3<CubeVoxel>>, ghost water: set<Point3>, ghost paths: map<Point3, seq<Point3>>)
    requires shape.x >= 0 && shape.y >= 0 && shape.z >= 0
    ensures !ColumnsInRange(elevation, minimum, shape.x, shape.z) ==> r.Panicked?
    ensures !ColumnsInRange(thickness, minimum, shape.x, shape.z) ==> r.Panicked?
    ensures GeneratesMap(elevation, thickness, seaLevel, minimum, shape) ==> r.Ok?
    ensures r.Ok? ==>
      && fresh(r.value)
      && r.value.Length0 == shape.x && r.value.Length1 == shape.y && r.value.Length2 == shape.z
      && Flooded(r.value, minimum, MapWaterGenerator(seaLevel, minimum, shape), elevation, thickness, water, paths)
  {
    water, paths := {}, map[];
    if !ColumnsInRange(elevation, minimum, shape.x, shape.z) {
      return Panicked, water, paths;
    }
    var a := new CubeVoxel[shape.x, shape.y, shape.z]((i, j, k) => Air);
    var ok := FillStrata(a, minimum, elevation, thickness);
    if !ok {
      return Panicked, water, paths;
    }
    var g := MapWaterGenerator(seaLevel, minimum, shape);
    ok, water, paths := FloodStrata(a, minimum, g, elevation, thickness);
    if !ok {
      assert !GeneratesMap(elevation, thickness, seaLevel, minimum, shape) by {
        if GeneratesMap(elevation, thickness, seaLevel, minimum, shape) {
          assert g.SafeMap(a, minimum);
        }
      }
      return Panicked, water, paths;
    }
    return Ok(a), water, paths;
  }

}
