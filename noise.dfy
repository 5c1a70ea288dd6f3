/** Column strata sampling (src/noise.rs): the two noise samplers rescaled
    to an elevation and a dirt thickness, the rule that picks a voxel from
    the two transition heights, and the column iterator that yields one
    voxel per height. The noise functions themselves are foreign: the model
    takes their raw outputs as inputs. */
module Noise {
  import opened Common
  import opened Voxel
  import opened Numeric

  const MIN_WATER_LEVEL: real := -128.0
  const MAX_MOUNTAIN_HEIGHT: real := 128.0

  /** `HeightMapSampler::sample_elevation`: the noise value rescaled from
      `[-1, 1]` to `[-128, 128]` and rounded; `None` is the panic raised by
      `scale` for a noise value outside `[-1, 1]`. */
  function SampleElevation(noise: real): (r: Option<int>)
    ensures r.Some? <==> -1.0 <= noise <= 1.0
    ensures r.Some? ==> -128 <= r.value <= 128
    ensures noise == -1.0 ==> r == Some(-128)
    ensures noise == 1.0 ==> r == Some(128)
  {
    match Scale(noise, -1.0, 1.0, MIN_WATER_LEVEL, MAX_MOUNTAIN_HEIGHT)
    case None => None
    case Some(h) =>
      ConversionsStayInRange(h, -128, 128);
      AffineEndpoints(-1.0, 1.0, MIN_WATER_LEVEL, MAX_MOUNTAIN_HEIGHT);
      Some(Round(h))
  }

  /** `DirtThicknessSampler::sample_dirt_thickness`: the noise value rescaled
      from `[-1, 1]` to `[-2, 5]`; `None` is the panic of `scale`. */
  function SampleDirtThickness(noise: real): (r: Option<real>)
    ensures r.Some? <==> -1.0 <= noise <= 1.0
    ensures r.Some? ==> -2.0 <= r.value <= 5.0
  {
    Scale(noise, -1.0, 1.0, -2.0, 5.0)
  }

  /** The dirt thickness as the column generator uses it, truncated by `as i32`. */
  lemma TruncatedThicknessRange(noise: real)
    requires -1.0 <= noise <= 1.0
    ensures -2 <= Trunc(SampleDirtThickness(noise).value) <= 5
  {
    ConversionsStayInRange(SampleDirtThickness(noise).value, -2, 5);
  }

  /** `StrataSampler::sample_voxel`: stone up to and including the stone
      transition, grass up to and including the dirt transition, air above. */
  function SampleVoxel(stoneTransition: int, dirtTransition: int, y: int): CubeVoxel
  {
    if y <= stoneTransition then Stone
    else if y <= dirtTransition then Grass
    else Air
  }

  /** The three layers in terms of the transition heights: a negative dirt
      thickness (stone transition above the dirt transition) leaves no grass,
      and air starts above the higher of the two transitions. */
  lemma SampleVoxelLayers(stoneTransition: int, dirtTransition: int, y: int)
    ensures SampleVoxel(stoneTransition, dirtTransition, y) in {Stone, Grass, Air}
    ensures SampleVoxel(stoneTransition, dirtTransition, y) == Air <==> y > Max(stoneTransition, dirtTransition)
    ensures SampleVoxel(stoneTransition, dirtTransition, y) == Grass <==> stoneTransition < y <= dirtTransition
    ensures SampleVoxel(stoneTransition, dirtTransition, y) == Stone <==> y <= stoneTransition
  {
  }

  /** Layer order: stone below grass below air. */
  function LayerRank(v: CubeVoxel): nat
  {
    match v
    case Stone => 0
    case Grass => 1
    case _ => 2
  }

  /** Going up a column never goes down a layer. */
  lemma SampleVoxelMonotone(stoneTransition: int, dirtTransition: int, y: int, y': int)
    requires y <= y'
    ensures LayerRank(SampleVoxel(stoneTransition, dirtTransition, y))
         <= LayerRank(SampleVoxel(stoneTransition, dirtTransition, y'))
  {
  }

  /** What a column iterator over heights `lo..hi` (half open) yields,
      one voxel per call of `next`, from the bottom up. */
  function ColumnItems(stoneTransition: int, dirtTransition: int, lo: int, hi: int): seq<CubeVoxel>
    decreases hi - lo
  {
    if lo >= hi then []
    else [SampleVoxel(stoneTransition, dirtTransition, lo)] + ColumnItems(stoneTransition, dirtTransition, lo + 1, hi)
  }

  /** A column over `lo..hi` yields `max(0, hi - lo)` voxels, the i-th of
      which is the voxel sampled at height `lo + i`. */
  lemma {:induction false} ColumnItemsAt(stoneTransition: int, dirtTransition: int, lo: int, hi: int)
    ensures |ColumnItems(stoneTransition, dirtTransition, lo, hi)| == Max(0, hi - lo)
    ensures forall i :: 0 <= i < |ColumnItems(stoneTransition, dirtTransition, lo, hi)| ==>
              ColumnItems(stoneTransition, dirtTransition, lo, hi)[i] == SampleVoxel(stoneTransition, dirtTransition, lo + i)
    decreases hi - lo
  {
    if lo < hi {
      ColumnItemsAt(stoneTransition, dirtTransition, lo + 1, hi);
    }
  }

  /** The yielded sequence has the shape Stone* Grass* Air*: the layer never
      goes down, so once `Air` appears every later item is `Air`. */
  lemma ColumnItemsLayered(stoneTransition: int, dirtTransition: int, lo: int, hi: int, i: int, j: int)
    requires 0 <= i <= j < |ColumnItems(stoneTransition, dirtTransition, lo, hi)|
    ensures LayerRank(ColumnItems(stoneTransition, dirtTransition, lo, hi)[i])
         <= LayerRank(ColumnItems(stoneTransition, dirtTransition, lo, hi)[j])
    ensures ColumnItems(stoneTransition, dirtTransition, lo, hi)[i] == Air ==>
              ColumnItems(stoneTransition, dirtTransition, lo, hi)[j] == Air
  {
    ColumnItemsAt(stoneTransition, dirtTransition, lo, hi);
    SampleVoxelMonotone(stoneTransition, dirtTransition, lo + i, lo + j);
  }

  /** `VoxelColumn`: the transition heights of one column and the range of
      heights still to be yielded. */
  class VoxelColumn {
    const dirtTransition: int
    const stoneTransition: int
    /** `range.start`: the next height to yield. */
    var start: int
    /** `range.end`: one past the last height. */
    const end: int

    /** The voxels the iterator has yet to yield. */
    ghost function Remaining(): seq<CubeVoxel>
      reads this
    {
      ColumnItems(stoneTransition, dirtTransition, start, end)
    }

    constructor (stoneTransition: int, dirtTransition: int, minY: int, maxY: int)
      ensures this.stoneTransition == stoneTransition && this.dirtTransition == dirtTransition
      ensures start == minY && end == maxY
    {
      this.stoneTransition := stoneTransition;
      this.dirtTransition := dirtTransition;
      this.start := minY;
      this.end := maxY;
    }

    /** `VoxelColumn::new`: samples the column's dirt thickness and elevation
        once (the raw noise values are the inputs) and derives the stone
        transition; panics, as `scale` does, when a noise value lies outside
        `[-1, 1]`. */
    static method New(thicknessNoise: real, elevationNoise: real, minY: int, maxY: int)
      returns (r: Result<VoxelColumn>)
      ensures r.Ok? <==> -1.0 <= thicknessNoise <= 1.0 && -1.0 <= elevationNoise <= 1.0
      ensures r.Ok? ==>
        && fresh(r.value)
        && r.value.dirtTransition == SampleElevation(elevationNoise).value
        && r.value.stoneTransition == r.value.dirtTransition - Trunc(SampleDirtThickness(thicknessNoise).value)
        && r.value.Remaining() == ColumnItems(r.value.stoneTransition, r.value.dirtTransition, minY, maxY)
    {
      var thickness := SampleDirtThickness(thicknessNoise);
      if thickness.None? {
        return Panicked;
      }
      var dirtThickness := Trunc(thickness.value);
      var elevation := SampleElevation(elevationNoise);
      if elevation.None? {
        return Panicked;
      }
      var dirtTransition := elevation.value;
      var column := new VoxelColumn(dirtTransition - dirtThickness, dirtTransition, minY, maxY);
      return Ok(column);
    }

    /** `Iterator::next`: yields the voxel at the next height and advances,
        or returns `None` once the range is exhausted. */
    method Next() returns (r: Option<CubeVoxel>)
      modifies this
      ensures old(Remaining()) == [] ==> r == None && Remaining() == []
      ensures old(Remaining()) != [] ==> r == Some(old(Remaining())[0]) && Remaining() == old(Remaining())[1..]
    {
      if start < end {
        var y := start;
        start := start + 1;
        r := Some(SampleVoxel(stoneTransition, dirtTransition, y));
      } else {
        r := None;
      }
    }
  }
}
