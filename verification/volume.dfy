/** The per-chunk block volume and height-map of Chunk.cs: generation from
    a per-column height, single-voxel place and remove with incremental
    height-map maintenance, and reads. Coordinates here are chunk-local. */
module Voxels {
  import opened Wrappers
  import opened Blocks

  /** Number of vertical layers of a chunk of width `size`. */
  function Height(size: nat): nat {
    size * size / 2
  }

  /** A chunk has half as many layers as a layer has voxels, rounded down. */
  lemma HeightHalvesLayer(size: nat)
    ensures 2 * Height(size) <= size * size < 2 * Height(size) + 2
  {
  }

  /** The block array `[x][y][z]` and the height-map `[x][z]` of one chunk. */
  datatype Volume = Volume(size: nat, blocks: seq<seq<seq<BlockType>>>, heightMap: seq<seq<int>>)

  /** The arrays have the dimensions `size × Height(size) × size` and `size × size`. */
  ghost predicate Valid(v: Volume) {
    && |v.blocks| == v.size
    && (forall x :: 0 <= x < v.size ==> |v.blocks[x]| == Height(v.size))
    && (forall x, y :: 0 <= x < v.size && 0 <= y < Height(v.size) ==> |v.blocks[x][y]| == v.size)
    && |v.heightMap| == v.size
    && (forall x :: 0 <= x < v.size ==> |v.heightMap[x]| == v.size)
  }

  predicate InBounds(v: Volume, x: int, y: int, z: int) {
    0 <= x < v.size && 0 <= y < Height(v.size) && 0 <= z < v.size
  }

  predicate InColumns(v: Volume, x: int, z: int) {
    0 <= x < v.size && 0 <= z < v.size
  }

  function At(v: Volume, x: int, y: int, z: int): BlockType
    requires Valid(v) && InBounds(v, x, y, z)
  {
    v.blocks[x][y][z]
  }

  function Surface(v: Volume, x: int, z: int): int
    requires Valid(v) && InColumns(v, x, z)
  {
    v.heightMap[x][z]
  }

  /** The height-map invariant: every voxel above its column's recorded
      height is air. */
  ghost predicate NothingAboveSurface(v: Volume)
    requires Valid(v)
  {
    forall x, y, z :: InBounds(v, x, y, z) && y > Surface(v, x, z) ==> At(v, x, y, z) == Air
  }

  /** The generation rule for one voxel of a column of height `h`. */
  function Classify(h: int, y: int): (b: BlockType)
    ensures b == Air <==> y > h
    ensures b == Stone <==> y < h
    ensures y == h ==> (b == Snow <==> h > 100)
  {
    if y > h then Air
    else if y == h then (if h > 100 then Snow else Grass)
    else Stone
  }

  /** `v` is the volume generated from the column heights `column(x, z)`. */
  ghost predicate GeneratedFrom(v: Volume, size: nat, column: (int, int) -> int) {
    && v.size == size
    && Valid(v)
    && (forall x, y, z :: InBounds(v, x, y, z) && y > column(x, z) ==> At(v, x, y, z) == Air)
    && (forall x, y, z :: InBounds(v, x, y, z) && y == column(x, z) ==>
          At(v, x, y, z) == (if column(x, z) > 100 then Snow else Grass))
    && (forall x, y, z :: InBounds(v, x, y, z) && y < column(x, z) ==> At(v, x, y, z) == Stone)
    && (forall x, z :: InColumns(v, x, z) ==> Surface(v, x, z) == column(x, z))
  }

  /** The generated volume as a value. */
  function Fill(size: nat, column: (int, int) -> int): (v: Volume)
    ensures GeneratedFrom(v, size, column)
  {
    FillGenerated(size, column);
    Volume(size, FillBlocks(size, column), FillHeights(size, column))
  }

  function FillBlocks(size: nat, column: (int, int) -> int): seq<seq<seq<BlockType>>> {
    seq(size, x => seq(Height(size), y => seq(size, z => Classify(column(x, z), y))))
  }

  function FillHeights(size: nat, column: (int, int) -> int): seq<seq<int>> {
    seq(size, x => seq(size, z => column(x, z)))
  }

  lemma FillGenerated(size: nat, column: (int, int) -> int)
    ensures GeneratedFrom(Volume(size, FillBlocks(size, column), FillHeights(size, column)), size, column)
  {
    var v := Volume(size, FillBlocks(size, column), FillHeights(size, column));
    forall x | 0 <= x < size
      ensures |v.blocks[x]| == Height(size) && |v.heightMap[x]| == size
    {
    }
    forall x, y | 0 <= x < size && 0 <= y < Height(size)
      ensures |v.blocks[x][y]| == size
    {
    }
    assert Valid(v);
    forall x, y, z | InBounds(v, x, y, z)
      ensures At(v, x, y, z) == Classify(column(x, z), y)
    {
    }
  }

  /** Generation as the source performs it: x, then z, then y, into dense arrays. */
  method GenerateChunkData(size: nat, column: (int, int) -> int) returns (v: Volume)
    ensures GeneratedFrom(v, size, column)
  {
    var height := Height(size);
    var data := new BlockType[size, height, size];
    var heights := new int[size, size];
    for x := 0 to size
      invariant ColumnsDone(data, heights, column, x, 0)
    {
      for z := 0 to size
        invariant ColumnsDone(data, heights, column, x, z)
      {
        FillColumn(data, heights, column, x, z);
      }
    }
    v := Freeze(data, heights);
  }

  /** Every column before (x, z) in x-then-z order holds its generated contents. */
  ghost predicate ColumnsDone(data: array3<BlockType>, heights: array2<int>, column: (int, int) -> int, x: int, z: int)
    reads data, heights
  {
    && data.Length0 == heights.Length0 && data.Length2 == heights.Length1
    && (forall i, j, k | 0 <= i < data.Length0 && 0 <= j < data.Length1 && 0 <= k < data.Length2 ::
          (i < x || (i == x && k < z)) ==> data[i, j, k] == Classify(column(i, k), j))
    && (forall i, k | 0 <= i < heights.Length0 && 0 <= k < heights.Length1 ::
          (i < x || (i == x && k < z)) ==> heights[i, k] == column(i, k))
  }

  /** The innermost loop over y for one column, then its height-map entry. */
  method FillColumn(data: array3<BlockType>, heights: array2<int>, column: (int, int) -> int, x: int, z: int)
    requires 0 <= x < data.Length0 && 0 <= z < data.Length2
    requires ColumnsDone(data, heights, column, x, z)
    modifies data, heights
    ensures ColumnsDone(data, heights, column, x, z + 1)
  {
    var h := column(x, z);
    for y := 0 to data.Length1
      invariant ColumnsDone(data, heights, column, x, z)
      invariant forall j :: 0 <= j < y ==> data[x, j, z] == Classify(h, j)
    {
      data[x, y, z] := Classify(h, y);
    }
    heights[x, z] := h;
  }

  /** The arrays as a volume value. */
  method Freeze(data: array3<BlockType>, heights: array2<int>) returns (v: Volume)
    requires data.Length0 == data.Length2 == heights.Length0 == heights.Length1
    requires data.Length1 == Height(data.Length0)
    ensures Valid(v) && v.size == data.Length0
    ensures forall i, j, k :: InBounds(v, i, j, k) ==> At(v, i, j, k) == data[i, j, k]
    ensures forall i, k :: InColumns(v, i, k) ==> Surface(v, i, k) == heights[i, k]
  {
    v := Volume(data.Length0,
      seq(data.Length0, i requires 0 <= i < data.Length0 reads data =>
        seq(data.Length1, j requires 0 <= j < data.Length1 reads data =>
          seq(data.Length2, k requires 0 <= k < data.Length2 reads data => data[i, j, k]))),
      seq(heights.Length0, i requires 0 <= i < heights.Length0 reads heights =>
        seq(heights.Length1, k requires 0 <= k < heights.Length1 reads heights => heights[i, k])));
  }

  /** A generated volume: a voxel is air exactly above its column's height,
      and the height-map invariant holds. */
  lemma GeneratedSurface(v: Volume, size: nat, column: (int, int) -> int)
    requires GeneratedFrom(v, size, column)
    ensures NothingAboveSurface(v)
    ensures forall x, y, z :: InBounds(v, x, y, z) ==> (At(v, x, y, z) == Air <==> y > column(x, z))
  {
  }

  /** Generation is determined by the column heights. */
  lemma GeneratedUnique(v: Volume, w: Volume, size: nat, column: (int, int) -> int)
    requires GeneratedFrom(v, size, column) && GeneratedFrom(w, size, column)
    ensures v == w
  {
    forall x | 0 <= x < size
      ensures v.blocks[x] == w.blocks[x] && v.heightMap[x] == w.heightMap[x]
    {
      forall y | 0 <= y < Height(size)
        ensures v.blocks[x][y] == w.blocks[x][y]
      {
        assert |v.blocks[x][y]| == |w.blocks[x][y]| == size;
        forall z | 0 <= z < size
          ensures v.blocks[x][y][z] == w.blocks[x][y][z]
        {
          assert At(v, x, y, z) == At(w, x, y, z);
        }
      }
      assert |v.blocks[x]| == |w.blocks[x]| == Height(size);
      assert |v.heightMap[x]| == |w.heightMap[x]| == size;
      forall z | 0 <= z < size
        ensures v.heightMap[x][z] == w.heightMap[x][z]
      {
        assert Surface(v, x, z) == Surface(w, x, z);
      }
    }
  }

  /** `Chunk.GetBlockAt` on local coordinates: indexing outside the array throws. */
  function Get(v: Volume, x: int, y: int, z: int): (r: Result<BlockType>)
    requires Valid(v)
    ensures r.Err? <==> !InBounds(v, x, y, z)
    ensures r.Ok? ==> r.value == At(v, x, y, z)
  {
    if InBounds(v, x, y, z) then Ok(v.blocks[x][y][z]) else Err(IndexOutOfRange)
  }

  /** The array store `_chunkData[x, y, z] = t`. */
  function Store(v: Volume, x: int, y: int, z: int, t: BlockType): (w: Volume)
    requires Valid(v) && InBounds(v, x, y, z)
    ensures Valid(w) && w.size == v.size && w.heightMap == v.heightMap
    ensures At(w, x, y, z) == t
    ensures forall i, j, k :: InBounds(v, i, j, k) && (i, j, k) != (x, y, z) ==> At(w, i, j, k) == At(v, i, j, k)
  {
    v.(blocks := v.blocks[x := v.blocks[x][y := v.blocks[x][y][z := t]]])
  }

  /** The height-map store `_heightMap[x, z] = h`. */
  function SetSurface(v: Volume, x: int, z: int, h: int): (w: Volume)
    requires Valid(v) && InColumns(v, x, z)
    ensures Valid(w) && w.size == v.size && w.blocks == v.blocks
    ensures Surface(w, x, z) == h
    ensures forall i, k :: InColumns(v, i, k) && (i, k) != (x, z) ==> Surface(w, i, k) == Surface(v, i, k)
  {
    v.(heightMap := v.heightMap[x := v.heightMap[x][z := h]])
  }

  /** The voxel edit of `Chunk.PlaceBlockAt`: the store throws outside the
      array; otherwise the column's height becomes the maximum of the old
      height and `y`. */
  function Place(v: Volume, x: int, y: int, z: int, t: BlockType): (r: Result<Volume>)
    requires Valid(v)
    ensures r.Err? <==> !InBounds(v, x, y, z)
    ensures r.Ok? ==> Valid(r.value) && r.value.size == v.size
    ensures r.Ok? ==> At(r.value, x, y, z) == t
    ensures r.Ok? ==> Surface(r.value, x, z) == if y > Surface(v, x, z) then y else Surface(v, x, z)
    ensures r.Ok? ==> forall i, j, k :: InBounds(v, i, j, k) && (i, j, k) != (x, y, z) ==>
      At(r.value, i, j, k) == At(v, i, j, k)
    ensures r.Ok? ==> forall i, k :: InColumns(v, i, k) && (i, k) != (x, z) ==>
      Surface(r.value, i, k) == Surface(v, i, k)
  {
    if !InBounds(v, x, y, z) then Err(IndexOutOfRange)
    else
      var stored := Store(v, x, y, z, t);
      if y > stored.heightMap[x][z] then Ok(SetSurface(stored, x, z, y)) else Ok(stored)
  }

  /** The source tests `y > _height || y < 0` only after the store, which has
      already thrown for every such `y`: the test never fires, and the
      boundary layer `y == Height` (which `>` would let through) is rejected
      by the store. */
  lemma PlaceBoundsCheckUnreachable(v: Volume, x: int, y: int, z: int, t: BlockType)
    requires Valid(v)
    ensures Place(v, x, y, z, t).Ok? ==> !(y > Height(v.size) || y < 0)
    ensures y == Height(v.size) ==> Place(v, x, y, z, t).Err?
  {
  }

  /** Reading back a placed voxel yields the placed type. */
  lemma GetAfterPlace(v: Volume, x: int, y: int, z: int, t: BlockType)
    requires Valid(v) && Place(v, x, y, z, t).Ok?
    ensures Get(Place(v, x, y, z, t).value, x, y, z) == Ok(t)
  {
  }

  /** Placing keeps every voxel above its column's height air. */
  lemma PlaceKeepsSurface(v: Volume, x: int, y: int, z: int, t: BlockType)
    requires Valid(v) && NothingAboveSurface(v)
    ensures Place(v, x, y, z, t).Ok? ==> NothingAboveSurface(Place(v, x, y, z, t).value)
  {
  }

  /** `h` is the height the removal rescan should find below layer `y` of
      column (x, z): the highest solid voxel under `y`, or 0 when there is none. */
  ghost predicate HighestSolidBelow(v: Volume, x: int, z: int, y: int, h: int)
    requires Valid(v) && InColumns(v, x, z) && y <= Height(v.size)
  {
    || (0 <= h < y && At(v, x, h, z) != Air && forall j :: h < j < y ==> At(v, x, j, z) == Air)
    || (h == 0 && forall j :: 0 <= j < y ==> At(v, x, j, z) == Air)
  }

  /** The downward rescan loop of `Chunk.RemoveBlockAt`, starting at layer
      `ny` with recorded height `current`: the first solid voxel sets the
      height and stops; reaching layer 0 without one sets it to 0; a loop
      that never runs leaves `current`. */
  function Rescan(v: Volume, x: int, z: int, ny: int, current: int): (h: int)
    requires Valid(v) && InColumns(v, x, z) && ny < Height(v.size)
    requires ny >= 0 || current == 0
    ensures HighestSolidBelow(v, x, z, ny + 1, h)
    decreases ny
  {
    if ny < 0 then current
    else if v.blocks[x][ny][z] != Air then ny
    else if ny == 0 then 0
    else Rescan(v, x, z, ny - 1, current)
  }

  /** The voxel edit of `Chunk.RemoveBlockAt`: the store throws outside the
      array; otherwise the voxel becomes air, and when it sat at its
      column's recorded height, that height drops to the highest solid
      voxel below it (0 if none). */
  function Remove(v: Volume, x: int, y: int, z: int): (r: Result<Volume>)
    requires Valid(v)
    ensures r.Err? <==> !InBounds(v, x, y, z)
    ensures r.Ok? ==> Valid(r.value) && r.value.size == v.size
    ensures r.Ok? ==> At(r.value, x, y, z) == Air
    ensures r.Ok? ==> forall i, j, k :: InBounds(v, i, j, k) && (i, j, k) != (x, y, z) ==>
      At(r.value, i, j, k) == At(v, i, j, k)
    ensures r.Ok? && y == Surface(v, x, z) ==> HighestSolidBelow(v, x, z, y, Surface(r.value, x, z))
    ensures r.Ok? && y != Surface(v, x, z) ==> Surface(r.value, x, z) == Surface(v, x, z)
    ensures r.Ok? ==> forall i, k :: InColumns(v, i, k) && (i, k) != (x, z) ==>
      Surface(r.value, i, k) == Surface(v, i, k)
  {
    if !InBounds(v, x, y, z) then Err(IndexOutOfRange)
    else
      var cleared := Store(v, x, y, z, Air);
      if y == cleared.heightMap[x][z] then
        Ok(SetSurface(cleared, x, z, Rescan(cleared, x, z, y - 1, cleared.heightMap[x][z])))
      else Ok(cleared)
  }

  /** Reading back a removed voxel yields air. */
  lemma GetAfterRemove(v: Volume, x: int, y: int, z: int)
    requires Valid(v)
    requires Remove(v, x, y, z).Ok?
    ensures Get(Remove(v, x, y, z).value, x, y, z) == Ok(Air)
  {
  }

  /** Removing keeps every voxel above its column's height air. */
  lemma RemoveKeepsSurface(v: Volume, x: int, y: int, z: int)
    requires Valid(v) && NothingAboveSurface(v)
    ensures Remove(v, x, y, z).Ok? ==> NothingAboveSurface(Remove(v, x, y, z).value)
  {
  }
}
