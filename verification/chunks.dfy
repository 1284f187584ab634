/** One chunk of Chunk.cs: generation, and place, remove and read at world
    positions, each edit followed by a rebuild of the mesh from scratch. */
module Chunks {
  import opened Wrappers
  import opened Blocks
  import opened Coords
  import opened HeightField
  import opened Voxels
  import opened Mesher

  /** A chunk: its coordinate, its volume and the mesh last handed to the
      renderer. A rebuild clears that mesh first and uploads the buffers
      only when the build finishes, so a throwing build leaves it empty. */
  datatype Chunk = Chunk(position: Coord, volume: Volume, mesh: Mesh)

  /** The state every chunk keeps: dimensions right and nothing solid above
      any column's recorded height. */
  ghost predicate Sound(c: Chunk) {
    Valid(c.volume) && NothingAboveSurface(c.volume)
  }

  /** The per-column heights `GetHeightAtCord` gives the chunk at `position`. */
  function Columns(terrain: Terrain, offset: Coord, position: Coord, size: nat): (int, int) -> int {
    (x, z) => ColumnHeight(terrain, offset, position, size, x, z)
  }

  /** Some column of the chunk is at least as high as its top layer. */
  ghost predicate ReachesTop(column: (int, int) -> int, size: nat) {
    exists x, z :: 0 <= x < size && 0 <= z < size && Height(size) > 0 && column(x, z) >= Height(size) - 1
  }

  /** `Chunk.GenerateChunk`: fill the volume, then build the mesh. A column
      reaching the top layer makes the build throw, leaving the filled
      volume with no mesh. */
  function GenerateChunk(position: Coord, size: nat, terrain: Terrain, offset: Coord): (r: Outcome<Chunk>)
    ensures r.state.position == position && Sound(r.state)
    ensures GeneratedFrom(r.state.volume, size, Columns(terrain, offset, position, size))
    ensures r.Threw? <==> ReachesTop(Columns(terrain, offset, position, size), size)
    ensures r.Completed? ==> WellFormed(r.state.mesh) && BuildMesh(r.state.volume, position) == Ok(r.state.mesh)
    ensures r.Threw? ==> r.state.mesh == Empty
  {
    var column := Columns(terrain, offset, position, size);
    var v := Fill(size, column);
    GeneratedSurface(v, size, column);
    BuildMeshFails(v, position);
    GeneratedTopLayer(v, size, column);
    match BuildMesh(v, position)
    case Ok(m) => Completed(Chunk(position, v, m))
    case Err(e) => Threw(Chunk(position, v, Empty), e)
  }

  /** A generated volume's top layer holds a solid voxel exactly when some
      column reaches it. */
  lemma GeneratedTopLayer(v: Volume, size: nat, column: (int, int) -> int)
    requires GeneratedFrom(v, size, column)
    ensures TopLayerSolid(v) <==> ReachesTop(column, size)
  {
    if ReachesTop(column, size) {
      var x, z :| 0 <= x < size && 0 <= z < size && Height(size) > 0 && column(x, z) >= Height(size) - 1;
      TopVoxel(v, size, column, x, z);
      assert InColumns(v, x, z);
    }
    if TopLayerSolid(v) {
      var x, z :| InColumns(v, x, z) && Height(v.size) > 0 && At(v, x, Height(v.size) - 1, z) != Air;
      TopVoxel(v, size, column, x, z);
    }
  }

  lemma TopVoxel(v: Volume, size: nat, column: (int, int) -> int, x: int, z: int)
    requires GeneratedFrom(v, size, column) && InColumns(v, x, z) && Height(size) > 0
    ensures At(v, x, Height(size) - 1, z) != Air <==> column(x, z) >= Height(size) - 1
  {
  }

  /** `DestroyMesh` then `GenerateMesh`: the buffers are cleared and refilled
      from the volume alone; a throwing build leaves them cleared. */
  function Rebuild(c: Chunk): (r: Outcome<Chunk>)
    requires Valid(c.volume)
    ensures r.state.position == c.position && r.state.volume == c.volume
    ensures r.Completed? ==> BuildMesh(c.volume, c.position) == Ok(r.state.mesh) && WellFormed(r.state.mesh)
    ensures r.Threw? ==> BuildMesh(c.volume, c.position).Err? && r.state.mesh == Empty
  {
    match BuildMesh(c.volume, c.position)
    case Ok(m) => Completed(c.(mesh := m))
    case Err(e) => Threw(c.(mesh := Empty), e)
  }

  /** The local coordinates of world position `p` in chunk `c`. */
  function LocalOf(c: Chunk, p: Pos): Pos {
    Local(p, c.position, c.volume.size)
  }

  /** `Chunk.GetBlockAt`. */
  function GetBlockAt(c: Chunk, p: Pos): (r: Result<BlockType>)
    requires Valid(c.volume)
    ensures var l := LocalOf(c, p);
      r.Err? <==> !InBounds(c.volume, l.x, l.y, l.z)
    ensures var l := LocalOf(c, p);
      r.Ok? ==> r.value == At(c.volume, l.x, l.y, l.z)
  {
    var l := LocalOf(c, p);
    Get(c.volume, l.x, l.y, l.z)
  }

  /** `Chunk.PlaceBlockAt`: store the voxel (throwing outside the array,
      before the source's own bounds test is reached), raise the column's
      height to at least `y`, rebuild the mesh. */
  function PlaceBlockAt(c: Chunk, p: Pos, t: BlockType): (r: Outcome<Chunk>)
    requires Sound(c)
    ensures var l := LocalOf(c, p);
      !InBounds(c.volume, l.x, l.y, l.z) ==> r == Threw(c, IndexOutOfRange)
    ensures Sound(r.state) && r.state.position == c.position && r.state.volume.size == c.volume.size
    ensures var l := LocalOf(c, p);
      InBounds(c.volume, l.x, l.y, l.z) ==> GetBlockAt(r.state, p) == Ok(t)
    ensures var l := LocalOf(c, p);
      InBounds(c.volume, l.x, l.y, l.z) ==>
        forall i, j, k :: InBounds(c.volume, i, j, k) && (i, j, k) != (l.x, l.y, l.z) ==>
          At(r.state.volume, i, j, k) == At(c.volume, i, j, k)
    ensures var l := LocalOf(c, p);
      InBounds(c.volume, l.x, l.y, l.z) ==> (r.Completed? <==> !TopLayerSolid(r.state.volume))
    ensures r.Completed? ==> BuildMesh(r.state.volume, c.position) == Ok(r.state.mesh)
  {
    var l := LocalOf(c, p);
    match Place(c.volume, l.x, l.y, l.z, t)
    case Err(e) => Threw(c, e)
    case Ok(v) =>
      PlaceKeepsSurface(c.volume, l.x, l.y, l.z, t);
      BuildMeshFails(v, c.position);
      Rebuild(c.(volume := v))
  }

  /** `Chunk.RemoveBlockAt`: clear the voxel (throwing outside the array),
      rescan the column's height when the voxel was its top, rebuild. */
  function RemoveBlockAt(c: Chunk, p: Pos): (r: Outcome<Chunk>)
    requires Sound(c)
    ensures var l := LocalOf(c, p);
      !InBounds(c.volume, l.x, l.y, l.z) ==> r == Threw(c, IndexOutOfRange)
    ensures Sound(r.state) && r.state.position == c.position && r.state.volume.size == c.volume.size
    ensures var l := LocalOf(c, p);
      InBounds(c.volume, l.x, l.y, l.z) ==> GetBlockAt(r.state, p) == Ok(Air)
    ensures var l := LocalOf(c, p);
      InBounds(c.volume, l.x, l.y, l.z) ==>
        forall i, j, k :: InBounds(c.volume, i, j, k) && (i, j, k) != (l.x, l.y, l.z) ==>
          At(r.state.volume, i, j, k) == At(c.volume, i, j, k)
    ensures var l := LocalOf(c, p);
      InBounds(c.volume, l.x, l.y, l.z) ==> (r.Completed? <==> !TopLayerSolid(r.state.volume))
    ensures r.Completed? ==> BuildMesh(r.state.volume, c.position) == Ok(r.state.mesh)
  {
    var l := LocalOf(c, p);
    match Remove(c.volume, l.x, l.y, l.z)
    case Err(e) => Threw(c, e)
    case Ok(v) =>
      RemoveKeepsSurface(c.volume, l.x, l.y, l.z);
      BuildMeshFails(v, c.position);
      Rebuild(c.(volume := v))
  }

  /** Placing a solid block in the top layer always throws during the
      rebuild (its up-face reads past the array); the stored voxel stays. */
  lemma PlaceOnTopLayerThrows(c: Chunk, p: Pos, t: BlockType)
    requires Sound(c) && t != Air
    requires var l := LocalOf(c, p); InBounds(c.volume, l.x, l.y, l.z) && l.y == Height(c.volume.size) - 1
    ensures PlaceBlockAt(c, p, t).Threw?
    ensures GetBlockAt(PlaceBlockAt(c, p, t).state, p) == Ok(t)
  {
    var l := LocalOf(c, p);
    var r := PlaceBlockAt(c, p, t);
    assert InColumns(r.state.volume, l.x, l.z) && At(r.state.volume, l.x, Height(c.volume.size) - 1, l.z) != Air;
  }
}
