/** The mesher of Chunk.cs: face visibility, quad emission from the face
    templates, and the x-z-y scan that stops above each column's height. */
module Mesher {
  import opened Wrappers
  import opened Seqs
  import opened Blocks
  import opened Faces
  import opened Coords
  import opened Voxels

  /** The four vertex buffers of a chunk mesh. */
  datatype Mesh = Mesh(vertices: seq<Vec3>, triangles: seq<int>, uv: seq<UV>, colors: seq<Tint>)

  /** The buffers after `DestroyMesh` (and of a freshly created mesh). */
  const Empty: Mesh := Mesh([], [], [], [])

  /** Buffers that form a renderable mesh: one UV and one colour per
      vertex, six indices per quad of four vertices, every index naming an
      existing vertex. */
  ghost predicate WellFormed(m: Mesh) {
    && |m.uv| == |m.vertices| && |m.colors| == |m.vertices|
    && |m.vertices| % 4 == 0 && |m.triangles| == |m.vertices| / 4 * 6
    && forall i :: 0 <= i < |m.triangles| ==> 0 <= m.triangles[i] < |m.vertices|
  }

  /** `m` begins with the buffers of `prefix`. */
  ghost predicate Extends(m: Mesh, prefix: Mesh) {
    && prefix.vertices <= m.vertices && prefix.triangles <= m.triangles
    && prefix.uv <= m.uv && prefix.colors <= m.colors
  }

  /** Whether the face of voxel (x, y, z) in direction `d` is drawn. Faces
      below the floor are hidden, faces on the chunk's side walls are always
      drawn, and any other face is drawn when its neighbour is air. Nothing
      guards the ceiling: the up-face of the top layer reads one layer past
      the array and throws. */
  function IsFaceVisible(v: Volume, x: int, y: int, z: int, d: Dir): (r: Result<bool>)
    requires Valid(v) && InBounds(v, x, y, z)
    ensures r.Err? <==> d == Up && y == Height(v.size) - 1
    ensures d == Down && y == 0 ==> r == Ok(false)
    ensures var n := Normal(d);
      !InColumns(v, x + n.x, z + n.z) ==> r == Ok(true)
    ensures var n := Normal(d);
      InBounds(v, x + n.x, y + n.y, z + n.z) ==> r == Ok(At(v, x + n.x, y + n.y, z + n.z) == Air)
  {
    var n := Normal(d);
    if y + n.y < 0 then Ok(false)
    else if x + n.x < 0 || x + n.x >= v.size || z + n.z < 0 || z + n.z >= v.size then Ok(true)
    else if y + n.y >= Height(v.size) then Err(IndexOutOfRange)
    else Ok(v.blocks[x + n.x][y + n.y][z + n.z] == Air)
  }

  /** Appends one face: the template's four corners moved to (x, y, z),
      four copies of the voxel's colour, the template's six indices shifted
      past the vertices already present, and its four UV corners. */
  function GenerateFace(m: Mesh, x: int, y: int, z: int, d: Dir, c: Tint): (r: Mesh)
    ensures Extends(r, m)
    ensures |r.vertices| == |m.vertices| + 4 && |r.colors| == |m.colors| + 4
    ensures |r.uv| == |m.uv| + 4 && |r.triangles| == |m.triangles| + 6
    ensures forall i :: 0 <= i < 4 ==> r.vertices[|m.vertices| + i] == Add(Template(d).vertices[i], Vec3(x, y, z))
    ensures forall i :: 0 <= i < 6 ==> r.triangles[|m.triangles| + i] == Template(d).triangles[i] + |m.vertices|
    ensures forall i :: 0 <= i < 4 ==> r.colors[|m.colors| + i] == c && r.uv[|m.uv| + i] == Template(d).uv[i]
    ensures WellFormed(m) ==> WellFormed(r)
  {
    TemplateShape(d);
    var f := Template(d);
    var base := |m.vertices|;
    var r := Mesh(
      m.vertices + seq(4, i requires 0 <= i < 4 => Add(f.vertices[i], Vec3(x, y, z))),
      m.triangles + seq(6, i requires 0 <= i < 6 => f.triangles[i] + base),
      m.uv + f.uv,
      m.colors + [c, c, c, c]);
    assert forall i :: 0 <= i < 6 ==> r.triangles[|m.triangles| + i] == f.triangles[i] + base;
    r
  }

  /** The colour `GetColor` gives voxel (x, y, z) of the chunk at `at`:
      grass is shaded by its world column. */
  function VoxelTint(v: Volume, at: Coord, x: int, y: int, z: int): (c: Tint)
    requires Valid(v) && InBounds(v, x, y, z)
    ensures c == Clear <==> At(v, x, y, z) == Air
    ensures c.GrassShade? <==> At(v, x, y, z) == Grass
    ensures c.GrassShade? ==> c == GrassShade(x + at.x * v.size, z + at.z * v.size)
  {
    TintOf(At(v, x, y, z), x + at.x * v.size, z + at.z * v.size)
  }

  /** A face to draw: a voxel and the direction the face points. */
  datatype Face = Face(p: Pos, d: Dir)

  /** The faces of voxel `p` among `dirs` that `IsFaceVisible` admits, in
      the order of `dirs`. */
  function VisibleFaces(v: Volume, p: Pos, dirs: seq<Dir>): (fs: seq<Face>)
    requires Valid(v) && InBounds(v, p.x, p.y, p.z)
    ensures forall f :: f in fs <==> f.p == p && f.d in dirs && IsFaceVisible(v, p.x, p.y, p.z, f.d) == Ok(true)
    decreases |dirs|
  {
    if dirs == [] then []
    else
      var rest := VisibleFaces(v, p, dirs[1..]);
      assert forall d :: d in dirs <==> d == dirs[0] || d in dirs[1..];
      (if IsFaceVisible(v, p.x, p.y, p.z, dirs[0]) == Ok(true) then [Face(p, dirs[0])] else []) + rest
  }

  /** The visible faces of every voxel of `ps`, voxel by voxel: the faces a
      mesh of those voxels should draw. */
  function MeshFaces(v: Volume, ps: seq<Pos>): (fs: seq<Face>)
    requires Valid(v) && forall p :: p in ps ==> InBounds(v, p.x, p.y, p.z)
    ensures forall f :: f in fs <==> f.p in ps && IsFaceVisible(v, f.p.x, f.p.y, f.p.z, f.d) == Ok(true)
    decreases |ps|
  {
    if ps == [] then []
    else
      var rest := MeshFaces(v, ps[1..]);
      EveryDirTested();
      assert forall p :: p in ps <==> p == ps[0] || p in ps[1..];
      VisibleFaces(v, ps[0], FaceOrder) + rest
  }

  /** `FaceOrder` lists every direction. */
  lemma EveryDirTested()
    ensures forall d: Dir :: d in FaceOrder
  {
    forall d: Dir
      ensures d in FaceOrder
    {
      match d
      case Up => assert FaceOrder[0] == d;
      case Down => assert FaceOrder[1] == d;
      case Forward => assert FaceOrder[2] == d;
      case Back => assert FaceOrder[3] == d;
      case Right => assert FaceOrder[4] == d;
      case Left => assert FaceOrder[5] == d;
    }
  }

  /** The buffers `m` with one quad appended per face of `fs`, in order,
      each coloured by its voxel. */
  function Quads(v: Volume, at: Coord, m: Mesh, fs: seq<Face>): (r: Mesh)
    requires Valid(v) && forall f :: f in fs ==> InBounds(v, f.p.x, f.p.y, f.p.z)
    ensures Extends(r, m)
    ensures |r.vertices| == |m.vertices| + 4 * |fs| && |r.triangles| == |m.triangles| + 6 * |fs|
    ensures WellFormed(m) ==> WellFormed(r)
    decreases |fs|
  {
    if fs == [] then m
    else
      var f := fs[0];
      var m' := GenerateFace(m, f.p.x, f.p.y, f.p.z, f.d, VoxelTint(v, at, f.p.x, f.p.y, f.p.z));
      var r := Quads(v, at, m', fs[1..]);
      ExtendsTransitive(r, m', m);
      r
  }

  /** Appending the quads of `a + b` is appending those of `a`, then those of `b`. */
  lemma {:induction false} QuadsAppend(v: Volume, at: Coord, m: Mesh, a: seq<Face>, b: seq<Face>)
    requires Valid(v)
    requires forall f :: f in a ==> InBounds(v, f.p.x, f.p.y, f.p.z)
    requires forall f :: f in b ==> InBounds(v, f.p.x, f.p.y, f.p.z)
    ensures forall f :: f in a + b ==> InBounds(v, f.p.x, f.p.y, f.p.z)
    ensures Quads(v, at, m, a + b) == Quads(v, at, Quads(v, at, m, a), b)
    decreases |a|
  {
    if a == [] {
      assert a + b == b;
    } else {
      var f := a[0];
      var m' := GenerateFace(m, f.p.x, f.p.y, f.p.z, f.d, VoxelTint(v, at, f.p.x, f.p.y, f.p.z));
      assert (a + b)[0] == f && (a + b)[1..] == a[1..] + b;
      QuadsAppend(v, at, m', a[1..], b);
    }
  }

  /** Face `i` of `fs` becomes the `i`-th quad appended: its four corners
      are the template's, moved to its voxel. */
  lemma {:induction false} QuadsPlaceFaces(v: Volume, at: Coord, m: Mesh, fs: seq<Face>, i: nat, k: nat)
    requires Valid(v) && forall f :: f in fs ==> InBounds(v, f.p.x, f.p.y, f.p.z)
    requires i < |fs| && k < 4
    ensures |Template(fs[i].d).vertices| == 4
    ensures Quads(v, at, m, fs).vertices[|m.vertices| + 4 * i + k] ==
      Add(Template(fs[i].d).vertices[k], Vec3(fs[i].p.x, fs[i].p.y, fs[i].p.z))
    decreases |fs|
  {
    TemplateShape(fs[i].d);
    var f := fs[0];
    var m' := GenerateFace(m, f.p.x, f.p.y, f.p.z, f.d, VoxelTint(v, at, f.p.x, f.p.y, f.p.z));
    if i > 0 {
      QuadsPlaceFaces(v, at, m', fs[1..], i - 1, k);
      assert fs[1..][i - 1] == fs[i];
    }
  }

  /** `GenerateVoxel` over the directions `dirs` (the source uses
      `FaceOrder`): each visible face is appended in turn, and the first
      visibility test that throws abandons the voxel. */
  function VoxelFaces(v: Volume, at: Coord, p: Pos, m: Mesh, dirs: seq<Dir>): (r: Result<Mesh>)
    requires Valid(v) && InBounds(v, p.x, p.y, p.z)
    ensures r.Err? <==> Up in dirs && p.y == Height(v.size) - 1
    ensures r.Ok? ==> Extends(r.value, m)
    ensures r.Ok? && WellFormed(m) ==> WellFormed(r.value)
    ensures r.Ok? ==> r.value == Quads(v, at, m, VisibleFaces(v, p, dirs))
    decreases |dirs|
  {
    if dirs == [] then Ok(m)
    else
      match IsFaceVisible(v, p.x, p.y, p.z, dirs[0])
      case Err(e) => Err(e)
      case Ok(visible) =>
        var m' := if visible then GenerateFace(m, p.x, p.y, p.z, dirs[0], VoxelTint(v, at, p.x, p.y, p.z)) else m;
        var r := VoxelFaces(v, at, p, m', dirs[1..]);
        assert Up in dirs <==> dirs[0] == Up || Up in dirs[1..];
        var fs := VisibleFaces(v, p, dirs);
        assert visible ==> fs == [Face(p, dirs[0])] + VisibleFaces(v, p, dirs[1..]);
        assert visible ==> fs[0] == Face(p, dirs[0]) && fs[1..] == VisibleFaces(v, p, dirs[1..]);
        assert !visible ==> fs == VisibleFaces(v, p, dirs[1..]);
        r
  }

  /** The voxels column (x, z) contributes from layer `y` up: the scan stops
      once `y` passes the column's height plus one, and skips air. */
  function ColumnScan(v: Volume, x: int, z: int, y: nat): (ps: seq<Pos>)
    requires Valid(v) && InColumns(v, x, z)
    ensures forall p :: p in ps ==>
      p.x == x && p.z == z && y <= p.y < Height(v.size) && At(v, p.x, p.y, p.z) != Air
    decreases Height(v.size) - y
  {
    if y >= Height(v.size) || Surface(v, x, z) + 1 < y then []
    else (if At(v, x, y, z) == Air then [] else [Pos(x, y, z)]) + ColumnScan(v, x, z, y + 1)
  }

  /** The same column scanned to the top without the early stop. */
  function ColumnScanFull(v: Volume, x: int, z: int, y: nat): seq<Pos>
    requires Valid(v) && InColumns(v, x, z)
    decreases Height(v.size) - y
  {
    if y >= Height(v.size) then []
    else (if At(v, x, y, z) == Air then [] else [Pos(x, y, z)]) + ColumnScanFull(v, x, z, y + 1)
  }

  /** Columns (x, z), (x, z + 1), … of row x, each scanned by `scan`. */
  function RowScan(v: Volume, x: int, z: nat, full: bool): (ps: seq<Pos>)
    requires Valid(v) && 0 <= x < v.size
    ensures forall p :: p in ps ==> p.x == x && z <= p.z && InBounds(v, p.x, p.y, p.z) && At(v, p.x, p.y, p.z) != Air
    decreases v.size - z
  {
    if z >= v.size then []
    else
      if full then
        ColumnScanFullMembers(v, x, z, 0);
        ColumnScanFull(v, x, z, 0) + RowScan(v, x, z + 1, full)
      else ColumnScan(v, x, z, 0) + RowScan(v, x, z + 1, full)
  }

  /** Rows x, x + 1, …: the voxels `GenerateMesh` visits, in its order
      (`full` drops the early stop). */
  function Scan(v: Volume, x: nat, full: bool): (ps: seq<Pos>)
    requires Valid(v)
    ensures forall p :: p in ps ==> x <= p.x && InBounds(v, p.x, p.y, p.z) && At(v, p.x, p.y, p.z) != Air
    decreases v.size - x
  {
    if x >= v.size then [] else RowScan(v, x, 0, full) + Scan(v, x + 1, full)
  }

  /** Appends the faces of each voxel of `ps` in turn. The whole pass
      throws exactly when it reaches a voxel of the top layer. */
  function Emit(v: Volume, at: Coord, m: Mesh, ps: seq<Pos>): (r: Result<Mesh>)
    requires Valid(v) && forall p :: p in ps ==> InBounds(v, p.x, p.y, p.z)
    ensures r.Err? <==> exists p :: p in ps && p.y == Height(v.size) - 1
    ensures r.Ok? ==> Extends(r.value, m)
    ensures r.Ok? && WellFormed(m) ==> WellFormed(r.value)
    ensures r.Ok? ==> r.value == Quads(v, at, m, MeshFaces(v, ps))
    decreases |ps|, 1
  {
    if ps == [] then Ok(m)
    else
      assert FaceOrder[0] == Up;
      assert forall p :: p in ps <==> p == ps[0] || p in ps[1..];
      match VoxelFaces(v, at, ps[0], m, FaceOrder)
      case Err(e) => Err(e)
      case Ok(m') =>
        var r := EmitAfter(v, at, m, m', ps[1..]);
        QuadsAppend(v, at, m, VisibleFaces(v, ps[0], FaceOrder), MeshFaces(v, ps[1..]));
        r
  }

  /** The rest of an emission pass begun from `m`, continuing from `m'`. */
  function EmitAfter(v: Volume, at: Coord, m: Mesh, m': Mesh, ps: seq<Pos>): (r: Result<Mesh>)
    requires Valid(v) && forall p :: p in ps ==> InBounds(v, p.x, p.y, p.z)
    requires Extends(m', m) && (WellFormed(m) ==> WellFormed(m'))
    ensures r.Err? <==> exists p :: p in ps && p.y == Height(v.size) - 1
    ensures r.Ok? ==> Extends(r.value, m)
    ensures r.Ok? && WellFormed(m) ==> WellFormed(r.value)
    ensures r.Ok? ==> r.value == Quads(v, at, m', MeshFaces(v, ps))
    decreases |ps| + 1, 0
  {
    var r := Emit(v, at, m', ps);
    assert r.Ok? ==> Extends(r.value, m) by {
      if r.Ok? { ExtendsTransitive(r.value, m', m); }
    }
    r
  }

  lemma ExtendsTransitive(a: Mesh, b: Mesh, c: Mesh)
    requires Extends(a, b) && Extends(b, c)
    ensures Extends(a, c)
  {
  }

  /** `GenerateMesh` into empty buffers for the chunk at `at`. */
  function BuildMesh(v: Volume, at: Coord): (r: Result<Mesh>)
    requires Valid(v)
    ensures r.Ok? ==> WellFormed(r.value)
    ensures r.Ok? ==> r.value == Quads(v, at, Empty, MeshFaces(v, Scan(v, 0, false)))
    ensures r.Ok? ==> |r.value.vertices| == 4 * |MeshFaces(v, Scan(v, 0, false))|
  {
    Emit(v, at, Empty, Scan(v, 0, false))
  }

  /** The scan without early stop visits exactly the solid voxels of the
      column from layer `y` up. */
  lemma {:induction false} ColumnScanFullMembers(v: Volume, x: int, z: int, y: nat)
    requires Valid(v) && InColumns(v, x, z)
    ensures forall p :: p in ColumnScanFull(v, x, z, y) <==>
      p.x == x && p.z == z && y <= p.y < Height(v.size) && At(v, p.x, p.y, p.z) != Air
    decreases Height(v.size) - y
  {
    if y < Height(v.size) {
      ColumnScanFullMembers(v, x, z, y + 1);
    }
  }

  /** With every voxel above the column's height air, stopping above the
      height plus one loses nothing. */
  lemma {:induction false} EarlyStopHarmless(v: Volume, x: int, z: int, y: nat)
    requires Valid(v) && InColumns(v, x, z) && NothingAboveSurface(v)
    ensures ColumnScan(v, x, z, y) == ColumnScanFull(v, x, z, y)
    decreases Height(v.size) - y
  {
    if y < Height(v.size) {
      if Surface(v, x, z) + 1 < y {
        AirFrom(v, x, z, y);
      } else {
        EarlyStopHarmless(v, x, z, y + 1);
      }
    }
  }

  /** Above the column's height, the full scan finds nothing. */
  lemma {:induction false} AirFrom(v: Volume, x: int, z: int, y: nat)
    requires Valid(v) && InColumns(v, x, z) && NothingAboveSurface(v)
    requires Surface(v, x, z) < y
    ensures ColumnScanFull(v, x, z, y) == []
    decreases Height(v.size) - y
  {
    if y < Height(v.size) {
      assert At(v, x, y, z) == Air;
      AirFrom(v, x, z, y + 1);
    }
  }

  /** Every voxel the early-stopping column scan visits, the full one visits. */
  lemma {:induction false} ColumnScanWithinFull(v: Volume, x: int, z: int, y: nat)
    requires Valid(v) && InColumns(v, x, z)
    ensures forall p :: p in ColumnScan(v, x, z, y) ==> p in ColumnScanFull(v, x, z, y)
    decreases Height(v.size) - y
  {
    if y < Height(v.size) && Surface(v, x, z) + 1 >= y {
      ColumnScanWithinFull(v, x, z, y + 1);
    }
  }

  lemma {:induction false} RowScanMembers(v: Volume, x: int, z: nat)
    requires Valid(v) && 0 <= x < v.size
    ensures forall p :: p in RowScan(v, x, z, true) <==>
      p.x == x && z <= p.z < v.size && 0 <= p.y < Height(v.size) && At(v, p.x, p.y, p.z) != Air
    decreases v.size - z
  {
    if z < v.size {
      ColumnScanFullMembers(v, x, z, 0);
      RowScanMembers(v, x, z + 1);
    }
  }

  lemma {:induction false} RowScanWithinFull(v: Volume, x: int, z: nat)
    requires Valid(v) && 0 <= x < v.size
    ensures forall p :: p in RowScan(v, x, z, false) ==> p in RowScan(v, x, z, true)
    decreases v.size - z
  {
    if z < v.size {
      ColumnScanWithinFull(v, x, z, 0);
      RowScanWithinFull(v, x, z + 1);
    }
  }

  lemma {:induction false} RowScanEarlyStop(v: Volume, x: int, z: nat)
    requires Valid(v) && 0 <= x < v.size && NothingAboveSurface(v)
    ensures RowScan(v, x, z, false) == RowScan(v, x, z, true)
    decreases v.size - z
  {
    if z < v.size {
      EarlyStopHarmless(v, x, z, 0);
      RowScanEarlyStop(v, x, z + 1);
    }
  }

  /** The full scan from row `x` visits exactly the solid voxels of rows `x` on. */
  lemma {:induction false} ScanMembers(v: Volume, x: nat)
    requires Valid(v)
    ensures forall p :: p in Scan(v, x, true) <==>
      InBounds(v, p.x, p.y, p.z) && x <= p.x && At(v, p.x, p.y, p.z) != Air
    decreases v.size - x
  {
    if x < v.size {
      RowScanMembers(v, x, 0);
      ScanMembers(v, x + 1);
    }
  }

  lemma {:induction false} ScanWithinFull(v: Volume, x: nat)
    requires Valid(v)
    ensures forall p :: p in Scan(v, x, false) ==> p in Scan(v, x, true)
    decreases v.size - x
  {
    if x < v.size {
      RowScanWithinFull(v, x, 0);
      ScanWithinFull(v, x + 1);
    }
  }

  /** Under the height-map invariant the early `break` of `GenerateMesh`
      visits the same voxels, in the same order, as a scan of every layer. */
  lemma {:induction false} ScanEarlyStop(v: Volume, x: nat)
    requires Valid(v) && NothingAboveSurface(v)
    ensures Scan(v, x, false) == Scan(v, x, true)
    decreases v.size - x
  {
    if x < v.size {
      RowScanEarlyStop(v, x, 0);
      ScanEarlyStop(v, x + 1);
    }
  }

  /** The full column scan lists each voxel at most once: its layers rise. */
  lemma {:induction false} ColumnScanFullDistinct(v: Volume, x: int, z: int, y: nat)
    requires Valid(v) && InColumns(v, x, z)
    ensures Distinct(ColumnScanFull(v, x, z, y))
    decreases Height(v.size) - y
  {
    if y < Height(v.size) {
      var head: seq<Pos> := if At(v, x, y, z) == Air then [] else [Pos(x, y, z)];
      var tail := ColumnScanFull(v, x, z, y + 1);
      ColumnScanFullDistinct(v, x, z, y + 1);
      ColumnScanFullMembers(v, x, z, y + 1);
      DistinctConcat(head, tail);
    }
  }

  /** The full row scan lists each voxel at most once: its columns differ in z. */
  lemma {:induction false} RowScanDistinct(v: Volume, x: int, z: nat)
    requires Valid(v) && 0 <= x < v.size
    ensures Distinct(RowScan(v, x, z, true))
    decreases v.size - z
  {
    if z < v.size {
      var head := ColumnScanFull(v, x, z, 0);
      var tail := RowScan(v, x, z + 1, true);
      ColumnScanFullDistinct(v, x, z, 0);
      ColumnScanFullMembers(v, x, z, 0);
      RowScanDistinct(v, x, z + 1);
      DistinctConcat(head, tail);
    }
  }

  /** The full scan lists each voxel at most once: its rows differ in x. */
  lemma {:induction false} ScanDistinct(v: Volume, x: nat)
    requires Valid(v)
    ensures Distinct(Scan(v, x, true))
    decreases v.size - x
  {
    if x < v.size {
      var head := RowScan(v, x, 0, true);
      var tail := Scan(v, x + 1, true);
      RowScanDistinct(v, x, 0);
      ScanDistinct(v, x + 1);
      DistinctConcat(head, tail);
    }
  }

  /** Testing each direction once yields each face of the voxel at most once. */
  lemma {:induction false} VisibleFacesDistinct(v: Volume, p: Pos, dirs: seq<Dir>)
    requires Valid(v) && InBounds(v, p.x, p.y, p.z) && Distinct(dirs)
    ensures Distinct(VisibleFaces(v, p, dirs))
    decreases |dirs|
  {
    if dirs != [] {
      var head: seq<Face> := if IsFaceVisible(v, p.x, p.y, p.z, dirs[0]) == Ok(true) then [Face(p, dirs[0])] else [];
      var tail := VisibleFaces(v, p, dirs[1..]);
      assert Distinct(dirs[1..]) by {
        forall i, j | 0 <= i < j < |dirs[1..]|
          ensures dirs[1..][i] != dirs[1..][j]
        {
          assert dirs[1..][i] == dirs[i + 1] && dirs[1..][j] == dirs[j + 1];
        }
      }
      assert dirs[0] !in dirs[1..] by {
        forall k | 0 <= k < |dirs[1..]|
          ensures dirs[1..][k] != dirs[0]
        {
          assert dirs[1..][k] == dirs[k + 1];
        }
      }
      VisibleFacesDistinct(v, p, dirs[1..]);
      DistinctConcat(head, tail);
    }
  }

  /** `FaceOrder` names each direction once. */
  lemma FaceOrderDistinct()
    ensures Distinct(FaceOrder)
  {
  }

  /** The faces of a voxel list without repeats are themselves without repeats. */
  lemma {:induction false} MeshFacesDistinct(v: Volume, ps: seq<Pos>)
    requires Valid(v) && (forall p :: p in ps ==> InBounds(v, p.x, p.y, p.z)) && Distinct(ps)
    ensures Distinct(MeshFaces(v, ps))
    decreases |ps|
  {
    if ps != [] {
      var head := VisibleFaces(v, ps[0], FaceOrder);
      var tail := MeshFaces(v, ps[1..]);
      assert Distinct(ps[1..]) by {
        forall i, j | 0 <= i < j < |ps[1..]|
          ensures ps[1..][i] != ps[1..][j]
        {
          assert ps[1..][i] == ps[i + 1] && ps[1..][j] == ps[j + 1];
        }
      }
      assert ps[0] !in ps[1..] by {
        forall k | 0 <= k < |ps[1..]|
          ensures ps[1..][k] != ps[0]
        {
          assert ps[1..][k] == ps[k + 1];
        }
      }
      FaceOrderDistinct();
      VisibleFacesDistinct(v, ps[0], FaceOrder);
      MeshFacesDistinct(v, ps[1..]);
      DistinctConcat(head, tail);
    }
  }

  /** Under the height-map invariant, the mesher visits exactly the solid
      voxels, each once. */
  lemma ScanIsSolidVoxels(v: Volume)
    requires Valid(v) && NothingAboveSurface(v)
    ensures forall p :: p in Scan(v, 0, false) <==> InBounds(v, p.x, p.y, p.z) && At(v, p.x, p.y, p.z) != Air
    ensures Distinct(Scan(v, 0, false))
  {
    ScanEarlyStop(v, 0);
    ScanMembers(v, 0);
    ScanDistinct(v, 0);
  }

  /** Under the height-map invariant, the faces a build draws are exactly
      the visible faces of the solid voxels, each drawn once. */
  lemma MeshFacesOfSolidVoxels(v: Volume)
    requires Valid(v) && NothingAboveSurface(v)
    ensures forall f :: f in MeshFaces(v, Scan(v, 0, false)) <==>
      InBounds(v, f.p.x, f.p.y, f.p.z) && At(v, f.p.x, f.p.y, f.p.z) != Air &&
      IsFaceVisible(v, f.p.x, f.p.y, f.p.z, f.d) == Ok(true)
    ensures Distinct(MeshFaces(v, Scan(v, 0, false)))
  {
    ScanIsSolidVoxels(v);
    MeshFacesDistinct(v, Scan(v, 0, false));
  }

  /** A solid voxel in the top layer. */
  ghost predicate TopLayerSolid(v: Volume)
    requires Valid(v)
  {
    exists x, z :: InColumns(v, x, z) && Height(v.size) > 0 && At(v, x, Height(v.size) - 1, z) != Air
  }

  /** Under the height-map invariant, the rebuild throws exactly when a
      top-layer voxel is solid (its up-face reads past the array). */
  lemma BuildMeshFails(v: Volume, at: Coord)
    requires Valid(v) && NothingAboveSurface(v)
    ensures BuildMesh(v, at).Err? <==> TopLayerSolid(v)
  {
    var ps := Scan(v, 0, false);
    ScanIsSolidVoxels(v);
    TopLayerScanned(v, ps);
    ScanWithinFull(v, 0);
    ScanMembers(v, 0);
    assert BuildMesh(v, at) == Emit(v, at, Empty, ps);
  }

  lemma TopLayerScanned(v: Volume, ps: seq<Pos>)
    requires Valid(v)
    requires forall p :: p in ps <==> InBounds(v, p.x, p.y, p.z) && At(v, p.x, p.y, p.z) != Air
    ensures (exists p :: p in ps && p.y == Height(v.size) - 1) <==> TopLayerSolid(v)
  {
    if exists p :: p in ps && p.y == Height(v.size) - 1 {
      var p :| p in ps && p.y == Height(v.size) - 1;
      assert InColumns(v, p.x, p.z) && At(v, p.x, Height(v.size) - 1, p.z) != Air;
    }
    if TopLayerSolid(v) {
      var x, z :| InColumns(v, x, z) && Height(v.size) > 0 && At(v, x, Height(v.size) - 1, z) != Air;
      assert Pos(x, Height(v.size) - 1, z) in ps;
    }
  }
}
