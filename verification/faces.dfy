/** The six static face templates of Chunk.cs and the directions they
    belong to. All coordinates are small integers, so the geometry is exact. */
module Faces {

  datatype Vec3 = Vec3(x: int, y: int, z: int)
  datatype UV = UV(u: int, v: int)

  function Add(a: Vec3, b: Vec3): Vec3 { Vec3(a.x + b.x, a.y + b.y, a.z + b.z) }
  function Sub(a: Vec3, b: Vec3): Vec3 { Vec3(a.x - b.x, a.y - b.y, a.z - b.z) }

  /** `u × w == n`, component by component. */
  predicate CrossIs(u: Vec3, w: Vec3, n: Vec3) {
    CrossComponents(u.x, u.y, u.z, w.x, w.y, w.z, n.x, n.y, n.z)
  }

  predicate CrossComponents(ux: int, uy: int, uz: int, wx: int, wy: int, wz: int, nx: int, ny: int, nz: int) {
    uy * wz - uz * wy == nx && uz * wx - ux * wz == ny && ux * wy - uy * wx == nz
  }

  /** Corner `p` of the unit cube lies on the cube side an axis-aligned unit
      normal `n` points to. */
  predicate OnSide(p: Vec3, n: Vec3) {
    && 0 <= p.x <= 1 && 0 <= p.y <= 1 && 0 <= p.z <= 1
    && (n.x != 0 ==> p.x == (if n.x > 0 then 1 else 0))
    && (n.y != 0 ==> p.y == (if n.y > 0 then 1 else 0))
    && (n.z != 0 ==> p.z == (if n.z > 0 then 1 else 0))
  }

  /** The six face directions. */
  datatype Dir = Up | Down | Forward | Back | Right | Left

  /** The order in which a voxel's faces are tested and emitted. */
  const FaceOrder: seq<Dir> := [Up, Down, Forward, Back, Right, Left]

  /** Unity's unit vectors: up = +y, forward = +z, right = +x. */
  function Normal(d: Dir): Vec3 {
    match d
    case Up => Vec3(0, 1, 0)
    case Down => Vec3(0, -1, 0)
    case Forward => Vec3(0, 0, 1)
    case Back => Vec3(0, 0, -1)
    case Right => Vec3(1, 0, 0)
    case Left => Vec3(-1, 0, 0)
  }

  datatype FaceData = FaceData(vertices: seq<Vec3>, triangles: seq<int>, normal: Vec3, uv: seq<UV>)

  const Corners: seq<UV> := [UV(0, 1), UV(1, 1), UV(1, 0), UV(0, 0)]
  const WindA: seq<int> := [0, 2, 1, 1, 2, 3]
  const WindB: seq<int> := [0, 1, 2, 3, 2, 1]

  /** The template the mesher appends for a visible face in direction `d`. */
  function Template(d: Dir): FaceData {
    match d
    case Up =>
      FaceData([Vec3(0, 1, 0), Vec3(1, 1, 0), Vec3(0, 1, 1), Vec3(1, 1, 1)], WindA, Normal(Up), Corners)
    case Down =>
      FaceData([Vec3(0, 0, 0), Vec3(1, 0, 0), Vec3(0, 0, 1), Vec3(1, 0, 1)], WindB, Normal(Down), Corners)
    case Forward =>
      FaceData([Vec3(0, 0, 1), Vec3(1, 0, 1), Vec3(0, 1, 1), Vec3(1, 1, 1)], WindB, Normal(Forward), Corners)
    case Back =>
      FaceData([Vec3(0, 0, 0), Vec3(1, 0, 0), Vec3(0, 1, 0), Vec3(1, 1, 0)], WindA, Normal(Back), Corners)
    case Right =>
      FaceData([Vec3(1, 0, 0), Vec3(1, 0, 1), Vec3(1, 1, 0), Vec3(1, 1, 1)], WindA, Normal(Right), Corners)
    case Left =>
      FaceData([Vec3(0, 0, 0), Vec3(0, 0, 1), Vec3(0, 1, 0), Vec3(0, 1, 1)], WindB, Normal(Left), Corners)
  }

  /** Triangle `t` (0 or 1) of a template, wound so that the cross product
      of its two edges from the first corner is the outward normal. */
  predicate TriangleFacesOut(f: FaceData, t: nat)
    requires |f.vertices| == 4 && |f.triangles| == 6 && t < 2
    requires forall i :: 0 <= i < 6 ==> 0 <= f.triangles[i] < 4
  {
    var first := if t == 0 then 0 else 3;
    var a := f.vertices[f.triangles[first]];
    var b := f.vertices[f.triangles[first + 1]];
    var c := f.vertices[f.triangles[first + 2]];
    CrossIs(Sub(b, a), Sub(c, a), f.normal)
  }

  /** A face of the unit cube: its corners lie on the side the normal names. */
  predicate OnCubeSide(f: FaceData)
    requires |f.vertices| == 4
  {
    forall i :: 0 <= i < 4 ==> OnSide(f.vertices[i], f.normal)
  }

  /** Discharges one triangle from its two edge vectors, given explicitly. */
  lemma TriangleFromEdges(f: FaceData, t: nat, u: Vec3, w: Vec3, n: Vec3)
    requires |f.vertices| == 4 && |f.triangles| == 6 && t < 2
    requires forall i :: 0 <= i < 6 ==> 0 <= f.triangles[i] < 4
    requires var first := if t == 0 then 0 else 3;
      && Sub(f.vertices[f.triangles[first + 1]], f.vertices[f.triangles[first]]) == u
      && Sub(f.vertices[f.triangles[first + 2]], f.vertices[f.triangles[first]]) == w
    requires f.normal == n && CrossIs(u, w, n)
    ensures TriangleFacesOut(f, t)
  {
  }

  /** Every template has four corners, four UV corners and six triangle
      indices, each in 0..3, and its declared normal is the direction it is
      paired with. */
  lemma TemplateShape(d: Dir)
    ensures var f := Template(d);
      && |f.vertices| == 4 && |f.triangles| == 6 && |f.uv| == 4
      && (forall i :: 0 <= i < 6 ==> 0 <= f.triangles[i] < 4)
      && f.normal == Normal(d)
  {
  }

  /** Both triangles of every template are wound so that the cross product
      of their edges is the template's outward normal. */
  lemma TemplateFacesOut(d: Dir)
    ensures TriangleFacesOut(Template(d), 0) && TriangleFacesOut(Template(d), 1)
  {
    match d
    case Up => TriangleUp0(); TriangleUp1();
    case Down => TriangleDown0(); TriangleDown1();
    case Forward => TriangleForward0(); TriangleForward1();
    case Back => TriangleBack0(); TriangleBack1();
    case Right => TriangleRight0(); TriangleRight1();
    case Left => TriangleLeft0(); TriangleLeft1();
  }

  /** Every corner of every template is a unit-cube corner on the side its
      normal names, and each template uses all four of its corners. */
  lemma TemplateOnCubeSide(d: Dir)
    ensures OnCubeSide(Template(d))
    ensures forall k :: 0 <= k < 4 ==> k in Template(d).triangles
  {
    assert WindA[0] == 0 && WindA[2] == 1 && WindA[1] == 2 && WindA[5] == 3;
    assert WindB[0] == 0 && WindB[1] == 1 && WindB[2] == 2 && WindB[3] == 3;
  }

  // One lemma per template triangle, each given that triangle's two edges.

  lemma TriangleUp0()
    ensures TriangleFacesOut(Template(Up), 0)
  {
    var f := Template(Up);
    assert f.triangles == WindA;
    assert f.vertices[0] == Vec3(0, 1, 0);
    assert f.vertices[1] == Vec3(1, 1, 0);
    assert f.vertices[2] == Vec3(0, 1, 1);
    TriangleFromEdges(f, 0, Vec3(0, 0, 1), Vec3(1, 0, 0), f.normal);
  }

  lemma TriangleUp1()
    ensures TriangleFacesOut(Template(Up), 1)
  {
    var f := Template(Up);
    assert f.triangles == WindA;
    assert f.vertices[1] == Vec3(1, 1, 0);
    assert f.vertices[2] == Vec3(0, 1, 1);
    assert f.vertices[3] == Vec3(1, 1, 1);
    TriangleFromEdges(f, 1, Vec3(-1, 0, 1), Vec3(0, 0, 1), f.normal);
  }

  lemma TriangleDown0()
    ensures TriangleFacesOut(Template(Down), 0)
  {
    var f := Template(Down);
    assert f.triangles == WindB;
    assert f.vertices[0] == Vec3(0, 0, 0);
    assert f.vertices[1] == Vec3(1, 0, 0);
    assert f.vertices[2] == Vec3(0, 0, 1);
    TriangleFromEdges(f, 0, Vec3(1, 0, 0), Vec3(0, 0, 1), f.normal);
  }

  lemma TriangleDown1()
    ensures TriangleFacesOut(Template(Down), 1)
  {
    var f := Template(Down);
    assert f.triangles == WindB;
    assert f.vertices[1] == Vec3(1, 0, 0);
    assert f.vertices[2] == Vec3(0, 0, 1);
    assert f.vertices[3] == Vec3(1, 0, 1);
    TriangleFromEdges(f, 1, Vec3(-1, 0, 0), Vec3(0, 0, -1), f.normal);
  }

  lemma TriangleForward0()
    ensures TriangleFacesOut(Template(Forward), 0)
  {
    var f := Template(Forward);
    assert f.triangles == WindB;
    assert f.vertices[0] == Vec3(0, 0, 1);
    assert f.vertices[1] == Vec3(1, 0, 1);
    assert f.vertices[2] == Vec3(0, 1, 1);
    TriangleFromEdges(f, 0, Vec3(1, 0, 0), Vec3(0, 1, 0), f.normal);
  }

  lemma TriangleForward1()
    ensures TriangleFacesOut(Template(Forward), 1)
  {
    var f := Template(Forward);
    assert f.triangles == WindB;
    assert f.vertices[1] == Vec3(1, 0, 1);
    assert f.vertices[2] == Vec3(0, 1, 1);
    assert f.vertices[3] == Vec3(1, 1, 1);
    TriangleFromEdges(f, 1, Vec3(-1, 0, 0), Vec3(0, -1, 0), f.normal);
  }

  lemma TriangleBack0()
    ensures TriangleFacesOut(Template(Back), 0)
  {
    var f := Template(Back);
    assert f.triangles == WindA;
    assert f.vertices[0] == Vec3(0, 0, 0);
    assert f.vertices[1] == Vec3(1, 0, 0);
    assert f.vertices[2] == Vec3(0, 1, 0);
    TriangleFromEdges(f, 0, Vec3(0, 1, 0), Vec3(1, 0, 0), f.normal);
  }

  lemma TriangleBack1()
    ensures TriangleFacesOut(Template(Back), 1)
  {
    var f := Template(Back);
    assert f.triangles == WindA;
    assert f.vertices[1] == Vec3(1, 0, 0);
    assert f.vertices[2] == Vec3(0, 1, 0);
    assert f.vertices[3] == Vec3(1, 1, 0);
    TriangleFromEdges(f, 1, Vec3(-1, 1, 0), Vec3(0, 1, 0), f.normal);
  }

  lemma TriangleRight0()
    ensures TriangleFacesOut(Template(Right), 0)
  {
    var f := Template(Right);
    assert f.triangles == WindA;
    assert f.vertices[0] == Vec3(1, 0, 0);
    assert f.vertices[1] == Vec3(1, 0, 1);
    assert f.vertices[2] == Vec3(1, 1, 0);
    TriangleFromEdges(f, 0, Vec3(0, 1, 0), Vec3(0, 0, 1), f.normal);
  }

  lemma TriangleRight1()
    ensures TriangleFacesOut(Template(Right), 1)
  {
    var f := Template(Right);
    assert f.triangles == WindA;
    assert f.vertices[1] == Vec3(1, 0, 1);
    assert f.vertices[2] == Vec3(1, 1, 0);
    assert f.vertices[3] == Vec3(1, 1, 1);
    TriangleFromEdges(f, 1, Vec3(0, 1, -1), Vec3(0, 1, 0), f.normal);
  }

  lemma TriangleLeft0()
    ensures TriangleFacesOut(Template(Left), 0)
  {
    var f := Template(Left);
    assert f.triangles == WindB;
    assert f.vertices[0] == Vec3(0, 0, 0);
    assert f.vertices[1] == Vec3(0, 0, 1);
    assert f.vertices[2] == Vec3(0, 1, 0);
    TriangleFromEdges(f, 0, Vec3(0, 0, 1), Vec3(0, 1, 0), f.normal);
  }

  lemma TriangleLeft1()
    ensures TriangleFacesOut(Template(Left), 1)
  {
    var f := Template(Left);
    assert f.triangles == WindB;
    assert f.vertices[1] == Vec3(0, 0, 1);
    assert f.vertices[2] == Vec3(0, 1, 0);
    assert f.vertices[3] == Vec3(0, 1, 1);
    TriangleFromEdges(f, 1, Vec3(0, 0, -1), Vec3(0, -1, 0), f.normal);
  }
}
