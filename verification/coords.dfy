/** Chunk and block coordinates, and the world-to-chunk mapping of World.cs. */
module Coords {

  /** A chunk coordinate (the source's Vector2Int key; its `y` is the world z axis). */
  datatype Coord = Coord(x: int, z: int)

  /** An integer world block position; the callers floor every position
      before it reaches the core. */
  datatype Pos = Pos(x: int, y: int, z: int)

  /** `Mathf.FloorToInt(a / size)` for an integer `a`. */
  function FloorDiv(a: int, size: int): (c: int)
    requires size > 0
    ensures c * size <= a < (c + 1) * size
  {
    a / size
  }

  /** `Mathf.FloorToInt(a / size)` for a real observer coordinate. */
  function FloorDivReal(a: real, size: int): (c: int)
    requires size > 0
    ensures (c * size) as real <= a < ((c + 1) * size) as real
  {
    var q := a / size as real;
    assert q.Floor as real <= q < q.Floor as real + 1.0;
    FloorScale(q, q.Floor, size);
    q.Floor
  }

  lemma FloorScale(q: real, c: int, size: int)
    requires size > 0 && c as real <= q < c as real + 1.0
    ensures (c * size) as real <= q * (size as real)
    ensures q * (size as real) < ((c + 1) * size) as real
  {
    CastScaleLe(c, q, size);
    CastScaleLt(q, c + 1, size);
  }

  lemma CastScaleLe(k: int, q: real, size: int)
    requires size > 0 && k as real <= q
    ensures (k * size) as real <= q * (size as real)
  {
    ProductCast(k, size);
    ScaleLe(k as real, q, size as real);
  }

  lemma CastScaleLt(q: real, k: int, size: int)
    requires size > 0 && q < k as real
    ensures q * (size as real) < (k * size) as real
  {
    ProductCast(k, size);
    ScaleLt(q, k as real, size as real);
  }

  lemma ProductCast(a: int, b: int)
    ensures (a * b) as real == a as real * b as real
  {
  }

  lemma ScaleLe(a: real, b: real, s: real)
    requires a <= b && s > 0.0
    ensures a * s <= b * s
  {
    assert b * s - a * s == (b - a) * s;
  }

  lemma ScaleLt(a: real, b: real, s: real)
    requires a < b && s > 0.0
    ensures a * s < b * s
  {
    assert b * s - a * s == (b - a) * s;
  }

  /** The chunk that owns world block position `p`. */
  function ChunkOf(p: Pos, size: int): (c: Coord)
    requires size > 0
    ensures c.x * size <= p.x < (c.x + 1) * size
    ensures c.z * size <= p.z < (c.z + 1) * size
  {
    Coord(FloorDiv(p.x, size), FloorDiv(p.z, size))
  }

  /** World origin of chunk `c` (y is always 0). */
  function Origin(c: Coord, size: int): Pos {
    Pos(c.x * size, 0, c.z * size)
  }

  /** Position `p` relative to chunk `c`'s origin. In the source this is a
      float difference truncated by `(int)`; the difference of two integer
      positions is already integral, so the truncation is the identity. */
  function Local(p: Pos, c: Coord, size: int): Pos {
    var o := Origin(c, size);
    Pos(p.x - o.x, p.y - o.y, p.z - o.z)
  }

  /** Every position maps into its owning chunk at a local offset in `[0, size)`
      horizontally, with the height untouched. */
  lemma LocalInsideOwner(p: Pos, size: int)
    requires size > 0
    ensures var l := Local(p, ChunkOf(p, size), size);
      0 <= l.x < size && 0 <= l.z < size && l.y == p.y
  {
  }

  /** The owning chunk is the only chunk whose local offset lands in `[0, size)`. */
  lemma OwnerUnique(p: Pos, c: Coord, size: int)
    requires size > 0
    requires var l := Local(p, c, size); 0 <= l.x < size && 0 <= l.z < size
    ensures c == ChunkOf(p, size)
  {
    var o := ChunkOf(p, size);
    FloorUnique(p.x, c.x, o.x, size);
    FloorUnique(p.z, c.z, o.z, size);
  }

  lemma FloorUnique(a: int, c: int, d: int, size: int)
    requires size > 0
    requires c * size <= a < (c + 1) * size
    requires d * size <= a < (d + 1) * size
    ensures c == d
  {
    if c < d {
      assert (c + 1) * size <= d * size by { MulMono(c + 1, d, size); }
    } else if d < c {
      assert (d + 1) * size <= c * size by { MulMono(d + 1, c, size); }
    }
  }

  lemma MulMono(a: int, b: int, size: int)
    requires a <= b && size > 0
    ensures a * size <= b * size
  {
    assert b * size - a * size == (b - a) * size;
  }
}
