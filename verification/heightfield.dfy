/** The integer tail of World.GetHeightAtCord. The four noise layers are
    left out: their truncated float sum is the uninterpreted `Terrain`
    function below. */
module HeightField {
  import opened Coords

  /** The truncated sum of the main, hill, detail and mountain noise
      contributions at a world column (the random base offset already added). */
  type Terrain = (int, int) -> int

  /** The base height every column starts from. */
  const BaseHeight: int := 64

  /** C#'s integer division: truncates toward zero, so the remainder
      `a - q * b` takes the sign of the dividend. */
  function TruncDiv(a: int, b: int): (q: int)
    requires b > 0
    ensures a >= 0 ==> 0 <= a - q * b < b
    ensures a < 0 ==> -b < a - q * b <= 0
  {
    if a >= 0 then a / b else -((-a) / b)
  }

  /** Truncation agrees with Dafny's Euclidean (here: floor) division
      except on a negative dividend that is not a multiple, where it is one
      higher: `-7 / 5` is `-1` in C#. */
  lemma TruncDivVersusFloor(a: int, b: int)
    requires b > 0
    ensures a >= 0 || a % b == 0 ==> TruncDiv(a, b) == a / b
    ensures a < 0 && a % b != 0 ==> TruncDiv(a, b) == a / b + 1
  {
    var q := TruncDiv(a, b);
    var f := FloorDiv(a, b);
    assert (q + 1) * b == q * b + b;
    assert (q - 1) * b == q * b - b;
    if a >= 0 || a == q * b {
      FloorUnique(a, q, f, b);
    } else {
      FloorUnique(a, q - 1, f, b);
    }
  }

  /** Unity's `Mathf.Clamp(int, int, int)`: the lower bound is tested first. */
  function Clamp(v: int, lo: int, hi: int): (r: int)
    ensures lo <= hi ==> lo <= r <= hi
    ensures lo <= v <= hi ==> r == v
    ensures v < lo ==> r == lo
    ensures lo <= v && hi < v ==> r == hi
  {
    if v < lo then lo else if v > hi then hi else v
  }

  /** `height = clamp((64 + noiseSum) / 5, 0, size * size - 1)`. */
  function HeightFromNoise(noiseSum: int, size: int): (h: int)
    ensures size >= 1 ==> 0 <= h <= size * size - 1
    ensures 0 <= TruncDiv(BaseHeight + noiseSum, 5) <= size * size - 1 ==> h == TruncDiv(BaseHeight + noiseSum, 5)
  {
    Clamp(TruncDiv(BaseHeight + noiseSum, 5), 0, size * size - 1)
  }

  /** Height of local column (x, z) of chunk `c`: the noise is sampled at
      the world column `x + c.x * size`, `z + c.z * size`, shifted by the
      per-world base `offset`. */
  function ColumnHeight(terrain: Terrain, offset: Coord, c: Coord, size: int, x: int, z: int): (h: int)
    ensures size >= 1 ==> 0 <= h <= size * size - 1
  {
    HeightFromNoise(terrain(x + offset.x + c.x * size, z + offset.z + c.z * size), size)
  }

  /** The clamp allows heights up to `size * size - 1`, above the top layer
      `size * size / 2 - 1` of a chunk: a large enough noise sum reaches it. */
  lemma ClampExceedsChunkTop(size: int)
    requires size >= 2
    ensures HeightFromNoise(5 * size * size, size) == size * size - 1
    ensures size * size - 1 > size * size / 2 - 1
  {
    assert TruncDiv(BaseHeight + 5 * size * size, 5) >= size * size;
  }
}
