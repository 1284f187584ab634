/** Block types and the per-type tables of World.cs. */
module Blocks {
  import opened Wrappers

  /** The closed block enumeration; the declaration order is the ordinal
      (AIR = 0, GRASS = 1, STONE = 2, SNOW = 3). */
  datatype BlockType = Air | Grass | Stone | Snow

  function Ordinal(b: BlockType): (n: nat)
    ensures n < 4
    ensures n == 0 <==> b == Air
  {
    match b
    case Air => 0
    case Grass => 1
    case Stone => 2
    case Snow => 3
  }

  /** Enum arithmetic `AIR + n` for an ordinal inside the enumeration. */
  function FromOrdinal(n: int): (b: BlockType)
    requires 0 <= n < 4
    ensures Ordinal(b) == n
  {
    if n == 0 then Air else if n == 1 then Grass else if n == 2 then Stone else Snow
  }

  lemma OrdinalRoundTrip(b: BlockType)
    ensures FromOrdinal(Ordinal(b)) == b
  {
  }

  /** Seconds of mining a block needs before it breaks. */
  function TimeToBreak(b: BlockType): (t: real)
    ensures 0.0 <= t <= 2.0
    ensures t == 0.0 <==> b == Air
    ensures b == Snow ==> t < 1.0
  {
    match b
    case Air => 0.0
    case Grass => 1.0
    case Stone => 2.0
    case Snow => 0.5
  }

  /** Vertex colour of a voxel, left opaque: grass takes a shade sampled
      from the colour noise at its column, the other types a fixed colour;
      the default (AIR) is fully transparent. */
  datatype Tint = GrassShade(x: int, z: int) | StoneGrey | White | Clear

  function TintOf(b: BlockType, x: int, z: int): (c: Tint)
    ensures c == Clear <==> b == Air
    ensures c.GrassShade? <==> b == Grass
    ensures c.GrassShade? ==> c == GrassShade(x, z)
  {
    match b
    case Grass => GrassShade(x, z)
    case Stone => StoneGrey
    case Snow => White
    case Air => Clear
  }
}
