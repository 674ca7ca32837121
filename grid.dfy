/** The 3x3x3 grid of discrete cubie coordinates and its enumeration order. */
module Grid {

  /** A cubie's discrete grid coordinate; each component lies in 0..2 on the grid. */
  datatype Coord = Coord(x: int, y: int, z: int)

  predicate InGrid(c: Coord) {
    0 <= c.x < 3 && 0 <= c.y < 3 && 0 <= c.z < 3
  }

  /** Number of cells in the grid. */
  const CELLS := 27

  /** Step at which the x-major, then y, then z triple loop reaches `c`. */
  function Index(c: Coord): int {
    9 * c.x + 3 * c.y + c.z
  }

  /**
   * The coordinate the triple loop reaches right after `c`: z advances first,
   * wrapping into y, which wraps into x.
   */
  function Next(c: Coord): Coord {
    if c.z < 2 then c.(z := c.z + 1)
    else if c.y < 2 then Coord(c.x, c.y + 1, 0)
    else Coord(c.x + 1, 0, 0)
  }

  /** The coordinate that the triple loop reaches at step `i`; it inverts `Index`. */
  function CoordAt(i: nat): (c: Coord)
    requires i < CELLS
    ensures InGrid(c) && Index(c) == i
  {
    if i == 0 then Coord(0, 0, 0) else Next(CoordAt(i - 1))
  }

  /** Two grid coordinates at the same step are the same coordinate. */
  lemma IndexInjective(c: Coord, d: Coord)
    requires InGrid(c) && InGrid(d) && Index(c) == Index(d)
    ensures c == d
  {
  }

  /** `Index` maps the grid one-to-one onto 0..26, and `CoordAt` undoes it. */
  lemma CoordAtIndex(c: Coord)
    requires InGrid(c)
    ensures 0 <= Index(c) < CELLS && CoordAt(Index(c)) == c
  {
    IndexInjective(CoordAt(Index(c)), c);
  }

  /** Distinct steps of the enumeration reach distinct coordinates. */
  lemma CoordAtInjective(i: nat, j: nat)
    requires i < CELLS && j < CELLS && i != j
    ensures CoordAt(i) != CoordAt(j)
  {
    assert Index(CoordAt(i)) == i && Index(CoordAt(j)) == j;
  }

  /**
   * The triple loop that lists the grid: x outermost, then y, then z innermost,
   * one coordinate appended per innermost iteration.
   */
  method GenerateDefaultPositions() returns (positions: seq<Coord>)
    ensures |positions| == CELLS
    ensures forall i :: 0 <= i < CELLS ==> positions[i] == CoordAt(i)
    ensures forall i :: 0 <= i < CELLS ==> InGrid(positions[i])
    ensures forall c :: InGrid(c) ==> positions[Index(c)] == c
    ensures forall i, j :: 0 <= i < j < CELLS ==> positions[i] != positions[j]
  {
    positions := [];
    for x := 0 to 3
      invariant |positions| == 9 * x
      invariant forall k :: 0 <= k < |positions| ==> positions[k] == CoordAt(k)
    {
      for y := 0 to 3
        invariant |positions| == 9 * x + 3 * y
        invariant forall k :: 0 <= k < |positions| ==> positions[k] == CoordAt(k)
      {
        for z := 0 to 3
          invariant |positions| == 9 * x + 3 * y + z
          invariant forall k :: 0 <= k < |positions| ==> positions[k] == CoordAt(k)
        {
          CoordAtIndex(Coord(x, y, z));
          positions := positions + [Coord(x, y, z)];
        }
      }
    }
    forall c | InGrid(c)
      ensures positions[Index(c)] == c
    {
      CoordAtIndex(c);
    }
    forall i, j | 0 <= i < j < CELLS
      ensures positions[i] != positions[j]
    {
      CoordAtInjective(i, j);
    }
  }
}
