/**
 * The two coordinate systems of the galaxy screen.
 *
 * A grid index addresses a cell of the 12x12 rendered grid, which puts a one
 * cell border (holding the column letters and row numbers) around the 10x10
 * quadrant. A sector index addresses one of the 100 playable sectors, row by
 * row. A sector is shown to the player as a letter (its column) and a 1-based
 * number (its row).
 */
module Coordinates {
  import opened Maybe

  const GridSize: nat := 12
  const QuadrantSize: nat := 10
  const Alphabet: string := "ABCDEFGHIJKLMNOPQRSTUVWXYZ"

  /** The label of a sector: its column letter and its 1-based row number. */
  datatype SectorCoordinates = SectorCoordinates(letter: char, number: nat)

  /** What a border cell of the grid shows: a column letter, a row number, or nothing. */
  datatype HeaderLabel = Letter(letter: char) | Number(number: int) | Blank

  /** The cells of the grid that stand for a sector (not the border). */
  predicate IsInteriorCell(g: int)
  {
    12 <= g <= 131 && 2 <= g % 12 <= 11
  }

  /** The letters really used for columns: the first ten of the alphabet. */
  predicate IsColumnLetter(c: char)
  {
    'A' <= c <= 'J'
  }

  lemma AlphabetIsConsecutive(x: nat)
    requires x < |Alphabet|
    ensures Alphabet[x] as int == 'A' as int + x
  {
  }

  /**
   * The sector a grid cell stands for, or None for a border cell. The JavaScript
   * Math.floor(g / 12) is Dafny's g / 12, since Dafny divides with a floor when
   * the divisor is positive.
   */
  function GridIndexToSectorIndex(g: int): (r: Option<nat>)
    ensures r.Some? <==> IsInteriorCell(g)
    ensures r.Some? ==> r.value < QuadrantSize * QuadrantSize
  {
    var y := g / GridSize;
    var x := g - y * GridSize - 1;
    if x < 1 || x > 10 || y < 1 || y > 10 then None
    else Some((y - 1) * QuadrantSize + (x - 1))
  }

  /** The grid cell that stands for a sector: the inverse of GridIndexToSectorIndex. */
  function SectorIndexToGridIndex(s: nat): (g: int)
    requires s < QuadrantSize * QuadrantSize
    ensures IsInteriorCell(g)
    ensures GridIndexToSectorIndex(g) == Some(s)
  {
    GridSize * (s / QuadrantSize + 1) + s % QuadrantSize + 2
  }

  /** Every interior cell is the cell of the sector it maps to. */
  lemma GridIndexRoundTrip(g: int)
    requires GridIndexToSectorIndex(g).Some?
    ensures SectorIndexToGridIndex(GridIndexToSectorIndex(g).value) == g
  {
  }

  /** No two cells map to the same sector. */
  lemma GridIndexInjective(g1: int, g2: int)
    requires GridIndexToSectorIndex(g1).Some?
    requires GridIndexToSectorIndex(g1) == GridIndexToSectorIndex(g2)
    ensures g1 == g2
  {
  }

  /** Every sector has a cell that maps to it. */
  lemma GridIndexSurjective(s: nat)
    requires s < QuadrantSize * QuadrantSize
    ensures exists g :: IsInteriorCell(g) && GridIndexToSectorIndex(g) == Some(s)
  {
    var g := SectorIndexToGridIndex(s);
    assert IsInteriorCell(g) && GridIndexToSectorIndex(g) == Some(s);
  }

  /** The label of a sector: the column picks the letter, the row gives the number. */
  function SectorIndexToSectorCoordinates(s: nat): (c: SectorCoordinates)
    ensures IsColumnLetter(c.letter) && c.number >= 1
    ensures s < QuadrantSize * QuadrantSize <==> c.number <= 10
  {
    var y := s / QuadrantSize;
    var x := s - y * QuadrantSize;
    AlphabetIsConsecutive(x);
    SectorCoordinates(Alphabet[x], y + 1)
  }

  /** The sector a label names: ten sectors per row number, the letter's place in the alphabet within it. */
  function SectorCoordinatesToSectorIndex(c: SectorCoordinates): int
  {
    QuadrantSize * (c.number - 1) + (c.letter as int - 'A' as int)
  }

  /** A sector's label names that sector. */
  lemma CoordinatesRoundTrip(s: nat)
    ensures SectorCoordinatesToSectorIndex(SectorIndexToSectorCoordinates(s)) == s
  {
  }

  /** Every label with a column letter and a positive number belongs to exactly one sector. */
  lemma CoordinatesRoundTripBack(c: SectorCoordinates)
    requires IsColumnLetter(c.letter) && c.number >= 1
    ensures SectorCoordinatesToSectorIndex(c) >= 0
    ensures SectorIndexToSectorCoordinates(SectorCoordinatesToSectorIndex(c) as nat) == c
  {
  }

  /** Two sectors with the same label are the same sector. */
  lemma CoordinatesInjective(s1: nat, s2: nat)
    requires SectorIndexToSectorCoordinates(s1) == SectorIndexToSectorCoordinates(s2)
    ensures s1 == s2
  {
  }

  /**
   * The header text of a grid cell: the top row carries the column letters, the
   * left column the row numbers, and every other cell is blank.
   */
  function QuadrantText(i: int): (r: HeaderLabel)
    ensures r.Letter? <==> 2 <= i <= 11
    ensures r.Number? <==> 13 <= i <= 121 && i % GridSize == 1
    ensures r.Letter? ==> IsColumnLetter(r.letter)
    ensures r.Number? ==> 1 <= r.number <= 10
  {
    if 2 <= i <= 11 then
      AlphabetIsConsecutive(i - 2);
      Letter(Alphabet[i - 2])
    else if 1 < i < 132 && (i - 1) % GridSize == 0 then
      Number(i / GridSize)
    else
      Blank
  }

  /** The letter above an interior cell's column is the letter of its sector. */
  lemma ColumnHeaderAgrees(g: int)
    requires GridIndexToSectorIndex(g).Some?
    ensures QuadrantText(g % GridSize)
         == Letter(SectorIndexToSectorCoordinates(GridIndexToSectorIndex(g).value).letter)
  {
    var s := GridIndexToSectorIndex(g).value;
    var x := g % GridSize;
    assert s % QuadrantSize == x - 2;
    AlphabetIsConsecutive(x - 2);
  }

  /** The number left of an interior cell's row is the number of its sector. */
  lemma RowHeaderAgrees(g: int)
    requires GridIndexToSectorIndex(g).Some?
    ensures QuadrantText(GridSize * (g / GridSize) + 1)
         == Number(SectorIndexToSectorCoordinates(GridIndexToSectorIndex(g).value).number)
  {
  }
}
