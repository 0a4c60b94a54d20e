/** The manual wind dial: the speed buttons and the 3x3 compass grid.

    The grid is laid out row by row, three cells per row:

        0 NW   1 N   2 NE
        3 W    4 X   5 E
        6 SW   7 S   8 SE

    A cell names where the wind comes from, so the wind blows towards the
    opposite side: map-space x points east and z points north, and a wind from
    the west has x = +speed. */
module Dial {
  import opened Vectors

  /** The centre cell "X" of the grid, meaning no wind. */
  const DirectionDialNoWind: int := 4

  predicate IsWhole(r: real) {
    r == r.Floor as real
  }

  /** Whole numbers stay whole when one is added or taken away. */
  lemma WholeStep(r: real)
    ensures IsWhole(r) ==> IsWhole(r + 1.0) && IsWhole(r - 1.0)
  {
  }

  /** The "-" button: one unit slower, never below zero. */
  function Decrement(speed: real): (r: real)
    ensures r >= 0.0
    ensures r >= speed - 1.0 && (speed >= 1.0 ==> r == speed - 1.0)
    ensures speed < 1.0 ==> r == 0.0
    ensures speed >= 0.0 ==> r <= speed
    ensures IsWhole(speed) ==> IsWhole(r)
  {
    WholeStep(speed);
    if 0.0 > speed - 1.0 then 0.0 else speed - 1.0
  }

  /** The "+" button: one unit faster, without an upper bound. */
  function Increment(speed: real): (r: real)
    ensures r - speed == 1.0
    ensures IsWhole(speed) ==> IsWhole(r)
  {
    WholeStep(speed);
    speed + 1.0
  }

  /** "-" undoes "+" on every speed the dial can show. */
  lemma DecrementUndoesIncrement(speed: real)
    requires speed >= 0.0
    ensures Decrement(Increment(speed)) == speed
  {
  }

  /** "+" undoes "-" unless "-" was stopped by the floor at zero. */
  lemma IncrementUndoesDecrement(speed: real)
    requires speed >= 0.0
    ensures Increment(Decrement(speed)) == speed <==> speed >= 1.0
  {
  }

  /** Row of a grid cell, 0 (north) to 2 (south). */
  function Row(cell: int): int
    requires 0 <= cell < 9
  {
    cell / 3
  }

  /** Column of a grid cell, 0 (west) to 2 (east). */
  function Column(cell: int): int
    requires 0 <= cell < 9
  {
    cell % 3
  }

  /** The map-space wind selected by a grid cell at a given speed: a wind from
      the west side blows east (+x), from the north side blows south (-z).
      The centre cell and every index outside the grid give no wind. */
  function CompassWind(cell: int, speed: real): (r: Vec3)
    ensures r.y == 0.0
    ensures speed == 0.0 ==> r == Zero
  {
    if 0 <= cell < 9 then
      Vec3((1 - Column(cell)) as real * speed, 0.0, (Row(cell) - 1) as real * speed)
    else
      Zero
  }

  /** Cells N, S, W and E set one component to plus or minus the speed and
      leave the other at zero. */
  lemma CardinalCells(speed: real)
    ensures CompassWind(1, speed) == Vec3(0.0, 0.0, -speed)
    ensures CompassWind(7, speed) == Vec3(0.0, 0.0, speed)
    ensures CompassWind(3, speed) == Vec3(speed, 0.0, 0.0)
    ensures CompassWind(5, speed) == Vec3(-speed, 0.0, 0.0)
  {
  }

  /** The centre cell and indices outside the grid give no wind at any speed. */
  lemma CalmCells(cell: int, speed: real)
    requires cell == DirectionDialNoWind || cell < 0 || 9 <= cell
    ensures CompassWind(cell, speed) == Zero
  {
  }

  /** Each corner cell is the sum of the cardinal cell in its row and the
      cardinal cell in its column: NW = N + W, NE = N + E, SW = S + W,
      SE = S + E. */
  lemma CornerIsSumOfCardinals(cell: int, speed: real)
    requires cell == 0 || cell == 2 || cell == 6 || cell == 8
    ensures CompassWind(cell, speed)
         == Add(CompassWind(3 * Row(cell) + 1, speed), CompassWind(3 + Column(cell), speed))
  {
  }

  /** Opposite cells i and 8 - i give opposite winds. */
  lemma OppositeCells(cell: int, speed: real)
    ensures CompassWind(8 - cell, speed) == Neg(CompassWind(cell, speed))
  {
    if 0 <= cell < 9 {
      assert Row(8 - cell) == 2 - Row(cell);
      assert Column(8 - cell) == 2 - Column(cell);
    }
  }

  /** Every non-zero component of a cell's wind has the magnitude of the
      speed, and the speed scales the wind linearly. */
  lemma WindScalesWithSpeed(cell: int, speed: real)
    ensures CompassWind(cell, speed) == Scale(speed, CompassWind(cell, 1.0))
    ensures CompassWind(cell, 1.0).x in {-1.0, 0.0, 1.0}
    ensures CompassWind(cell, 1.0).z in {-1.0, 0.0, 1.0}
  {
  }

  /** The window title. */
  function WindowTitle(cell: int): (t: string)
    ensures t == "No Wind" <==> cell == DirectionDialNoWind
    ensures t == "Wind" <==> cell != DirectionDialNoWind
  {
    if cell == DirectionDialNoWind then "No Wind" else "Wind"
  }

  /** On the grid, the title reads "No Wind" exactly for the one cell that
      yields no wind at a non-zero speed. */
  lemma TitleNamesTheCalmCell(cell: int, speed: real)
    requires 0 <= cell < 9
    requires speed != 0.0
    ensures WindowTitle(cell) == "No Wind" <==> CompassWind(cell, speed) == Zero
  {
  }
}
