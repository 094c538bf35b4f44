// Column layout arithmetic shared by the drivers in src/Driver.js,
// src/Frogger.js, src/Frog.js and release/Ramble.js: how many columns fit,
// where a column is centred horizontally, and how a new tile is placed
// vertically against its column neighbour.
module Layout {
  import opened Wrappers

  /** JavaScript's `%` on integers: the remainder truncates toward zero, so
    * it has the sign of the dividend. */
  function JsRem(a: int, b: int): (r: int)
    requires b > 0
    ensures a >= 0 ==> 0 <= r < b && r == a % b
    ensures a < 0 ==> -b < r <= 0 && r == -((-a) % b)
  {
    if a >= 0 then a % b else -((-a) % b)
  }

  /** `Math.floor(viewportWidth / (objWidth + padding))`: the number of
    * columns of width `objWidth` plus one padding that fit the viewport. */
  function TotalColumns(viewportWidth: int, objWidth: int, padding: int): (c: int)
    requires objWidth + padding > 0
    ensures c * (objWidth + padding) <= viewportWidth < (c + 1) * (objWidth + padding)
    ensures viewportWidth >= 0 ==> c >= 0
  {
    viewportWidth / (objWidth + padding)
  }

  /** The centring offset `(W - (C*w + (C+1)*p)) / 2`. */
  function XOffset(columns: int, viewportWidth: real, objWidth: real, padding: real): real
  {
    (viewportWidth - ((columns as real) * objWidth + ((columns + 1) as real) * padding)) / 2.0
  }

  /** The x centre of column `col`: `w*col + w/2 + p*(col+1) + xOffset`. */
  function ColumnX(col: int, columns: int, viewportWidth: real, objWidth: real, padding: real): real
  {
    objWidth * (col as real) + objWidth / 2.0 + padding * ((col + 1) as real)
      + XOffset(columns, viewportWidth, objWidth, padding)
  }

  /** Adjacent columns are one tile width plus one padding apart. */
  lemma ColumnSpacing(col: int, columns: int, viewportWidth: real, objWidth: real, padding: real)
    ensures ColumnX(col + 1, columns, viewportWidth, objWidth, padding)
          - ColumnX(col, columns, viewportWidth, objWidth, padding) == objWidth + padding
  {
    assert ((col + 1) as real) == (col as real) + 1.0;
    assert ((col + 2) as real) == ((col + 1) as real) + 1.0;
  }

  /** The group of columns is centred: column c and its mirror C-1-c are
    * symmetric about the middle of the viewport. */
  lemma {:induction false} ColumnsCentred(col: int, columns: int, viewportWidth: real, objWidth: real, padding: real)
    ensures ColumnX(col, columns, viewportWidth, objWidth, padding)
          + ColumnX(columns - 1 - col, columns, viewportWidth, objWidth, padding) == viewportWidth
  {
    var c, n := col as real, columns as real;
    assert ((columns - 1 - col) as real) == n - 1.0 - c;
    assert ((col + 1) as real) == c + 1.0;
    assert ((columns - 1 - col + 1) as real) == n - c;
    assert ((columns + 1) as real) == n + 1.0;
    calc {
      ColumnX(col, columns, viewportWidth, objWidth, padding)
        + ColumnX(columns - 1 - col, columns, viewportWidth, objWidth, padding);
      objWidth * c + objWidth / 2.0 + padding * (c + 1.0)
        + objWidth * (n - 1.0 - c) + objWidth / 2.0 + padding * (n - c)
        + 2.0 * XOffset(columns, viewportWidth, objWidth, padding);
      { assert objWidth * c + objWidth * (n - 1.0 - c) == objWidth * (n - 1.0);
        assert padding * (c + 1.0) + padding * (n - c) == padding * (n + 1.0); }
      objWidth * n + padding * (n + 1.0)
        + 2.0 * XOffset(columns, viewportWidth, objWidth, padding);
      viewportWidth;
    }
  }

  /** `getFrogAreaWidth`: `C*w + (C-1)*p`, the width the columns occupy.
    * It is the distance from the left edge of the first column to the right
    * edge of the last, and the margins left and right of it are equal. */
  function AreaWidth(columns: int, objWidth: real, padding: real): (r: real)
    ensures forall viewportWidth: real ::
      (ColumnX(columns - 1, columns, viewportWidth, objWidth, padding) + objWidth / 2.0)
        - (ColumnX(0, columns, viewportWidth, objWidth, padding) - objWidth / 2.0) == r
  {
    (columns as real) * objWidth + ((columns - 1) as real) * padding
  }

  /** The margin left of the first column equals the margin right of the
    * last, and together with the area they fill the viewport. */
  lemma {:induction false} AreaCentred(columns: int, viewportWidth: real, objWidth: real, padding: real)
    ensures var left := ColumnX(0, columns, viewportWidth, objWidth, padding) - objWidth / 2.0;
            var right := ColumnX(columns - 1, columns, viewportWidth, objWidth, padding) + objWidth / 2.0;
            left == viewportWidth - right &&
            left + AreaWidth(columns, objWidth, padding) + (viewportWidth - right) == viewportWidth
  {
    ColumnsCentred(0, columns, viewportWidth, objWidth, padding);
  }

  /** A tile chained to its neighbour in the scroll direction:
    * `n.y + n.h/2*-dir + h/2*-dir + p*-dir`. */
  function ChainedY(neighborY: real, neighborHeight: real, height: real, padding: real, dir: int): (y: real)
    ensures dir == -1 ==> (y - height / 2.0) - (neighborY + neighborHeight / 2.0) == padding
    ensures dir == 1 ==> (neighborY - neighborHeight / 2.0) - (y + height / 2.0) == padding
  {
    var d := dir as real;
    neighborY + neighborHeight / 2.0 * -d + height / 2.0 * -d + padding * -d
  }

  /** A tile in the first row: its top edge is one padding plus the initial
    * offset below the top of the world. */
  function FirstRowY(height: real, padding: real, initialYOffset: real): (y: real)
    ensures y - height / 2.0 == padding + initialYOffset
  {
    height / 2.0 + padding + initialYOffset
  }

  /** A neighbour's vertical centre and height, as read from the registry. */
  datatype Neighbor = Neighbor(y: real, height: real)

  /** Where a driver puts a new tile: the column centre `x`, the `y`
    * chained to its neighbour, the starting `initY` (lower by the distance
    * already scrolled times the speed) and the column's scroll speed. */
  datatype Placement = Placement(x: real, y: real, initY: real, speed: real)

  /** `positionObj` of src/Driver.js and src/Frogger.js: `neighbor` is the
    * first live item at index `i + C*dir` (if any). */
  function PositionY(neighbor: Option<Neighbor>, height: real, padding: real, initialYOffset: real, dir: int): (y: real)
    ensures neighbor.Some? && dir == -1 ==> (y - height / 2.0) - (neighbor.value.y + neighbor.value.height / 2.0) == padding
    ensures neighbor.Some? && dir == 1 ==> (neighbor.value.y - neighbor.value.height / 2.0) - (y + height / 2.0) == padding
    ensures neighbor.None? ==> y - height / 2.0 == padding + initialYOffset
  {
    match neighbor
    case Some(n) => ChainedY(n.y, n.height, height, padding, dir)
    case None => FirstRowY(height, padding, initialYOffset)
  }

  /** `positionObj` of src/Frog.js. It starts from `height/2 + padding`;
    * scrolling up or on first load (direction -1 or 0) it stacks below a
    * live `before` (index i-C); scrolling down (direction 1) it stacks above
    * a live `after` (index i+C). */
  function FrogPositionY(before: Option<Neighbor>, after: Option<Neighbor>, height: real, padding: real, dir: int): (y: real)
    ensures (dir == -1 || dir == 0) && before.Some? ==>
      (y - height / 2.0) - (before.value.y + before.value.height / 2.0) == padding
    ensures dir == 1 && after.Some? ==>
      (after.value.y - after.value.height / 2.0) - (y + height / 2.0) == padding
    ensures !(((dir == -1 || dir == 0) && before.Some?) || (dir == 1 && after.Some?)) ==>
      y - height / 2.0 == padding
  {
    var y0 := height / 2.0 + padding;
    var y1 := if (dir == -1 || dir == 0) && before.Some? then
                before.value.y + before.value.height / 2.0 + height / 2.0 + padding
              else y0;
    if dir == 1 && after.Some? then after.value.y - after.value.height / 2.0 - height / 2.0 - padding
    else y1
  }

  /** `Utils.map`: the affine map sending [min1, max1] onto [min2, max2]. */
  function Map(value: real, min1: real, max1: real, min2: real, max2: real): (r: real)
    requires max1 != min1
    ensures value == min1 ==> r == min2
    ensures value == max1 ==> r == max2
    ensures min1 < max1 && min2 <= max2 && min1 <= value <= max1 ==> min2 <= r <= max2
  {
    (value - min1) / (max1 - min1) * (max2 - min2) + min2
  }

  /** The per-column scroll speed: odd columns get the maximum and even
    * columns the minimum, unless speed is proportional to mass, in which
    * case it is interpolated across the columns. */
  function ScrollSpeed(col: int, columns: int, minSpeed: real, maxSpeed: real, speedPropToMass: bool): (s: real)
    requires speedPropToMass ==> columns > 1
    ensures !speedPropToMass ==> s == (if col % 2 == 1 then maxSpeed else minSpeed)
    ensures speedPropToMass && 0 <= col < columns && minSpeed <= maxSpeed ==> minSpeed <= s <= maxSpeed
    ensures speedPropToMass && col == 0 ==> s == minSpeed
    ensures speedPropToMass && col == columns - 1 ==> s == maxSpeed
  {
    if !speedPropToMass then (if col % 2 != 0 then maxSpeed else minSpeed)
    else Map(col as real, 0.0, (columns - 1) as real, minSpeed, maxSpeed)
  }
}
