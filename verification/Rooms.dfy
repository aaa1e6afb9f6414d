/**
 The grid geometry of subscriptions: which rooms a viewer listens to.
 Positions and radii are exact reals; the grid size is a positive integer.
 */
module Rooms {
  import opened RoomNames

  /** The grid column (or row) of a coordinate. */
  function Cell(v: real, gridSize: int): int
    requires gridSize > 0
  {
    (v / gridSize as real).Floor
  }

  function GridRoom(x: real, y: real, gridSize: int): string
    requires gridSize > 0
  {
    RoomName(gridSize, Cell(x, gridSize), Cell(y, gridSize))
  }

  predicate IsInside(circleX: int, circleY: int, rad: int, x: int, y: int) {
    (x - circleX) * (x - circleX) + (y - circleY) * (y - circleY) <= rad * rad
  }

  /** The cell lies in the disc of the viewer, measured in whole cells. */
  predicate InDisc(x: real, y: real, gridSize: int, radius: real, i: int, j: int)
    requires gridSize > 0
  {
    IsInside(Cell(x, gridSize), Cell(y, gridSize), Cell(radius, gridSize), i, j)
  }

  /** The cell lies in the bounding box that the search scans. */
  predicate InBox(x: real, y: real, gridSize: int, radius: real, i: int, j: int)
    requires gridSize > 0
  {
    && Cell(x - radius, gridSize) <= i <= Cell(x + radius, gridSize)
    && Cell(y - radius, gridSize) <= j <= Cell(y + radius, gridSize)
  }

  /** The names of a set of cells. */
  function Names(gridSize: int, cells: set<(int, int)>): set<string> {
    set c | c in cells :: RoomName(gridSize, c.0, c.1)
  }

  lemma NameAdded(gridSize: int, cells: set<(int, int)>, i: int, j: int)
    ensures Names(gridSize, cells + {(i, j)}) == Names(gridSize, cells) + {RoomName(gridSize, i, j)}
  {
    var more := cells + {(i, j)};
    assert (i, j) in more && forall c | c in cells :: c in more;
  }

  lemma NamesAreCells(gridSize: int, cells: set<(int, int)>)
    ensures forall i, j :: RoomName(gridSize, i, j) in Names(gridSize, cells) <==> (i, j) in cells
  {
    forall i, j
      ensures RoomName(gridSize, i, j) in Names(gridSize, cells) <==> (i, j) in cells
    {
      if RoomName(gridSize, i, j) in Names(gridSize, cells) {
        var c :| c in cells && RoomName(gridSize, c.0, c.1) == RoomName(gridSize, i, j);
        RoomNameInjective(gridSize, c.0, c.1, gridSize, i, j);
      }
    }
  }

  /** A disc of cells: its centre and its radius, in cells. */
  datatype Disc = Disc(x: int, y: int, rad: int) {
    predicate Contains(i: int, j: int) {
      IsInside(x, y, rad, i, j)
    }
  }

  /** The cells of a disc in one column, from row `low` up to but not including `high`. */
  function ColumnCells(disc: Disc, i: int, low: int, high: int): set<(int, int)>
    decreases high - low
  {
    if high <= low then {}
    else ColumnCells(disc, i, low, high - 1) + if disc.Contains(i, high - 1) then {(i, high - 1)} else {}
  }

  /** The cells of a disc in a box of whole columns, without column `right` and row `high`. */
  function BoxCells(disc: Disc, left: int, right: int, low: int, high: int): set<(int, int)>
    decreases right - left
  {
    if right <= left then {}
    else BoxCells(disc, left, right - 1, low, high) + ColumnCells(disc, right - 1, low, high)
  }

  lemma {:induction false} ColumnCellsMeaning(disc: Disc, i: int, low: int, high: int, a: int, b: int)
    ensures (a, b) in ColumnCells(disc, i, low, high) <==> a == i && low <= b < high && disc.Contains(a, b)
    decreases high - low
  {
    if low < high {
      ColumnCellsMeaning(disc, i, low, high - 1, a, b);
    }
  }

  lemma {:induction false} BoxCellsMeaning(disc: Disc, left: int, right: int, low: int, high: int, a: int, b: int)
    ensures (a, b) in BoxCells(disc, left, right, low, high)
            <==> left <= a < right && low <= b < high && disc.Contains(a, b)
    decreases right - left
  {
    if left < right {
      BoxCellsMeaning(disc, left, right - 1, low, high, a, b);
      ColumnCellsMeaning(disc, right - 1, low, high, a, b);
    }
  }

  /** The two loops over a box of cells, keeping the names of those inside a disc. */
  method ScanBox(gridSize: int, disc: Disc, minRoomX: int, maxRoomX: int, minRoomY: int, maxRoomY: int)
    returns (subscriptions: set<string>)
    ensures subscriptions == Names(gridSize, BoxCells(disc, minRoomX, maxRoomX + 1, minRoomY, maxRoomY + 1))
  {
    hide RoomName;
    subscriptions := {};
    var i := minRoomX;
    while i <= maxRoomX
      invariant i <= maxRoomX + 1 || i == minRoomX
      invariant subscriptions == Names(gridSize, BoxCells(disc, minRoomX, i, minRoomY, maxRoomY + 1))
    {
      ghost var columns := BoxCells(disc, minRoomX, i, minRoomY, maxRoomY + 1);
      var j := minRoomY;
      while j <= maxRoomY
        invariant j <= maxRoomY + 1 || j == minRoomY
        invariant subscriptions == Names(gridSize, columns + ColumnCells(disc, i, minRoomY, j))
      {
        if IsInside(disc.x, disc.y, disc.rad, i, j) {
          NameAdded(gridSize, columns + ColumnCells(disc, i, minRoomY, j), i, j);
          assert columns + ColumnCells(disc, i, minRoomY, j) + {(i, j)}
              == columns + ColumnCells(disc, i, minRoomY, j + 1);
          subscriptions := subscriptions + {RoomName(gridSize, i, j)};
        }
        j := j + 1;
      }
      i := i + 1;
    }
  }

  /** The cells that the search scans and keeps. */
  function ScannedCells(x: real, y: real, gridSize: int, radius: real): set<(int, int)>
    requires gridSize > 0
  {
    BoxCells(Disc(Cell(x, gridSize), Cell(y, gridSize), Cell(radius, gridSize)),
             Cell(x - radius, gridSize), Cell(x + radius, gridSize) + 1,
             Cell(y - radius, gridSize), Cell(y + radius, gridSize) + 1)
  }

  lemma ScannedIsDisc(x: real, y: real, gridSize: int, radius: real)
    requires gridSize > 0
    ensures radius >= 0.0
            <==> forall i, j :: (i, j) in ScannedCells(x, y, gridSize, radius) <==> InDisc(x, y, gridSize, radius, i, j)
  {
    BoxClipsExactlyNegativeRadii(x, y, gridSize, radius);
    forall i, j
      ensures (i, j) in ScannedCells(x, y, gridSize, radius)
              <==> InBox(x, y, gridSize, radius, i, j) && InDisc(x, y, gridSize, radius, i, j)
    {
      BoxCellsMeaning(Disc(Cell(x, gridSize), Cell(y, gridSize), Cell(radius, gridSize)),
                      Cell(x - radius, gridSize), Cell(x + radius, gridSize) + 1,
                      Cell(y - radius, gridSize), Cell(y + radius, gridSize) + 1, i, j);
    }
  }

  /**
   For a radius of zero or more, exactly the names of the cells of the disc. Whatever the radius,
   nothing but names of scanned cells.
   */
  method GetNearestRooms(x: real, y: real, gridSize: int, radius: real) returns (subscriptions: set<string>)
    requires gridSize > 0
    ensures subscriptions == Names(gridSize, ScannedCells(x, y, gridSize, radius))
    ensures radius >= 0.0 ==> forall i, j :: RoomName(gridSize, i, j) in subscriptions
                                             <==> InDisc(x, y, gridSize, radius, i, j)
  {
    hide RoomName, BoxCells, Cell;
    subscriptions := ScanBox(gridSize, Disc(Cell(x, gridSize), Cell(y, gridSize), Cell(radius, gridSize)),
                             Cell(x - radius, gridSize), Cell(x + radius, gridSize),
                             Cell(y - radius, gridSize), Cell(y + radius, gridSize));
    NamesAreCells(gridSize, ScannedCells(x, y, gridSize, radius));
    ScannedIsDisc(x, y, gridSize, radius);
  }

  // ---- The box contains the disc ----

  lemma SquareBound(d: int, e: int, r: int)
    requires r >= 0
    requires d * d + e * e <= r * r
    ensures -r <= d <= r && -r <= e <= r
  {
    assert d * d >= 0 && e * e >= 0;
    if d > r || d < -r {
      SquareMonotone(r, if d < 0 then -d else d);
    }
    if e > r || e < -r {
      SquareMonotone(r, if e < 0 then -e else e);
    }
  }

  lemma SquareMonotone(a: int, b: int)
    requires 0 <= a < b
    ensures a * a < b * b
  {
    assert (b - a) * (b + a) > 0;
  }

  /** Floors of a difference and of a sum against the floors of the terms. */
  lemma FloorBounds(a: real, b: real)
    ensures (a - b).Floor <= a.Floor - b.Floor
    ensures (a + b).Floor >= a.Floor + b.Floor
  {
  }

  lemma DivisionDistributes(a: real, b: real, c: real)
    requires c != 0.0
    ensures (a + b) / c == a / c + b / c
    ensures (a - b) / c == a / c - b / c
  {
  }

  /** For a radius of zero or more, every cell of the disc is scanned. */
  lemma BoxNeverClips(x: real, y: real, gridSize: int, radius: real, i: int, j: int)
    requires gridSize > 0 && radius >= 0.0
    requires InDisc(x, y, gridSize, radius, i, j)
    ensures InBox(x, y, gridSize, radius, i, j)
  {
    var g := gridSize as real;
    var r := Cell(radius, gridSize);
    assert radius / g >= 0.0;
    SquareBound(i - Cell(x, gridSize), j - Cell(y, gridSize), r);
    DivisionDistributes(x, radius, g);
    DivisionDistributes(y, radius, g);
    FloorBounds(x / g, radius / g);
    FloorBounds(y / g, radius / g);
  }

  /** A negative radius always clips: the cell to the right of the viewer is in the disc but is not scanned. */
  lemma BoxClipsExactlyNegativeRadii(x: real, y: real, gridSize: int, radius: real)
    requires gridSize > 0
    ensures (forall i, j | InDisc(x, y, gridSize, radius, i, j) :: InBox(x, y, gridSize, radius, i, j))
            <==> radius >= 0.0
  {
    if radius >= 0.0 {
      forall i, j | InDisc(x, y, gridSize, radius, i, j)
        ensures InBox(x, y, gridSize, radius, i, j)
      {
        BoxNeverClips(x, y, gridSize, radius, i, j);
      }
    } else {
      var g := gridSize as real;
      assert radius / g < 0.0;
      DivisionDistributes(x, radius, g);
      var r := Cell(radius, gridSize);
      SquareMonotone(0, -r);
      assert r * r == (-r) * (-r);
      assert InDisc(x, y, gridSize, radius, Cell(x, gridSize) + 1, Cell(y, gridSize));
      assert !InBox(x, y, gridSize, radius, Cell(x, gridSize) + 1, Cell(y, gridSize));
    }
  }

  // ---- Subscribers and publishers ----

  function Abs(v: real): real {
    if v < 0.0 then -v else v
  }

  function Excess(v: real): real {
    if v < 0.0 then 0.0 else v
  }

  /** A viewer at (vx, vy) hears a publisher at (px, py). */
  predicate Hears(vx: real, vy: real, gridSize: int, radius: real, px: real, py: real)
    requires gridSize > 0
  {
    InDisc(vx, vy, gridSize, radius, Cell(px, gridSize), Cell(py, gridSize))
  }

  /** The publisher's room is in the viewer's subscription exactly when the viewer hears the publisher. */
  lemma HearingIsSubscribing(vx: real, vy: real, gridSize: int, radius: real, px: real, py: real)
    requires gridSize > 0 && radius >= 0.0
    ensures GridRoom(px, py, gridSize) in Names(gridSize, ScannedCells(vx, vy, gridSize, radius))
            <==> Hears(vx, vy, gridSize, radius, px, py)
  {
    hide RoomName, Cell, BoxCells, Names;
    ScannedIsDisc(vx, vy, gridSize, radius);
    NamesAreCells(gridSize, ScannedCells(vx, vy, gridSize, radius));
  }

  lemma ScaleLess(a: real, b: real, g: real)
    requires g > 0.0
    ensures a <= b <==> g * a <= g * b
    ensures a < b <==> g * a < g * b
  {
  }

  lemma DivisionFloor(a: real, g: real)
    requires g > 0.0
    ensures var f := (a / g).Floor as real; g * f <= a < g * f + g
  {
    var q := a / g;
    var f := q.Floor as real;
    assert g * q == a;
    var next := f + 1.0;
    ScaleLess(f, q, g);
    ScaleLess(q, next, g);
    Distributes(g, f, 1.0);
    assert g * next == g * f + g * 1.0;
    assert a < g * f + g;
  }

  lemma ScaledDistance(g: real, p: real, q: real)
    requires g > 0.0
    ensures g * Abs(q - p) == Abs(g * q - g * p)
  {
    if p <= q {
      ScaleLess(p, q, g);
      assert g * (q - p) == g * q - g * p;
    } else {
      ScaleLess(q, p, g);
      assert g * (p - q) == g * p - g * q;
    }
  }

  lemma CornerDistance(a: real, b: real, p: real, q: real, g: real)
    requires p <= a < p + g && q <= b < q + g
    ensures Abs(b - a) - g <= Abs(q - p) <= Abs(b - a) + g
  {
  }

  lemma ScaledCorners(a: real, b: real, p: real, q: real, g: real)
    requires g > 0.0
    requires g * p <= a < g * p + g && g * q <= b < g * q + g
    ensures Abs(b - a) - g <= g * Abs(q - p) <= Abs(b - a) + g
  {
    ScaledDistance(g, p, q);
    CornerDistance(a, b, g * p, g * q, g);
  }

  lemma CellContains(a: real, gridSize: int)
    requires gridSize > 0
    ensures var low := gridSize as real * Cell(a, gridSize) as real; low <= a < low + gridSize as real
  {
    DivisionFloor(a, gridSize as real);
  }

  /** The distance between two cells, in map units, is within one cell of the true distance. */
  lemma CellDistance(a: real, b: real, gridSize: int)
    requires gridSize > 0
    ensures Abs(b - a) - gridSize as real <= Span(a, b, gridSize) <= Abs(b - a) + gridSize as real
  {
    CellContains(a, gridSize);
    CellContains(b, gridSize);
    ScaledCorners(a, b, Cell(a, gridSize) as real, Cell(b, gridSize) as real, gridSize as real);
  }

  function Product(a: real, b: real): real {
    a * b
  }

  function Square(v: real): real {
    Product(v, v)
  }

  lemma ProductPositive(a: real, b: real)
    requires a > 0.0 && b > 0.0
    ensures Product(a, b) > 0.0
  {
  }

  lemma SquareGrows(a: real, b: real)
    requires 0.0 <= a <= b
    ensures Square(a) <= Square(b)
  {
  }

  lemma SquarePositive(g: real)
    requires g > 0.0
    ensures Square(g) > 0.0
  {
    ProductPositive(g, g);
  }

  lemma SquareOfProduct(g: real, d: real)
    ensures Square(g * d) == Square(g) * Square(d)
  {
  }

  lemma AbsSquare(d: int)
    ensures Square(Abs(d as real)) == (d * d) as real
  {
    assert (d * d) as real == d as real * d as real;
    assert Square(-(d as real)) == Square(d as real);
  }

  lemma Distributes(k: real, a: real, b: real)
    ensures k * (a + b) == k * a + k * b
  {
  }

  lemma ScaledSquares(a: real, b: real, c: real, g: real)
    requires g > 0.0
    ensures Square(a) + Square(b) <= Square(c) <==> Square(g * a) + Square(g * b) <= Square(g * c)
  {
    SquarePositive(g);
    SquareOfProduct(g, a);
    SquareOfProduct(g, b);
    SquareOfProduct(g, c);
    Distributes(Square(g), Square(a), Square(b));
    ScaleLess(Square(a) + Square(b), Square(c), Square(g));
  }

  /** Comparing whole cells is comparing map units. */
  lemma ScaledDisc(d: int, e: int, r: int, g: real)
    requires g > 0.0
    ensures d * d + e * e <= r * r
            <==> Square(g * Abs(d as real)) + Square(g * Abs(e as real)) <= Square(g * r as real)
  {
    ScaledSquares(Abs(d as real), Abs(e as real), r as real, g);
    AbsSquare(d);
    AbsSquare(e);
    AbsSquare(r);
    assert Square(-(r as real)) == Square(r as real);
  }

  /** The cell distance of two coordinates in map units. */
  function Span(a: real, b: real, gridSize: int): (d: real)
    requires gridSize > 0
  {
    gridSize as real * Abs(Cell(b, gridSize) as real - Cell(a, gridSize) as real)
  }

  /** The radius rounded down to whole cells, in map units. */
  function Reach(radius: real, gridSize: int): (r: real)
    requires gridSize > 0
  {
    gridSize as real * Cell(radius, gridSize) as real
  }

  lemma SpanBounds(a: real, b: real, gridSize: int)
    requires gridSize > 0
    ensures 0.0 <= Span(a, b, gridSize)
    ensures Excess(Abs(b - a) - gridSize as real) <= Span(a, b, gridSize) <= Abs(b - a) + gridSize as real
  {
    CellDistance(a, b, gridSize);
    ScaleLess(0.0, Abs(Cell(b, gridSize) as real - Cell(a, gridSize) as real), gridSize as real);
  }

  lemma ReachBounds(radius: real, gridSize: int)
    requires gridSize > 0 && radius >= 0.0
    ensures 0.0 <= Reach(radius, gridSize) <= radius
  {
    DivisionFloor(radius, gridSize as real);
    assert radius / gridSize as real >= 0.0;
    ScaleLess(0.0, Cell(radius, gridSize) as real, gridSize as real);
  }

  lemma HearsBySpan(vx: real, vy: real, gridSize: int, radius: real, px: real, py: real)
    requires gridSize > 0
    ensures var (dx, dy, r) := (Span(vx, px, gridSize), Span(vy, py, gridSize), Reach(radius, gridSize));
            Hears(vx, vy, gridSize, radius, px, py) <==> Square(dx) + Square(dy) <= Square(r)
  {
    var d, e := Cell(px, gridSize) - Cell(vx, gridSize), Cell(py, gridSize) - Cell(vy, gridSize);
    ScaledDisc(d, e, Cell(radius, gridSize), gridSize as real);
    assert d as real == Cell(px, gridSize) as real - Cell(vx, gridSize) as real;
    assert e as real == Cell(py, gridSize) as real - Cell(vy, gridSize) as real;
  }

  /** A publisher well inside the viewer's whole-cell radius is always heard. */
  lemma NearbyIsHeard(vx: real, vy: real, gridSize: int, radius: real, px: real, py: real)
    requires gridSize > 0 && radius >= 0.0
    requires var (dx, dy, r) := (Abs(px - vx) + gridSize as real, Abs(py - vy) + gridSize as real,
             Reach(radius, gridSize));
             Square(dx) + Square(dy) <= Square(r)
    ensures GridRoom(px, py, gridSize) in Names(gridSize, ScannedCells(vx, vy, gridSize, radius))
  {
    HearingIsSubscribing(vx, vy, gridSize, radius, px, py);
    hide GridRoom, Names, ScannedCells;
    HearsBySpan(vx, vy, gridSize, radius, px, py);
    SpanBounds(vx, px, gridSize);
    SpanBounds(vy, py, gridSize);
    SquareGrows(Span(vx, px, gridSize), Abs(px - vx) + gridSize as real);
    SquareGrows(Span(vy, py, gridSize), Abs(py - vy) + gridSize as real);
  }

  /** Whatever is heard lies, up to one cell on each axis, within the radius. */
  lemma HeardIsNearby(vx: real, vy: real, gridSize: int, radius: real, px: real, py: real)
    requires gridSize > 0 && radius >= 0.0
    requires GridRoom(px, py, gridSize) in Names(gridSize, ScannedCells(vx, vy, gridSize, radius))
    ensures var (dx, dy) := (Excess(Abs(px - vx) - gridSize as real), Excess(Abs(py - vy) - gridSize as real));
            Square(dx) + Square(dy) <= Square(radius)
  {
    HearingIsSubscribing(vx, vy, gridSize, radius, px, py);
    hide GridRoom, Names, ScannedCells;
    HearsBySpan(vx, vy, gridSize, radius, px, py);
    SpanBounds(vx, px, gridSize);
    SpanBounds(vy, py, gridSize);
    SquareGrows(Excess(Abs(px - vx) - gridSize as real), Span(vx, px, gridSize));
    SquareGrows(Excess(Abs(py - vy) - gridSize as real), Span(vy, py, gridSize));
    ReachBounds(radius, gridSize);
    SquareGrows(Reach(radius, gridSize), radius);
  }

  /** Of two viewers with one radius, each is subscribed to the other's room or neither is. */
  lemma HearingIsMutual(vx: real, vy: real, gridSize: int, radius: real, px: real, py: real)
    requires gridSize > 0 && radius >= 0.0
    ensures GridRoom(px, py, gridSize) in Names(gridSize, ScannedCells(vx, vy, gridSize, radius))
            <==> GridRoom(vx, vy, gridSize) in Names(gridSize, ScannedCells(px, py, gridSize, radius))
  {
    HearingIsSubscribing(vx, vy, gridSize, radius, px, py);
    HearingIsSubscribing(px, py, gridSize, radius, vx, vy);
    hide GridRoom, Names, ScannedCells, Cell;
    var d, e := Cell(px, gridSize) - Cell(vx, gridSize), Cell(py, gridSize) - Cell(vy, gridSize);
    assert d * d == (-d) * (-d) && e * e == (-e) * (-e);
  }
}
