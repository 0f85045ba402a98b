/**
 * The rhombus board of classes.py: which coordinates exist, how many there
 * are, and which cells are neighbours of which.
 */
module Geometry {

  /** A cell coordinate: (row, column). */
  type Coord = (int, int)

  function Shift(c: Coord, d: Coord): Coord
  {
    (c.0 + d.0, c.1 + d.1)
  }

  /**
   * The validity test the source repeats in construction, in adjacency and
   * in rounding: rows of the upper triangle grow, rows of the lower one shrink.
   */
  predicate OnBoard(size: nat, c: Coord)
  {
    0 <= c.0 < 2 * size &&
    ((0 <= c.1 <= c.0 < size) || (0 <= c.1 < 2 * size - c.0 - 1 && c.0 >= size))
  }

  /** Number of cells in row i. */
  function RowLength(size: nat, i: int): nat
  {
    if 0 <= i < size then i + 1
    else if size <= i < 2 * size then 2 * size - i - 1
    else 0
  }

  /** Every coordinate of a board of the given size. */
  function Board(size: nat): (b: set<Coord>)
    ensures forall c :: c in b <==> OnBoard(size, c)
    ensures forall c :: c in b <==> 0 <= c.1 < RowLength(size, c.0)
  {
    set i, j | 0 <= i < 2 * size && 0 <= j < 2 * size && OnBoard(size, (i, j)) :: (i, j)
  }

  /** The cells (i, 0) .. (i, m - 1). */
  function RowCells(i: int, m: nat): (r: set<Coord>)
    ensures |r| == m
    ensures forall c :: c in r <==> c.0 == i && 0 <= c.1 < m
  {
    if m == 0 then {} else RowCells(i, m - 1) + {(i, m - 1)}
  }

  /** The cells of the board in rows 0 .. k - 1. */
  function RowsAbove(size: nat, k: int): set<Coord>
  {
    set c | c in Board(size) && c.0 < k
  }

  /** Sum of the lengths of rows 0 .. k - 1. */
  function CellsAbove(size: nat, k: nat): nat
  {
    if k == 0 then 0 else CellsAbove(size, k - 1) + RowLength(size, k - 1)
  }

  lemma {:induction false} RowsAboveCount(size: nat, k: nat)
    ensures |RowsAbove(size, k)| == CellsAbove(size, k)
  {
    if k == 0 {
      RowsAboveNone(size);
    } else {
      RowsAboveCount(size, k - 1);
      RowsAboveSplit(size, k);
    }
  }

  /** No cell lies above row 0. */
  lemma RowsAboveNone(size: nat)
    ensures RowsAbove(size, 0) == {}
  {
    forall c | c in RowsAbove(size, 0) ensures false {
    }
  }

  /** Rows 0 .. k - 1 hold the cells of rows 0 .. k - 2 and, apart from them, those of row k - 1. */
  lemma RowsAboveSplit(size: nat, k: nat)
    requires k > 0
    ensures |RowsAbove(size, k)| == |RowsAbove(size, k - 1)| + RowLength(size, k - 1)
  {
    var above, row := RowsAbove(size, k - 1), RowCells(k - 1, RowLength(size, k - 1));
    assert RowsAbove(size, k) == above + row by {
      forall c ensures c in RowsAbove(size, k) <==> c in above + row {
      }
    }
    assert above * row == {} by {
      forall c | c in row ensures c !in above {
      }
    }
  }

  lemma {:induction false} CellsAboveClosedForm(size: nat, k: nat)
    requires k <= 2 * size
    ensures 2 * CellsAbove(size, k) ==
            if k <= size then k * (k + 1)
            else size * (size + 1) + (k - size) * (3 * size - k - 1)
  {
    if k > 0 {
      CellsAboveClosedForm(size, k - 1);
      if k <= size {
        assert k * (k + 1) == (k - 1) * k + 2 * k;
      } else if k - 1 == size {
        assert (k - size) * (3 * size - k - 1) == 2 * (size - 1);
      } else {
        var a := k - 1 - size;
        assert (a + 1) * (3 * size - k - 1) == a * (3 * size - k - 1) + (3 * size - k - 1);
        assert a * (3 * size - k) == a * (3 * size - k - 1) + a;
      }
    }
  }

  /** A board of side n has n * n cells. */
  lemma BoardSize(size: nat)
    ensures |Board(size)| == size * size
  {
    RowsAboveCount(size, 2 * size);
    CellsAboveClosedForm(size, 2 * size);
    assert RowsAbove(size, 2 * size) == Board(size);
    assert size * (3 * size - 2 * size - 1) == size * size - size;
  }

  /**
   * The coordinates c + d, for d in offsets, that lie on the board: the
   * filtering loop of get_neighbours.
   */
  function Filtered(size: nat, c: Coord, offsets: seq<Coord>): (r: set<Coord>)
    ensures |r| <= |offsets|
  {
    if offsets == [] then {} else Keep(size, Shift(c, offsets[0])) + Filtered(size, c, offsets[1..])
  }

  /** The cell d, if it lies on the board. */
  function Keep(size: nat, d: Coord): set<Coord>
  {
    if OnBoard(size, d) then {d} else {}
  }

  /** Filtering keeps exactly the shifted cells that lie on the board. */
  lemma {:induction false} FilteredMembers(size: nat, c: Coord, offsets: seq<Coord>, d: Coord)
    ensures d in Filtered(size, c, offsets) <==>
      OnBoard(size, d) && exists k :: 0 <= k < |offsets| && d == Shift(c, offsets[k])
  {
    if offsets != [] {
      FilteredMembers(size, c, offsets[1..], d);
      assert forall k :: 1 <= k < |offsets| ==> offsets[k] == offsets[1..][k - 1];
      if d in Filtered(size, c, offsets[1..]) {
        var k :| 0 <= k < |offsets[1..]| && d == Shift(c, offsets[1..][k]);
        assert d == Shift(c, offsets[k + 1]);
      }
    }
  }

  /** The six offsets of classes.py, used in both halves of the rhombus. */
  const Offsets: seq<Coord> := [(-1, -1), (-1, 0), (0, -1), (0, 1), (1, 0), (1, 1)]

  /** get_neighbours as written. */
  function NeighboursAsWritten(size: nat, c: Coord): (r: set<Coord>)
    ensures |r| <= 6
    ensures r <= Board(size)
    ensures c !in r
  {
    var r := Filtered(size, c, Offsets);
    assert forall d | d in r :: OnBoard(size, d) && d != c by {
      forall d | d in r ensures OnBoard(size, d) && d != c {
        FilteredMembers(size, c, Offsets, d);
      }
    }
    r
  }

  /**
   * The offsets of the six cells around a cell in the given row: the row
   * above is shifted left in the upper triangle and right in the lower one;
   * the row below is shifted right above the widest row and left from it on.
   */
  function HexOffsets(size: nat, row: int): seq<Coord>
  {
    if row < size - 1 then [(-1, -1), (-1, 0), (0, -1), (0, 1), (1, 0), (1, 1)]
    else if row == size - 1 then [(-1, -1), (-1, 0), (0, -1), (0, 1), (1, -1), (1, 0)]
    else [(-1, 0), (-1, 1), (0, -1), (0, 1), (1, -1), (1, 0)]
  }

  /** The neighbours of a cell on the drawn hexagonal grid. */
  function Neighbours(size: nat, c: Coord): (r: set<Coord>)
    ensures |r| <= 6
    ensures r <= Board(size)
    ensures c !in r
  {
    var r := Filtered(size, c, HexOffsets(size, c.0));
    assert forall d | d in r :: OnBoard(size, d) && d != c by {
      forall d | d in r ensures OnBoard(size, d) && d != c {
        FilteredMembers(size, c, HexOffsets(size, c.0), d);
      }
    }
    r
  }

  /**
   * Horizontal position of a cell's centre, in half cell widths from the
   * board's axis, as the board is drawn (graphics.py, get_gui_from_math).
   */
  function ScreenColumn(size: nat, c: Coord): int
  {
    if c.0 < size then 2 * c.1 - c.0 else 2 * c.1 - 2 * size + c.0 + 2
  }

  /** Two drawn hexagons share a side: same row and one cell apart, or adjacent rows and half a cell apart. */
  predicate Touching(size: nat, a: Coord, b: Coord)
  {
    var dx := ScreenColumn(size, b) - ScreenColumn(size, a);
    (b.0 == a.0 && (dx == 2 || dx == -2)) ||
    ((b.0 == a.0 + 1 || b.0 == a.0 - 1) && (dx == 1 || dx == -1))
  }

  /** Two cells of the board whose drawn hexagons share a side. */
  predicate Adjacent(size: nat, a: Coord, b: Coord)
  {
    OnBoard(size, a) && OnBoard(size, b) && Touching(size, a, b)
  }

  lemma OffsetTouches(size: nat, a: Coord, k: int)
    requires OnBoard(size, a) && 0 <= k < 6 && OnBoard(size, Shift(a, HexOffsets(size, a.0)[k]))
    ensures Touching(size, a, Shift(a, HexOffsets(size, a.0)[k]))
  {
    if a.0 < size - 1 {
    } else if a.0 == size - 1 {
    } else {
    }
  }

  lemma NeighboursTouch(size: nat, a: Coord, b: Coord)
    requires OnBoard(size, a) && b in Neighbours(size, a)
    ensures OnBoard(size, b) && Touching(size, a, b)
  {
    var offs := HexOffsets(size, a.0);
    FilteredMembers(size, a, offs, b);
    var k :| 0 <= k < |offs| && b == Shift(a, offs[k]);
    OffsetTouches(size, a, k);
  }

  lemma TouchingNeighbours(size: nat, a: Coord, b: Coord)
    requires OnBoard(size, a) && OnBoard(size, b) && Touching(size, a, b)
    ensures b in Neighbours(size, a)
  {
    var offs := HexOffsets(size, a.0);
    var d := (b.0 - a.0, b.1 - a.1);
    assert b == Shift(a, d);
    var k: int;
    if b.0 == a.0 {
      k := if d == offs[2] then 2 else 3;
    } else if b.0 == a.0 - 1 {
      k := if d == offs[0] then 0 else 1;
    } else {
      k := if d == offs[4] then 4 else 5;
    }
    assert b == Shift(a, offs[k]);
    FilteredMembers(size, a, offs, b);
  }

  /** The corrected adjacency is exactly "the drawn hexagons share a side". */
  lemma NeighboursAreTouching(size: nat, a: Coord, b: Coord)
    requires OnBoard(size, a)
    ensures b in Neighbours(size, a) <==> OnBoard(size, b) && Touching(size, a, b)
  {
    if b in Neighbours(size, a) {
      NeighboursTouch(size, a, b);
    }
    if OnBoard(size, b) && Touching(size, a, b) {
      TouchingNeighbours(size, a, b);
    }
  }

  /** Adjacency is symmetric. */
  lemma NeighboursSymmetric(size: nat, a: Coord, b: Coord)
    requires OnBoard(size, a)
    ensures b in Neighbours(size, a) ==> a in Neighbours(size, b)
  {
    if b in Neighbours(size, a) {
      NeighboursAreTouching(size, a, b);
      NeighboursAreTouching(size, b, a);
    }
  }

  /** The six offsets are the unit steps whose two components differ by at most one. */
  lemma OffsetsAreUnitSteps(d: Coord)
    ensures d in Offsets <==> -1 <= d.0 <= 1 && -1 <= d.1 <= 1 && -1 <= d.0 - d.1 <= 1 && d != (0, 0)
  {
  }

  /** As written, adjacency is symmetric too: the six offsets are closed under negation. */
  lemma NeighboursAsWrittenSymmetric(size: nat, a: Coord, b: Coord)
    requires OnBoard(size, a)
    ensures b in NeighboursAsWritten(size, a) ==> a in NeighboursAsWritten(size, b)
  {
    FilteredHas(size, a, Offsets, b);
    FilteredHas(size, b, Offsets, a);
    OffsetsAreUnitSteps((b.0 - a.0, b.1 - a.1));
    OffsetsAreUnitSteps((a.0 - b.0, a.1 - b.1));
  }

  /**
   * The rule a game links cells along: get_neighbours' six fixed offsets
   * (AsWritten), or the cells whose drawn hexagons share a side (Drawn).
   */
  datatype Layout = AsWritten | Drawn

  /** The offsets a layout uses around a cell of the given row. */
  function LayoutOffsets(layout: Layout, size: nat, row: int): seq<Coord>
  {
    match layout
    case AsWritten => Offsets
    case Drawn => HexOffsets(size, row)
  }

  /** The neighbours of c under a layout. */
  function NeighboursIn(layout: Layout, size: nat, c: Coord): (r: set<Coord>)
    ensures |r| <= 6
    ensures r <= Board(size)
    ensures c !in r
  {
    match layout
    case AsWritten => NeighboursAsWritten(size, c)
    case Drawn => Neighbours(size, c)
  }

  /** Cell b of the board is a neighbour of cell a under the layout. */
  predicate Neighbouring(layout: Layout, size: nat, a: Coord, b: Coord)
  {
    OnBoard(size, a) && b in NeighboursIn(layout, size, a)
  }

  /** Filtering keeps exactly the board cells whose offset from c is one of offs. */
  lemma FilteredHas(size: nat, c: Coord, offs: seq<Coord>, d: Coord)
    ensures d in Filtered(size, c, offs) <==> OnBoard(size, d) && (d.0 - c.0, d.1 - c.1) in offs
  {
    FilteredMembers(size, c, offs, d);
    var diff := (d.0 - c.0, d.1 - c.1);
    if OnBoard(size, d) && diff in offs {
      var k :| 0 <= k < |offs| && offs[k] == diff;
      assert d == Shift(c, offs[k]);
    }
  }

  /** The neighbours under a layout are the board cells at one of its offsets. */
  lemma NeighboursInOffsets(layout: Layout, size: nat, c: Coord, d: Coord)
    ensures d in NeighboursIn(layout, size, c) <==>
      OnBoard(size, d) && (d.0 - c.0, d.1 - c.1) in LayoutOffsets(layout, size, c.0)
  {
    FilteredHas(size, c, LayoutOffsets(layout, size, c.0), d);
  }

  /** Under either layout, being neighbours is symmetric. */
  lemma NeighbouringSymmetric(layout: Layout, size: nat, a: Coord, b: Coord)
    ensures Neighbouring(layout, size, a, b) ==> Neighbouring(layout, size, b, a)
  {
    if Neighbouring(layout, size, a, b) {
      match layout
      case AsWritten => NeighboursAsWrittenSymmetric(size, a, b);
      case Drawn => NeighboursSymmetric(size, a, b);
    }
  }

  /** Under the drawn layout, the neighbours of a board cell are exactly the cells touching it. */
  lemma DrawnIsTouching(size: nat, a: Coord, b: Coord)
    ensures Neighbouring(Drawn, size, a, b) <==> Adjacent(size, a, b)
  {
    if OnBoard(size, a) {
      NeighboursAreTouching(size, a, b);
    }
  }

  /** Filtering six offsets, spelled out. */
  lemma FilteredSix(size: nat, c: Coord, offs: seq<Coord>)
    requires |offs| == 6
    ensures Filtered(size, c, offs) ==
      Keep(size, Shift(c, offs[0])) + (Keep(size, Shift(c, offs[1])) + (Keep(size, Shift(c, offs[2])) +
      (Keep(size, Shift(c, offs[3])) + (Keep(size, Shift(c, offs[4])) + Keep(size, Shift(c, offs[5]))))))
  {
    var s1 := offs[1..];
    var s2 := s1[1..];
    var s3 := s2[1..];
    var s4 := s3[1..];
    var s5 := s4[1..];
    assert s1[0] == offs[1] && s2[0] == offs[2] && s3[0] == offs[3] && s4[0] == offs[4] && s5[0] == offs[5];
    assert s5[1..] == [];
    assert Filtered(size, c, s5) == Keep(size, Shift(c, offs[5])) + Filtered(size, c, []);
    assert Filtered(size, c, s4) == Keep(size, Shift(c, offs[4])) + Filtered(size, c, s5);
    assert Filtered(size, c, s3) == Keep(size, Shift(c, offs[3])) + Filtered(size, c, s4);
    assert Filtered(size, c, s2) == Keep(size, Shift(c, offs[2])) + Filtered(size, c, s3);
    assert Filtered(size, c, s1) == Keep(size, Shift(c, offs[1])) + Filtered(size, c, s2);
    assert Filtered(size, c, offs) == Keep(size, Shift(c, offs[0])) + Filtered(size, c, s1);
  }

  /** Filtering six offsets whose kept cells are known. */
  lemma FilteredOfKeeps(size: nat, c: Coord, offs: seq<Coord>, k0: set<Coord>, k1: set<Coord>, k2: set<Coord>,
                        k3: set<Coord>, k4: set<Coord>, k5: set<Coord>)
    requires |offs| == 6
    requires Keep(size, Shift(c, offs[0])) == k0 && Keep(size, Shift(c, offs[1])) == k1
    requires Keep(size, Shift(c, offs[2])) == k2 && Keep(size, Shift(c, offs[3])) == k3
    requires Keep(size, Shift(c, offs[4])) == k4 && Keep(size, Shift(c, offs[5])) == k5
    ensures Filtered(size, c, offs) == k0 + (k1 + (k2 + (k3 + (k4 + k5))))
  {
    FilteredSix(size, c, offs);
  }

  /** The board of size 1 is the single cell (0, 0). */
  lemma SingleCellBoard()
    ensures Board(1) == {(0, 0)}
  {
    forall c | OnBoard(1, c)
      ensures c == (0, 0)
    {
    }
  }

  /** A one-cell board: the cell has no neighbours (either adjacency). */
  lemma SingleCellHasNoNeighbours()
    ensures NeighboursAsWritten(1, (0, 0)) == {}
    ensures Neighbours(1, (0, 0)) == {}
  {
    SingleCellBoard();
  }

  /** The top corner has exactly the two cells below it (either adjacency). */
  lemma TopCornerNeighbours(size: nat)
    requires size >= 2
    ensures NeighboursAsWritten(size, (0, 0)) == {(1, 0), (1, 1)}
    ensures Neighbours(size, (0, 0)) == {(1, 0), (1, 1)}
  {
    var c, none: set<Coord> := (0, 0), {};
    assert HexOffsets(size, 0) == Offsets;
    assert none + (none + (none + (none + ({(1, 0)} + {(1, 1)})))) == {(1, 0), (1, 1)};
    FilteredOfKeeps(size, c, Offsets, none, none, none, none, {(1, 0)}, {(1, 1)});
  }

  /** An inner cell of the upper triangle has six neighbours (either adjacency). */
  lemma InnerCellNeighbours()
    ensures NeighboursAsWritten(4, (2, 1)) == {(1, 0), (1, 1), (2, 0), (2, 2), (3, 1), (3, 2)}
    ensures Neighbours(4, (2, 1)) == {(1, 0), (1, 1), (2, 0), (2, 2), (3, 1), (3, 2)}
  {
    var c := (2, 1);
    assert HexOffsets(4, 2) == Offsets;
    assert {(1, 0)} + ({(1, 1)} + ({(2, 0)} + ({(2, 2)} + ({(3, 1)} + {(3, 2)})))) ==
      {(1, 0), (1, 1), (2, 0), (2, 2), (3, 1), (3, 2)};
    FilteredOfKeeps(4, c, Offsets, {(1, 0)}, {(1, 1)}, {(2, 0)}, {(2, 2)}, {(3, 1)}, {(3, 2)});
  }

  /**
   * Where the two adjacencies part: in the lower triangle the rows are drawn
   * shifted the other way, so the six fixed offsets link cells whose
   * hexagons do not touch and miss cells whose hexagons do.
   */
  lemma AsWrittenMisplacesLowerLinks(size: nat)
    requires size >= 3
    ensures (size, 1) in NeighboursAsWritten(size, (size - 1, 0))
    ensures !Touching(size, (size - 1, 0), (size, 1))
    ensures (size, 0) !in NeighboursAsWritten(size, (size - 1, 1))
    ensures Touching(size, (size - 1, 1), (size, 0))
  {
    FilteredHas(size, (size - 1, 0), Offsets, (size, 1));
    OffsetsAreUnitSteps((1, 1));
    FilteredHas(size, (size - 1, 1), Offsets, (size, 0));
    OffsetsAreUnitSteps((1, -1));
  }

  /** As written, the bottom corner has a single neighbour. */
  lemma AsWrittenBottomCorner(size: nat)
    requires size >= 2
    ensures NeighboursAsWritten(size, (2 * size - 2, 0)) == {(2 * size - 3, 0)}
  {
    var corner, up, none: set<Coord> := (2 * size - 2, 0), (2 * size - 3, 0), {};
    assert none + ({up} + (none + (none + (none + none)))) == {up};
    FilteredOfKeeps(size, corner, Offsets, none, {up}, none, none, none, none);
  }

  /** The bottom corner's drawn hexagon touches the two cells above it. */
  lemma BottomCornerNeighbours(size: nat)
    requires size >= 2
    ensures Neighbours(size, (2 * size - 2, 0)) == {(2 * size - 3, 0), (2 * size - 3, 1)}
  {
    var corner := (2 * size - 2, 0);
    var hex := HexOffsets(size, corner.0);
    assert hex == [(-1, 0), (-1, 1), (0, -1), (0, 1), (1, -1), (1, 0)];
    var left, right, none: set<Coord> := (2 * size - 3, 0), (2 * size - 3, 1), {};
    assert {left} + ({right} + (none + (none + (none + none)))) == {left, right};
    assert OnBoard(size, left) && OnBoard(size, right) by {
      if size > 2 {
        assert 2 * size - 3 >= size;
      }
    }
    FilteredOfKeeps(size, corner, hex, {left}, {right}, none, none, none, none);
  }

  /** The left corner's drawn hexagon touches the cell above, the next cell of its row and the cell below. */
  lemma LeftCornerNeighbours(size: nat)
    requires size >= 2
    ensures Neighbours(size, (size - 1, 0)) == {(size - 2, 0), (size - 1, 1), (size, 0)}
  {
    var hex := HexOffsets(size, size - 1);
    assert hex == [(-1, -1), (-1, 0), (0, -1), (0, 1), (1, -1), (1, 0)];
    var none: set<Coord> := {};
    var up, next, down := (size - 2, 0), (size - 1, 1), (size, 0);
    assert OnBoard(size, up) && OnBoard(size, next) && OnBoard(size, down);
    assert none + ({up} + (none + ({next} + (none + {down})))) == {up, next, down};
    FilteredOfKeeps(size, (size - 1, 0), hex, none, {up}, none, {next}, none, {down});
  }

  /** The right corner's drawn hexagon touches the cell above, the previous cell of its row and the cell below. */
  lemma RightCornerNeighbours(size: nat)
    requires size >= 2
    ensures Neighbours(size, (size - 1, size - 1)) == {(size - 2, size - 2), (size - 1, size - 2), (size, size - 2)}
  {
    var hex := HexOffsets(size, size - 1);
    assert hex == [(-1, -1), (-1, 0), (0, -1), (0, 1), (1, -1), (1, 0)];
    var none: set<Coord> := {};
    var up, prev, down := (size - 2, size - 2), (size - 1, size - 2), (size, size - 2);
    assert OnBoard(size, up) && OnBoard(size, prev) && OnBoard(size, down);
    assert {up} + (none + ({prev} + (none + ({down} + none)))) == {up, prev, down};
    FilteredOfKeeps(size, (size - 1, size - 1), hex, {up}, none, {prev}, none, {down}, none);
  }

  /** math.floor on a real: the largest integer not above x. */
  function Floor(x: real): (r: int)
    ensures r as real <= x < r as real + 1.0
  {
    x.Floor
  }

  /** math.ceil on a real: the smallest integer not below x. */
  function Ceil(x: real): (r: int)
    ensures r as real - 1.0 < x <= r as real
  {
    if x == x.Floor as real then x.Floor else x.Floor + 1
  }

  /**
   * get_valid_rounded_coordinates(x, y, game): the cells of the board among
   * the corners (floor or ceil of x, floor or ceil of y) around the point.
   */
  function ValidRoundedCoordinates(size: nat, x: real, y: real): (r: set<Coord>)
    ensures r <= Board(size)
  {
    set i, j | i in {Floor(x), Ceil(x)} && j in {Floor(y), Ceil(y)} && OnBoard(size, (i, j)) :: (i, j)
  }

  /** The integers less than one away from x are exactly its floor and its ceiling. */
  lemma NearIntegers(x: real, i: int)
    ensures (i == Floor(x) || i == Ceil(x)) <==> x - 1.0 < i as real < x + 1.0
  {
  }

  /**
   * The rounded coordinates are exactly the board cells less than one away
   * from the point in both coordinates.
   */
  lemma RoundedAreNearbyCells(size: nat, x: real, y: real, c: Coord)
    ensures c in ValidRoundedCoordinates(size, x, y) <==>
      OnBoard(size, c) && x - 1.0 < c.0 as real < x + 1.0 && y - 1.0 < c.1 as real < y + 1.0
  {
    NearIntegers(x, c.0);
    NearIntegers(y, c.1);
  }

  /** At most four corners come back. */
  lemma RoundedAtMostFour(size: nat, x: real, y: real)
    ensures |ValidRoundedCoordinates(size, x, y)| <= 4
  {
    var r := ValidRoundedCoordinates(size, x, y);
    var all := {(Floor(x), Floor(y)), (Floor(x), Ceil(y)), (Ceil(x), Floor(y)), (Ceil(x), Ceil(y))};
    assert r <= all;
    SubsetCardinality(r, all);
  }

  lemma SubsetCardinality<T>(a: set<T>, b: set<T>)
    requires a <= b
    ensures |a| <= |b|
  {
    assert b == a + (b - a);
  }

  /** A point on an integer cell of the board rounds to that cell alone. */
  lemma RoundedOnCell(size: nat, c: Coord)
    requires OnBoard(size, c)
    ensures ValidRoundedCoordinates(size, c.0 as real, c.1 as real) == {c}
  {
    var x, y := c.0 as real, c.1 as real;
    var r := ValidRoundedCoordinates(size, x, y);
    forall d
      ensures d in r <==> d == c
    {
      RoundedAreNearbyCells(size, x, y, d);
    }
  }

  /** The rounding cases of the test suite on the one-cell and the size-5 boards. */
  lemma RoundingExamples()
    ensures ValidRoundedCoordinates(1, 0.5, 0.0) == {(0, 0)}
    ensures ValidRoundedCoordinates(1, -5.0, -1.0) == {}
    ensures ValidRoundedCoordinates(5, 2.5, 1.1) == {(2, 1), (2, 2), (3, 1), (3, 2)}
    ensures ValidRoundedCoordinates(5, -5.0, -5.0) == {}
    ensures ValidRoundedCoordinates(5, -0.5, 0.1) == {(0, 0)}
  {
    forall c ensures c in ValidRoundedCoordinates(1, 0.5, 0.0) <==> c == (0, 0) {
      RoundedAreNearbyCells(1, 0.5, 0.0, c);
    }
    forall c ensures c !in ValidRoundedCoordinates(1, -5.0, -1.0) {
      RoundedAreNearbyCells(1, -5.0, -1.0, c);
    }
    forall c ensures c in ValidRoundedCoordinates(5, 2.5, 1.1) <==> c in {(2, 1), (2, 2), (3, 1), (3, 2)} {
      RoundedAreNearbyCells(5, 2.5, 1.1, c);
    }
    forall c ensures c !in ValidRoundedCoordinates(5, -5.0, -5.0) {
      RoundedAreNearbyCells(5, -5.0, -5.0, c);
    }
    forall c ensures c in ValidRoundedCoordinates(5, -0.5, 0.1) <==> c == (0, 0) {
      RoundedAreNearbyCells(5, -0.5, 0.1, c);
    }
  }
}
