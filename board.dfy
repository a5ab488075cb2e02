/** The Go board shared by the front end and the assistant back end: a grid of
    cells indexed `[y][x]`, each empty (`None`) or holding a stone.  This
    module defines the geometry (cells, orthogonal adjacency), the connected
    group of a stone, the liberties of a set of stones and stone counts, and
    proves the facts about them that the rule code relies on. */
module GoBoard {
  import opened Opt

  datatype Color = Black | White

  /** The other player ("black" <-> "white"). */
  function Opponent(c: Color): (o: Color)
    ensures o != c
  {
    if c == Black then White else Black
  }

  type Cell = Option<Color>
  type Board = seq<seq<Cell>>

  datatype Point = Point(x: int, y: int)

  /** A stone placed by a player, `{ x, y, color }` in the source. */
  datatype Move = Move(x: int, y: int, color: Color) {
    function Pos(): Point { Point(x, y) }
  }

  predicate IsCell(b: Board, p: Point) {
    0 <= p.y < |b| && 0 <= p.x < |b[p.y]|
  }

  function At(b: Board, p: Point): Cell
    requires IsCell(b, p)
  {
    b[p.y][p.x]
  }

  predicate IsStone(b: Board, p: Point) {
    IsCell(b, p) && At(b, p).Some?
  }

  /** JavaScript's `board[y]?.[x]`: `Off` stands for `undefined`, which is
      neither `null` nor a colour. */
  datatype Probe = Off | On(cell: Cell)

  function Look(b: Board, p: Point): (r: Probe)
    ensures r.On? <==> IsCell(b, p)
    ensures r.On? ==> r.cell == At(b, p)
  {
    if IsCell(b, p) then On(At(b, p)) else Off
  }

  function Width(b: Board): nat {
    if |b| == 0 then 0 else |b[0]|
  }

  /** Every row as long as the first one (what reading `board[0].length` takes for granted). */
  predicate Rect(b: Board) {
    forall y :: 0 <= y < |b| ==> |b[y]| == Width(b)
  }

  /** As many columns as rows, the 19x19 matrix the back end declares. */
  predicate Square(b: Board) {
    forall y :: 0 <= y < |b| ==> |b[y]| == |b|
  }

  /** p and q are one step apart horizontally or vertically. */
  predicate Orth(p: Point, q: Point) {
    || (p.x == q.x && (q.y == p.y + 1 || q.y == p.y - 1))
    || (p.y == q.y && (q.x == p.x + 1 || q.x == p.x - 1))
  }

  /** q is an on-board orthogonal neighbour of p. */
  predicate Adjacent(b: Board, p: Point, q: Point) {
    IsCell(b, q) && Orth(p, q)
  }

  function Cells(b: Board): (r: set<Point>)
    ensures forall p :: p in r <==> IsCell(b, p)
  {
    set y, x | 0 <= y < |b| && 0 <= x < |b[y]| :: Point(x, y)
  }

  /** Row-major order: the order in which `for y { for x }` visits cells. */
  predicate Before(p: Point, q: Point) {
    p.y < q.y || (p.y == q.y && p.x < q.x)
  }

  predicate Distinct<T(==)>(s: seq<T>) {
    forall i, j :: 0 <= i < j < |s| ==> s[i] != s[j]
  }

  function Elems<T>(s: seq<T>): set<T> {
    set x | x in s
  }

  // ----- connected groups -----

  /** S contains every c-coloured neighbour of each of its c-coloured cells. */
  ghost predicate Closed(b: Board, c: Color, S: set<Point>) {
    forall s, q :: s in S && IsCell(b, s) && At(b, s) == Some(c) && Adjacent(b, s, q) && At(b, q) == Some(c) ==> q in S
  }

  /** The group (chain) of the stone at p: the cells that lie in every closed
      set containing p, i.e. the least such set. */
  ghost function Comp(b: Board, p: Point): set<Point>
    requires IsStone(b, p)
  {
    set q | q in Cells(b) && forall S: set<Point> {:trigger Closed(b, At(b, p).value, S)} :: Closed(b, At(b, p).value, S) && p in S ==> q in S
  }

  lemma CompContains(b: Board, p: Point)
    requires IsStone(b, p)
    ensures p in Comp(b, p)
  {
  }

  /** A group is a subset of every closed set containing its stone. */
  lemma CompLeast(b: Board, p: Point, S: set<Point>)
    requires IsStone(b, p) && Closed(b, At(b, p).value, S) && p in S
    ensures Comp(b, p) <= S
  {
  }

  /** Every cell of a group holds the colour of the group's stone. */
  lemma CompColor(b: Board, p: Point)
    requires IsStone(b, p)
    ensures forall q :: q in Comp(b, p) ==> IsCell(b, q) && At(b, q) == At(b, p)
  {
    var c := At(b, p).value;
    var C := set q | q in Cells(b) && At(b, q) == Some(c);
    assert Closed(b, c, C);
    CompLeast(b, p, C);
  }

  /** A group is closed under same-colour adjacency. */
  lemma CompClosed(b: Board, p: Point)
    requires IsStone(b, p)
    ensures Closed(b, At(b, p).value, Comp(b, p))
  {
    var c := At(b, p).value;
    forall s, q | s in Comp(b, p) && IsCell(b, s) && At(b, s) == Some(c) && Adjacent(b, s, q) && At(b, q) == Some(c)
      ensures q in Comp(b, p)
    {
      forall S: set<Point> | Closed(b, c, S) && p in S
        ensures q in S
      {
        assert s in S;
      }
    }
  }

  lemma OrthSymmetric(p: Point, q: Point)
    ensures Orth(p, q) <==> Orth(q, p)
  {
  }

  /** Any stone of a group has that same group: "is in the group of" is an
      equivalence on stones. */
  lemma CompSymmetric(b: Board, p: Point, q: Point)
    requires IsStone(b, p) && q in Comp(b, p)
    ensures IsStone(b, q) && Comp(b, q) == Comp(b, p)
  {
    var c := At(b, p).value;
    CompColor(b, p);
    assert At(b, q) == Some(c);
    CompClosed(b, p);
    CompLeast(b, q, Comp(b, p));
    // The c-stones whose group contains p form a closed set containing p.
    var X := set r | r in Cells(b) && At(b, r) == Some(c) && p in Comp(b, r);
    CompContains(b, p);
    assert p in X;
    forall s, t | s in X && IsCell(b, s) && At(b, s) == Some(c) && Adjacent(b, s, t) && At(b, t) == Some(c)
      ensures t in X
    {
      CompClosed(b, t);
      CompContains(b, t);
      OrthSymmetric(s, t);
      assert Adjacent(b, t, s);
      assert s in Comp(b, t);
      CompLeast(b, s, Comp(b, t));
    }
    assert Closed(b, c, X);
    CompLeast(b, p, X);
    assert q in X;
    CompLeast(b, p, Comp(b, q)) by {
      CompClosed(b, q);
    }
  }

  /** A set that contains p, holds only p's colour, is closed and lies inside
      p's group is exactly p's group. */
  lemma CompExact(b: Board, p: Point, V: set<Point>)
    requires IsStone(b, p) && p in V && V <= Comp(b, p)
    requires Closed(b, At(b, p).value, V)
    ensures V == Comp(b, p)
  {
    CompLeast(b, p, V);
  }

  /** Two groups either coincide or share no cell. */
  lemma CompDisjointOrEqual(b: Board, p: Point, q: Point)
    requires IsStone(b, p) && IsStone(b, q)
    ensures Comp(b, p) == Comp(b, q) || Comp(b, p) !! Comp(b, q)
  {
    if r :| r in Comp(b, p) && r in Comp(b, q) {
      CompSymmetric(b, p, r);
      CompSymmetric(b, q, r);
    }
  }

  // ----- liberties -----

  /** The empty on-board points orthogonally adjacent to some stone of G. */
  ghost function LibertySet(b: Board, G: set<Point>): set<Point> {
    set q | q in Cells(b) && At(b, q) == None && exists g :: g in G && Adjacent(b, g, q)
  }

  lemma LibertySetUnion(b: Board, A: set<Point>, B: set<Point>)
    ensures LibertySet(b, A + B) == LibertySet(b, A) + LibertySet(b, B)
  {
  }

  /** The liberties of one point. */
  ghost function PointLiberties(b: Board, p: Point): set<Point> {
    set q | q in Cells(b) && At(b, q) == None && Adjacent(b, p, q)
  }

  lemma LibertySetAddPoint(b: Board, A: set<Point>, p: Point)
    ensures LibertySet(b, A + {p}) == LibertySet(b, A) + PointLiberties(b, p)
  {
    LibertySetUnion(b, A, {p});
    assert LibertySet(b, {p}) == PointLiberties(b, p);
  }

  // ----- counting -----

  /** The number of cells of a row holding a c stone. */
  function CountRow(row: seq<Cell>, c: Color): nat {
    if row == [] then 0 else CountRow(row[..|row| - 1], c) + (if row[|row| - 1] == Some(c) then 1 else 0)
  }

  /** The number of cells of the board holding a c stone. */
  function Count(b: Board, c: Color): nat {
    if b == [] then 0 else Count(b[..|b| - 1], c) + CountRow(b[|b| - 1], c)
  }

  function NumCells(b: Board): nat {
    if b == [] then 0 else NumCells(b[..|b| - 1]) + |b[|b| - 1]|
  }

  lemma {:induction false} CountRowBound(row: seq<Cell>)
    ensures CountRow(row, Black) + CountRow(row, White) <= |row|
  {
    if row != [] {
      CountRowBound(row[..|row| - 1]);
    }
  }

  /** Black and white stones together never exceed the number of cells. */
  lemma {:induction false} CountBound(b: Board)
    ensures Count(b, Black) + Count(b, White) <= NumCells(b)
  {
    if b != [] {
      CountBound(b[..|b| - 1]);
      CountRowBound(b[|b| - 1]);
    }
  }

  lemma {:induction false} CountRowNoGain(row: seq<Cell>, row': seq<Cell>, c: Color)
    requires |row'| == |row|
    requires forall x :: 0 <= x < |row| && row'[x] == Some(c) ==> row[x] == Some(c)
    ensures CountRow(row', c) <= CountRow(row, c)
  {
    if row != [] {
      CountRowNoGain(row[..|row| - 1], row'[..|row| - 1], c);
    }
  }

  lemma {:induction false} CountRowNone(row: seq<Cell>, c: Color)
    requires forall x :: 0 <= x < |row| ==> row[x] != Some(c)
    ensures CountRow(row, c) == 0
  {
    if row != [] {
      CountRowNone(row[..|row| - 1], c);
    }
  }

  /** A board without a c stone counts none. */
  lemma {:induction false} CountNone(b: Board, c: Color)
    requires forall p :: IsCell(b, p) ==> At(b, p) != Some(c)
    ensures Count(b, c) == 0
  {
    if b != [] {
      var n := |b| - 1;
      forall x | 0 <= x < |b[n]| ensures b[n][x] != Some(c) {
        assert IsCell(b, Point(x, n));
      }
      CountRowNone(b[n], c);
      forall p | IsCell(b[..n], p) ensures At(b[..n], p) != Some(c) {
        assert IsCell(b, p);
      }
      CountNone(b[..n], c);
    }
  }

  /** A board that gains no c stone anywhere does not have more c stones. */
  lemma {:induction false} CountNoGain(b: Board, b': Board, c: Color)
    requires |b'| == |b| && forall y :: 0 <= y < |b| ==> |b'[y]| == |b[y]|
    requires forall p :: IsCell(b, p) && At(b', p) == Some(c) ==> At(b, p) == Some(c)
    ensures Count(b', c) <= Count(b, c)
  {
    if b != [] {
      var n := |b| - 1;
      forall x | 0 <= x < |b[n]| && b'[n][x] == Some(c)
        ensures b[n][x] == Some(c)
      {
        assert IsCell(b, Point(x, n));
      }
      CountRowNoGain(b[n], b'[n], c);
      forall p | IsCell(b[..n], p) && At(b'[..n], p) == Some(c)
        ensures At(b[..n], p) == Some(c)
      {
        assert IsCell(b, p);
      }
      CountNoGain(b[..n], b'[..n], c);
    }
  }
}
