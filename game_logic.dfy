/** The front end's capture rules (frontend/src/domains/game-go/lib/gameLogic.ts):
    free points, stone counts, neighbours, groups, liberties, captures,
    building a board from the move list and the suicide test.  Boards here are
    rectangular: they come from `BuildBoardFromMoves`. */
module GameLogic {
  import opened Opt
  import opened GoBoard

  /** Some stone of the list stands on (x, y), whatever its colour. */
  function IsOccupied(stones: seq<Move>, x: int, y: int): (r: bool)
    ensures r <==> exists i :: 0 <= i < |stones| && stones[i].x == x && stones[i].y == y
  {
    if stones == [] then false
    else (stones[0].x == x && stones[0].y == y) || IsOccupied(stones[1..], x, y)
  }

  /** Column-major order, the order of `for x { for y }`. */
  predicate XMajorBefore(p: Point, q: Point) {
    p.x < q.x || (p.x == q.x && p.y < q.y)
  }

  /** The free points (x, 0) .. (x, y - 1) of column x, bottom index first. */
  function FreeColumn(stones: seq<Move>, x: int, y: int): (r: seq<Point>)
    decreases y
  {
    if y <= 0 then []
    else FreeColumn(stones, x, y - 1) + (if IsOccupied(stones, x, y - 1) then [] else [Point(x, y - 1)])
  }

  /** The free points of columns 0 .. x - 1 of a board with `size` rows,
      column after column. */
  function FreeUpTo(stones: seq<Move>, size: int, x: int): (r: seq<Point>)
    decreases x
  {
    if x <= 0 then [] else FreeUpTo(stones, size, x - 1) + FreeColumn(stones, x - 1, size)
  }

  /** The free points of the whole size x size board in `for x { for y }`
      order: the list `getAvailableMoves` builds. */
  function FreePoints(stones: seq<Move>, size: int): (r: seq<Point>)
  {
    FreeUpTo(stones, size, size)
  }

  /** Column x's list holds exactly its unoccupied points below y. */
  lemma {:induction false} FreeColumnMembers(stones: seq<Move>, x: int, y: int, p: Point)
    ensures p in FreeColumn(stones, x, y) <==> p.x == x && 0 <= p.y < y && !IsOccupied(stones, p.x, p.y)
    decreases y
  {
    if y > 0 {
      FreeColumnMembers(stones, x, y - 1, p);
    }
  }

  /** The free points of the first x columns are exactly the unoccupied
      points there. */
  lemma {:induction false} FreeUpToMembers(stones: seq<Move>, size: int, x: int, p: Point)
    ensures p in FreeUpTo(stones, size, x) <==> 0 <= p.x < x && 0 <= p.y < size && !IsOccupied(stones, p.x, p.y)
    decreases x
  {
    if x > 0 {
      FreeUpToMembers(stones, size, x - 1, p);
      FreeColumnMembers(stones, x - 1, size, p);
      JoinMembers(FreeUpTo(stones, size, x - 1), FreeColumn(stones, x - 1, size), p, x - 1, size, !IsOccupied(stones, p.x, p.y));
    }
  }

  /** Columns left of c joined with column c hold the points left of c + 1. */
  lemma JoinMembers(done: seq<Point>, col: seq<Point>, p: Point, c: int, size: int, free: bool)
    requires 0 <= c
    requires p in done <==> 0 <= p.x < c && 0 <= p.y < size && free
    requires p in col <==> p.x == c && 0 <= p.y < size && free
    ensures p in done + col <==> 0 <= p.x < c + 1 && 0 <= p.y < size && free
  {
  }

  /** `FreePoints` lists exactly the unoccupied points of the board. */
  lemma FreePointsMembers(stones: seq<Move>, size: int, p: Point)
    ensures p in FreePoints(stones, size) <==> 0 <= p.x < size && 0 <= p.y < size && !IsOccupied(stones, p.x, p.y)
  {
    FreeUpToMembers(stones, size, size, p);
  }

  /** Everything `GetAvailableMoves` promises about its list, stated of
      `FreePoints`. */
  lemma FreePointsSpec(stones: seq<Move>, size: int, moves: seq<Point>)
    requires moves == FreePoints(stones, size)
    ensures forall p :: p in moves <==> 0 <= p.x < size && 0 <= p.y < size && !IsOccupied(stones, p.x, p.y)
    ensures forall i, j :: 0 <= i < j < |moves| ==> XMajorBefore(moves[i], moves[j])
    ensures Distinct(moves)
  {
    forall p ensures p in moves <==> 0 <= p.x < size && 0 <= p.y < size && !IsOccupied(stones, p.x, p.y) {
      FreePointsMembers(stones, size, p);
    }
    FreePointsSorted(stones, size);
  }

  /** Column x's list lies in column x, below y, in increasing y. */
  lemma {:induction false} FreeColumnShape(stones: seq<Move>, x: int, y: int)
    ensures forall i :: 0 <= i < |FreeColumn(stones, x, y)| ==> FreeColumn(stones, x, y)[i].x == x && FreeColumn(stones, x, y)[i].y < y
    ensures forall i, j :: 0 <= i < j < |FreeColumn(stones, x, y)| ==> FreeColumn(stones, x, y)[i].y < FreeColumn(stones, x, y)[j].y
    decreases y
  {
    if y > 0 {
      FreeColumnShape(stones, x, y - 1);
    }
  }

  /** The first x columns' list lies left of column x, in x-major order. */
  lemma {:induction false} FreeUpToShape(stones: seq<Move>, size: int, x: int)
    ensures forall i :: 0 <= i < |FreeUpTo(stones, size, x)| ==> FreeUpTo(stones, size, x)[i].x < x
    ensures forall i, j :: 0 <= i < j < |FreeUpTo(stones, size, x)| ==> XMajorBefore(FreeUpTo(stones, size, x)[i], FreeUpTo(stones, size, x)[j])
    decreases x
  {
    if x > 0 {
      var done, col := FreeUpTo(stones, size, x - 1), FreeColumn(stones, x - 1, size);
      FreeUpToShape(stones, size, x - 1);
      FreeColumnShape(stones, x - 1, size);
      SortedJoin(done, col, x - 1);
    }
  }

  /** Points left of column c followed by column c's increasing points stay
      in x-major order. */
  lemma SortedJoin(done: seq<Point>, col: seq<Point>, c: int)
    requires forall i :: 0 <= i < |done| ==> done[i].x < c
    requires forall i, j :: 0 <= i < j < |done| ==> XMajorBefore(done[i], done[j])
    requires forall i :: 0 <= i < |col| ==> col[i].x == c
    requires forall i, j :: 0 <= i < j < |col| ==> col[i].y < col[j].y
    ensures forall i :: 0 <= i < |done + col| ==> (done + col)[i].x <= c
    ensures forall i, j :: 0 <= i < j < |done + col| ==> XMajorBefore((done + col)[i], (done + col)[j])
  {
    forall i, j | 0 <= i < j < |done + col|
      ensures XMajorBefore((done + col)[i], (done + col)[j])
    {
      if j < |done| {
        assert (done + col)[i] == done[i] && (done + col)[j] == done[j];
      } else if i < |done| {
        assert (done + col)[i] == done[i] && (done + col)[j] == col[j - |done|];
      } else {
        assert (done + col)[i] == col[i - |done|] && (done + col)[j] == col[j - |done|];
      }
    }
  }

  /** `FreePoints` is in x-major order and so holds each point once. */
  lemma FreePointsSorted(stones: seq<Move>, size: int)
    ensures forall i, j :: 0 <= i < j < |FreePoints(stones, size)| ==> XMajorBefore(FreePoints(stones, size)[i], FreePoints(stones, size)[j])
    ensures Distinct(FreePoints(stones, size))
  {
    FreeUpToShape(stones, size, size);
  }

  /** Every point of the size x size board that no stone occupies, each once,
      in the order of the nested loops (x outer, y inner). */
  method GetAvailableMoves(stones: seq<Move>, boardSize: int) returns (moves: seq<Point>)
    ensures forall p :: p in moves <==> 0 <= p.x < boardSize && 0 <= p.y < boardSize && !IsOccupied(stones, p.x, p.y)
    ensures forall i, j :: 0 <= i < j < |moves| ==> XMajorBefore(moves[i], moves[j])
    ensures Distinct(moves)
    ensures moves == FreePoints(stones, boardSize)
  {
    moves := [];
    var x := 0;
    while x < boardSize
      invariant 0 <= x && (x <= boardSize || x == 0)
      invariant moves == FreeUpTo(stones, boardSize, x)
    {
      var y := 0;
      while y < boardSize
        invariant 0 <= y <= boardSize
        invariant moves == FreeUpTo(stones, boardSize, x) + FreeColumn(stones, x, y)
      {
        ghost var before := moves;
        if !IsOccupied(stones, x, y) {
          moves := moves + [Point(x, y)];
        }
        ColumnStep(stones, x, y, FreeUpTo(stones, boardSize, x), before, moves);
        y := y + 1;
      }
      x := x + 1;
    }
    assert x == boardSize || boardSize <= 0;
    assert FreePoints(stones, boardSize) == FreeUpTo(stones, boardSize, x);
    FreePointsSpec(stones, boardSize, moves);
  }

  /** One inner step of `GetAvailableMoves` extends its column's list. */
  lemma ColumnStep(stones: seq<Move>, x: int, y: int, done: seq<Point>, before: seq<Point>, after: seq<Point>)
    requires y >= 0 && before == done + FreeColumn(stones, x, y)
    requires after == before + (if IsOccupied(stones, x, y) then [] else [Point(x, y)])
    ensures after == done + FreeColumn(stones, x, y + 1)
  {
    var step := if IsOccupied(stones, x, y) then [] else [Point(x, y)];
    assert FreeColumn(stones, x, y + 1) == FreeColumn(stones, x, y) + step;
    assert (done + FreeColumn(stones, x, y)) + step == done + (FreeColumn(stones, x, y) + step);
  }

  /** Counts the black and the white stones of the board. */
  method CountStones(board: Board) returns (black: nat, white: nat)
    ensures black == Count(board, Black) && white == Count(board, White)
    ensures black + white <= NumCells(board)
  {
    black, white := 0, 0;
    for i := 0 to |board|
      invariant black == Count(board[..i], Black) && white == Count(board[..i], White)
    {
      var row := board[i];
      for j := 0 to |row|
        invariant black == Count(board[..i], Black) + CountRow(row[..j], Black)
        invariant white == Count(board[..i], White) + CountRow(row[..j], White)
      {
        assert row[..j + 1][..j] == row[..j];
        if row[j] == Some(Black) { black := black + 1; }
        if row[j] == Some(White) { white := white + 1; }
      }
      assert row[..|row|] == row;
      assert board[..i + 1][..i] == board[..i];
    }
    assert board[..|board|] == board;
    CountBound(board);
  }

  // ----- neighbours -----

  /** The offsets up, right, down, left, in the source's order. */
  const Deltas: seq<Point> := [Point(0, -1), Point(1, 0), Point(0, 1), Point(-1, 0)]

  function Shift(p: Point, d: Point): Point {
    Point(p.x + d.x, p.y + d.y)
  }

  /** The bounds test of the source: `0 <= ny < board.length` and
      `0 <= nx < board[0].length`. */
  predicate OnBoard(b: Board, q: Point) {
    0 <= q.y < |b| && 0 <= q.x < Width(b)
  }

  /** The shifts of p by ds that pass the bounds test, in order. */
  function Kept(b: Board, p: Point, ds: seq<Point>): seq<Point> {
    if ds == [] then []
    else Kept(b, p, ds[..|ds| - 1]) + (if OnBoard(b, Shift(p, ds[|ds| - 1])) then [Shift(p, ds[|ds| - 1])] else [])
  }

  /** The on-board orthogonal neighbours of p (up, right, down, left). */
  function NeighborList(b: Board, p: Point): seq<Point> {
    Kept(b, p, Deltas)
  }

  /** Filtering distinct shifts keeps each on-board shift exactly once. */
  lemma KeptSpec(b: Board, p: Point, ds: seq<Point>)
    requires Distinct(ds)
    ensures |Kept(b, p, ds)| <= |ds| && Distinct(Kept(b, p, ds))
    ensures forall q :: q in Kept(b, p, ds) <==> OnBoard(b, q) && exists i :: 0 <= i < |ds| && q == Shift(p, ds[i])
  {
    KeptMembers(b, p, ds);
    KeptDistinct(b, p, ds);
  }

  /** The filter keeps the on-board shifts and nothing else. */
  lemma {:induction false} KeptMembers(b: Board, p: Point, ds: seq<Point>)
    ensures |Kept(b, p, ds)| <= |ds|
    ensures forall q :: q in Kept(b, p, ds) <==> OnBoard(b, q) && exists i :: 0 <= i < |ds| && q == Shift(p, ds[i])
  {
    if ds != [] {
      var n := |ds| - 1;
      var init := ds[..n];
      KeptMembers(b, p, init);
      var q := Shift(p, ds[n]);
      assert Kept(b, p, ds) == Kept(b, p, init) + (if OnBoard(b, q) then [q] else []);
      forall r | r in Kept(b, p, ds) ensures OnBoard(b, r) && exists i :: 0 <= i < |ds| && r == Shift(p, ds[i]) {
        if r in Kept(b, p, init) {
          var i :| 0 <= i < |init| && r == Shift(p, init[i]);
          assert ds[i] == init[i];
        } else {
          assert r == Shift(p, ds[n]);
        }
      }
      forall r | OnBoard(b, r) && (exists i :: 0 <= i < |ds| && r == Shift(p, ds[i])) ensures r in Kept(b, p, ds) {
        var i :| 0 <= i < |ds| && r == Shift(p, ds[i]);
        if i < n {
          assert init[i] == ds[i];
        }
      }
    }
  }

  /** Distinct shifts stay distinct after filtering. */
  lemma {:induction false} KeptDistinct(b: Board, p: Point, ds: seq<Point>)
    requires Distinct(ds)
    ensures Distinct(Kept(b, p, ds))
  {
    if ds != [] {
      var n := |ds| - 1;
      var init := ds[..n];
      assert Distinct(init);
      KeptDistinct(b, p, init);
      KeptMembers(b, p, init);
      var q := Shift(p, ds[n]);
      var K := Kept(b, p, init);
      if OnBoard(b, q) {
        forall r | r in K ensures r != q {
          var i :| 0 <= i < |init| && r == Shift(p, init[i]);
          assert ds[i] != ds[n];
        }
        DistinctSnoc(K, q);
      }
    }
  }

  /** Appending an absent element keeps a sequence duplicate-free. */
  lemma DistinctSnoc(s: seq<Point>, x: Point)
    requires Distinct(s) && x !in s
    ensures Distinct(s + [x])
  {
    var t := s + [x];
    forall i, j | 0 <= i < j < |t| ensures t[i] != t[j] {
      assert t[i] == s[i];
      if j < |s| {
        assert t[j] == s[j];
      }
    }
  }

  /** The shifts by the four directions are exactly the orthogonal neighbours. */
  lemma DeltasOrth(p: Point, q: Point)
    ensures Orth(p, q) <==> exists i :: 0 <= i < |Deltas| && q == Shift(p, Deltas[i])
  {
    if Orth(p, q) {
      if q.y == p.y - 1 {
        assert q == Shift(p, Deltas[0]);
      } else if q.x == p.x + 1 {
        assert q == Shift(p, Deltas[1]);
      } else if q.y == p.y + 1 {
        assert q == Shift(p, Deltas[2]);
      } else {
        assert q == Shift(p, Deltas[3]);
      }
    }
  }

  /** At most four neighbours, none listed twice, and on a rectangular board
      exactly the on-board orthogonal neighbours. */
  lemma NeighborListSpec(b: Board, p: Point)
    ensures |NeighborList(b, p)| <= 4 && Distinct(NeighborList(b, p))
    ensures Rect(b) ==> forall q :: q in NeighborList(b, p) <==> Adjacent(b, p, q)
  {
    KeptSpec(b, p, Deltas);
    forall q ensures q in NeighborList(b, p) <==> OnBoard(b, q) && Orth(p, q) {
      DeltasOrth(p, q);
    }
  }

  /** `getNeighbors`: the four shifts of the point that pass the bounds test,
      in the order up, right, down, left. */
  method GetNeighbors(b: Board, x: int, y: int) returns (neighbors: seq<Point>)
    ensures neighbors == NeighborList(b, Point(x, y))
    ensures |neighbors| <= 4 && Distinct(neighbors)
    ensures Rect(b) ==> forall q :: q in neighbors <==> Adjacent(b, Point(x, y), q)
    ensures Rect(b) ==> forall i :: 0 <= i < |neighbors| ==> Adjacent(b, Point(x, y), neighbors[i])
  {
    neighbors := [];
    for i := 0 to |Deltas|
      invariant neighbors == Kept(b, Point(x, y), Deltas[..i])
    {
      var n := Shift(Point(x, y), Deltas[i]);
      assert Deltas[..i + 1][..i] == Deltas[..i];
      if 0 <= n.y < |b| && 0 <= n.x < Width(b) {
        neighbors := neighbors + [n];
      }
    }
    assert Deltas[..|Deltas|] == Deltas;
    NeighborListSpec(b, Point(x, y));
  }

  // ----- groups -----

  /** One step of the flood fill: pushes, in neighbour order, each on-board
      neighbour of `top` that holds c and is not yet visited. */
  method PushSameColor(b: Board, c: Color, top: Point, visited: set<Point>, stack: seq<Point>) returns (stack': seq<Point>)
    requires Rect(b)
    ensures forall q :: q in stack' <==> q in stack || (Adjacent(b, top, q) && At(b, q) == Some(c) && q !in visited)
  {
    stack' := stack;
    var neighbors := GetNeighbors(b, top.x, top.y);
    for i := 0 to |neighbors|
      invariant forall q :: q in stack' <==> q in stack || (q in neighbors[..i] && At(b, q) == Some(c) && q !in visited)
    {
      var n := neighbors[i];
      assert neighbors[..i + 1] == neighbors[..i] + [n];
      if b[n.y][n.x] == Some(c) && n !in visited {
        stack' := stack' + [n];
      }
    }
    assert neighbors[..|neighbors|] == neighbors;
  }

  /** Every c-coloured neighbour of a visited cell is visited or waiting on
      the stack. */
  ghost predicate Frontier(b: Board, c: Color, visited: set<Point>, stack: seq<Point>) {
    forall s, q :: s in visited && Adjacent(b, s, q) && At(b, q) == Some(c) ==> q in visited || q in stack
  }

  /** The group of the stone at (x, y), found with a stack and a visited
      set: empty on an empty (or off-row) point, otherwise each stone of the
      group once, starting with (x, y). */
  method GetGroup(b: Board, x: int, y: int) returns (group: seq<Point>)
    requires Rect(b) && 0 <= y < |b|
    ensures !IsStone(b, Point(x, y)) ==> group == []
    ensures IsStone(b, Point(x, y)) ==>
      && |group| > 0 && group[0] == Point(x, y)
      && Distinct(group)
      && Elems(group) == Comp(b, Point(x, y))
  {
    var p := Point(x, y);
    if !(0 <= x < |b[y]|) || b[y][x].None? {
      return [];
    }
    var c := b[y][x].value;
    CompContains(b, p);
    CompColor(b, p);
    CompClosed(b, p);
    var visited: set<Point> := {};
    group := [];
    var stack := [p];
    while |stack| > 0
      invariant visited == Elems(group) && Distinct(group)
      invariant visited <= Comp(b, p)
      invariant Elems(stack) <= Comp(b, p)
      invariant group == [] ==> stack == [p]
      invariant group != [] ==> group[0] == p
      invariant Frontier(b, c, visited, stack)
      decreases Cells(b) - visited, |stack|
    {
      var top := stack[|stack| - 1];
      ghost var old_stack := stack;
      stack := stack[..|stack| - 1];
      assert forall q :: q in old_stack ==> q in stack || q == top;
      if top in visited {
        continue;
      }
      assert top in Comp(b, p);
      visited := visited + {top};
      group := group + [top];
      stack := PushSameColor(b, c, top, visited, stack);
    }
    assert Closed(b, c, visited);
    CompExact(b, p, visited);
  }

  // ----- liberties -----

  /** Some point of the group has an empty on-board neighbour. */
  method HasLiberties(b: Board, group: seq<Point>) returns (r: bool)
    requires Rect(b)
    ensures r <==> LibertySet(b, Elems(group)) != {}
  {
    for i := 0 to |group|
      invariant forall k, q :: 0 <= k < i && Adjacent(b, group[k], q) ==> At(b, q) != None
    {
      var g := group[i];
      var neighbors := GetNeighbors(b, g.x, g.y);
      for j := 0 to |neighbors|
        invariant forall k :: 0 <= k < j ==> At(b, neighbors[k]) != None
      {
        var n := neighbors[j];
        assert Adjacent(b, g, n);
        if b[n.y][n.x] == None {
          assert g in Elems(group);
          assert n in LibertySet(b, Elems(group));
          return true;
        }
      }
      assert forall q :: Adjacent(b, g, q) ==> q in neighbors;
    }
    if q :| q in LibertySet(b, Elems(group)) {
      assert false;
    }
    return false;
  }

  // ----- captures -----

  /** n holds an opp stone whose group has no liberty. */
  ghost predicate Capturable(b: Board, n: Point, opp: Color) {
    IsCell(b, n) && At(b, n) == Some(opp) && LibertySet(b, Comp(b, n)) == {}
  }

  /** The cells removed when m is played: those of every opponent group
      orthogonally adjacent to m that has no liberty. */
  ghost function Captured(b: Board, m: Move): set<Point> {
    set q | q in Cells(b) && exists n :: Adjacent(b, m.Pos(), n) && Capturable(b, n, Opponent(m.color)) && q in Comp(b, n)
  }

  /** b with the captured cells emptied. */
  ghost function CaptureResult(b: Board, m: Move): (r: Board)
    ensures |r| == |b| && forall y :: 0 <= y < |b| ==> |r[y]| == |b[y]|
  {
    seq(|b|, y requires 0 <= y < |b| =>
      seq(|b[y]|, x requires 0 <= x < |b[y]| => if Point(x, y) in Captured(b, m) then None else b[y][x]))
  }

  /** Only opponent stones disappear, exactly those of the captured groups,
      and every other cell keeps its content. */
  lemma CaptureResultCells(b: Board, m: Move, q: Point)
    requires IsCell(b, q)
    ensures IsCell(CaptureResult(b, m), q)
    ensures At(CaptureResult(b, m), q) != At(b, q) ==> At(b, q) == Some(Opponent(m.color)) && At(CaptureResult(b, m), q) == None
    ensures At(CaptureResult(b, m), q) == None && At(b, q) != None <==>
      exists n :: Adjacent(b, m.Pos(), n) && Capturable(b, n, Opponent(m.color)) && q in Comp(b, n)
  {
    if q in Captured(b, m) {
      var n :| Adjacent(b, m.Pos(), n) && Capturable(b, n, Opponent(m.color)) && q in Comp(b, n);
      CompColor(b, n);
    }
  }

  /** Two boards of the same shape that agree on every cell are equal. */
  lemma BoardsEqual(a: Board, c: Board)
    requires |a| == |c| && forall y :: 0 <= y < |a| ==> |a[y]| == |c[y]|
    requires forall q :: IsCell(a, q) ==> At(a, q) == At(c, q)
    ensures a == c
  {
    forall y | 0 <= y < |a| ensures a[y] == c[y] {
      forall x | 0 <= x < |a[y]| ensures a[y][x] == c[y][x] {
        assert IsCell(a, Point(x, y));
      }
    }
  }

  /** Empties the cells of the group (`newBoard[gy][gx] = null`). */
  method ClearGroup(b: Board, group: seq<Point>) returns (b': Board)
    requires forall i :: 0 <= i < |group| ==> IsCell(b, group[i])
    ensures |b'| == |b| && forall y :: 0 <= y < |b| ==> |b'[y]| == |b[y]|
    ensures forall q :: IsCell(b, q) ==> At(b', q) == if q in group then None else At(b, q)
  {
    b' := b;
    for j := 0 to |group|
      invariant |b'| == |b| && forall y :: 0 <= y < |b| ==> |b'[y]| == |b[y]|
      invariant forall q :: IsCell(b, q) ==> At(b', q) == if q in group[..j] then None else At(b, q)
    {
      var g := group[j];
      b' := b'[g.y := b'[g.y][g.x := None]];
      assert group[..j + 1] == group[..j] + [g];
    }
    assert group[..|group|] == group;
  }

  /** newBoard is board with the cells of `cleared` emptied. */
  ghost predicate ClearedOn(board: Board, newBoard: Board, cleared: set<Point>) {
    && |newBoard| == |board| && (forall y :: 0 <= y < |board| ==> |newBoard[y]| == |board[y]|)
    && forall q :: IsCell(board, q) ==> At(newBoard, q) == if q in cleared then None else At(board, q)
  }

  /** The body of the capture loop for one neighbour n of m: when n holds an
      opponent stone whose group (on the original board) has no liberty, the
      group is emptied on the copy. */
  method CaptureAt(board: Board, m: Move, n: Point, newBoard: Board, ghost cleared: set<Point>)
    returns (newBoard': Board, ghost cleared': set<Point>)
    requires Rect(board) && Adjacent(board, m.Pos(), n)
    requires ClearedOn(board, newBoard, cleared) && cleared <= Captured(board, m)
    ensures ClearedOn(board, newBoard', cleared') && cleared <= cleared' <= Captured(board, m)
    ensures Capturable(board, n, Opponent(m.color)) ==> Comp(board, n) <= cleared'
  {
    newBoard', cleared' := newBoard, cleared;
    var opp := Opponent(m.color);
    if board[n.y][n.x] == Some(opp) {
      var group := GetGroup(board, n.x, n.y);
      var alive := HasLiberties(board, group);
      if !alive {
        assert Capturable(board, n, opp);
        CompColor(board, n);
        assert forall j :: 0 <= j < |group| ==> group[j] in Elems(group);
        newBoard' := ClearGroup(newBoard, group);
        cleared' := cleared + Elems(group);
      }
    }
  }

  /** Removes the opponent groups around m that have no liberty, on a copy:
      the result is `CaptureResult(board, m)` (groups and liberties are
      computed on the board as given, the input is left as it was). */
  method RemoveCapturedStones(board: Board, m: Move) returns (newBoard: Board)
    requires Rect(board)
    ensures newBoard == CaptureResult(board, m)
  {
    newBoard := board;
    ghost var cleared: set<Point> := {};
    var neighbors := GetNeighbors(board, m.x, m.y);
    for i := 0 to |neighbors|
      invariant ClearedOn(board, newBoard, cleared) && cleared <= Captured(board, m)
      invariant forall k :: 0 <= k < i && Capturable(board, neighbors[k], Opponent(m.color)) ==> Comp(board, neighbors[k]) <= cleared
    {
      newBoard, cleared := CaptureAt(board, m, neighbors[i], newBoard, cleared);
    }
    CaptureDone(board, m, neighbors, newBoard, cleared);
  }

  /** After the loop every capturable neighbour's group is cleared, so the
      copy is the capture result. */
  lemma CaptureDone(board: Board, m: Move, neighbors: seq<Point>, newBoard: Board, cleared: set<Point>)
    requires forall q :: q in neighbors <==> Adjacent(board, m.Pos(), q)
    requires ClearedOn(board, newBoard, cleared) && cleared <= Captured(board, m)
    requires forall k :: 0 <= k < |neighbors| && Capturable(board, neighbors[k], Opponent(m.color)) ==> Comp(board, neighbors[k]) <= cleared
    ensures newBoard == CaptureResult(board, m)
  {
    assert cleared == Captured(board, m) by {
      forall q | q in Captured(board, m) ensures q in cleared {
        var n :| Adjacent(board, m.Pos(), n) && Capturable(board, n, Opponent(m.color)) && q in Comp(board, n);
        assert n in neighbors;
      }
    }
    BoardsEqual(newBoard, CaptureResult(board, m));
  }

  // ----- building a board -----

  /** The colour of the last move at p, or None when no move targets p. */
  function LastColorAt(moves: seq<Move>, p: Point): Cell {
    if moves == [] then None
    else if moves[|moves| - 1].Pos() == p then Some(moves[|moves| - 1].color)
    else LastColorAt(moves[..|moves| - 1], p)
  }

  /** `LastColorAt` is None exactly when no move targets p, and otherwise the
      colour of a move at p after which no move targets p. */
  lemma {:induction false} LastColorAtSpec(moves: seq<Move>, p: Point)
    ensures LastColorAt(moves, p) == None <==> forall i :: 0 <= i < |moves| ==> moves[i].Pos() != p
    ensures LastColorAt(moves, p).Some? ==>
      exists i :: 0 <= i < |moves| && moves[i].Pos() == p && moves[i].color == LastColorAt(moves, p).value
        && forall j :: i < j < |moves| ==> moves[j].Pos() != p
  {
    if moves != [] {
      var n := |moves| - 1;
      var init := moves[..n];
      LastColorAtSpec(init, p);
      if moves[n].Pos() == p {
        assert LastColorAt(moves, p) == Some(moves[n].color);
      } else {
        assert LastColorAt(moves, p) == LastColorAt(init, p);
        assert forall i :: 0 <= i < n ==> moves[i] == init[i];
        if LastColorAt(init, p).Some? {
          var i :| 0 <= i < n && init[i].Pos() == p && init[i].color == LastColorAt(init, p).value
            && forall j :: i < j < n ==> init[j].Pos() != p;
          assert moves[i] == init[i];
        }
      }
    }
  }

  predicate MovesWithin(moves: seq<Move>, size: int) {
    forall i :: 0 <= i < |moves| ==> 0 <= moves[i].x < size && 0 <= moves[i].y < size
  }

  /** A size x size board on which each point holds the colour of the last
      move played there, or nothing. */
  method BuildBoardFromMoves(moves: seq<Move>, size: nat) returns (board: Board)
    requires MovesWithin(moves, size)
    ensures |board| == size && Square(board) && Rect(board)
    ensures forall p :: IsCell(board, p) ==> At(board, p) == LastColorAt(moves, p)
  {
    board := seq(size, _ => seq(size, _ => None));
    for i := 0 to |moves|
      invariant |board| == size && Square(board)
      invariant forall p :: IsCell(board, p) ==> At(board, p) == LastColorAt(moves[..i], p)
    {
      var m := moves[i];
      board := board[m.y := board[m.y][m.x := Some(m.color)]];
      assert moves[..i + 1][..i] == moves[..i];
    }
    assert moves[..|moves|] == moves;
    assert |board| > 0 ==> |board[0]| == size;
  }

  // ----- suicide -----

  /** b with m's stone put on its point. */
  function Place(b: Board, m: Move): (r: Board)
    requires IsCell(b, m.Pos())
    ensures |r| == |b| && forall y :: 0 <= y < |b| ==> |r[y]| == |b[y]|
  {
    b[m.y := b[m.y][m.x := Some(m.color)]]
  }

  lemma RectPreserved(b: Board, r: Board)
    requires Rect(b) && |r| == |b| && forall y :: 0 <= y < |b| ==> |r[y]| == |b[y]|
    ensures Rect(r)
  {
  }

  /** The position after m is placed and its captures are removed. */
  ghost function AfterMove(b: Board, m: Move): (r: Board)
    requires IsCell(b, m.Pos())
    ensures |r| == |b| && forall y :: 0 <= y < |b| ==> |r[y]| == |b[y]|
  {
    CaptureResult(Place(b, m), m)
  }

  /** After m and its captures, m's stone is still on its point. */
  lemma AfterMoveKeepsStone(b: Board, m: Move)
    requires IsCell(b, m.Pos())
    ensures IsStone(AfterMove(b, m), m.Pos()) && At(AfterMove(b, m), m.Pos()) == Some(m.color)
  {
    CaptureResultCells(Place(b, m), m, m.Pos());
  }

  /** The move is suicide: after it and its captures, the group of its stone
      has no liberty. */
  ghost predicate Suicidal(b: Board, m: Move)
    requires IsCell(b, m.Pos())
  {
    AfterMoveKeepsStone(b, m);
    LibertySet(AfterMove(b, m), Comp(AfterMove(b, m), m.Pos())) == {}
  }

  method IsSuicidalMove(board: Board, m: Move) returns (r: bool)
    requires Rect(board) && IsCell(board, m.Pos())
    ensures r <==> Suicidal(board, m)
  {
    var simulated := Place(board, m);
    RectPreserved(board, simulated);
    var afterCapture := RemoveCapturedStones(simulated, m);
    RectPreserved(board, afterCapture);
    AfterMoveKeepsStone(board, m);
    var group := GetGroup(afterCapture, m.x, m.y);
    var stillAlive := HasLiberties(afterCapture, group);
    r := !stillAlive;
  }

  /** A move that captures something is never suicide: a captured stone next
      to it becomes a liberty. */
  lemma CapturingMoveIsNotSuicidal(b: Board, m: Move)
    requires Rect(b) && IsCell(b, m.Pos())
    requires Captured(Place(b, m), m) != {}
    ensures !Suicidal(b, m)
  {
    var s := Place(b, m);
    var a := AfterMove(b, m);
    AfterMoveKeepsStone(b, m);
    var q :| q in Captured(s, m);
    var n :| Adjacent(s, m.Pos(), n) && Capturable(s, n, Opponent(m.color)) && q in Comp(s, n);
    CompContains(s, n);
    assert n in Captured(s, m);
    assert At(a, n) == None;
    CompContains(a, m.Pos());
    assert n in LibertySet(a, Comp(a, m.Pos()));
  }

  /** A move next to an empty point is never suicide. */
  lemma MoveWithEmptyNeighborIsNotSuicidal(b: Board, m: Move, n: Point)
    requires Rect(b) && IsCell(b, m.Pos())
    requires Adjacent(b, m.Pos(), n) && At(b, n) == None
    ensures !Suicidal(b, m)
  {
    var s := Place(b, m);
    var a := AfterMove(b, m);
    AfterMoveKeepsStone(b, m);
    assert At(s, n) == None;
    CaptureResultCells(s, m, n);
    assert At(a, n) == None;
    CompContains(a, m.Pos());
    assert n in LibertySet(a, Comp(a, m.Pos()));
  }
}
