/** The assistant's board heuristics (`GoEngine`): the liberties, risk level
    and atari status of the group a move belongs to, a territory estimate
    and four local pattern tests around the move.  Cells are read with
    `board[y]?.[x]`, so off-board points (and points past the end of a short
    row) are simply never matched. */
module GoEngine {
  import opened Opt
  import opened GoBoard
  import opened GameLogic
  import GroupAnalyzer

  /** `cell === colour` through `board[y]?.[x]`. */
  predicate Holds(b: Board, q: Point, c: Color) {
    Look(b, q) == On(Some(c))
  }

  /** The offsets up, down, left, right. */
  const Dirs4: seq<Point> := [Point(0, -1), Point(0, 1), Point(-1, 0), Point(1, 0)]

  /** The four orthogonal offsets followed by the four diagonal ones. */
  const Dirs8: seq<Point> := Dirs4 + [Point(-1, -1), Point(1, -1), Point(-1, 1), Point(1, 1)]

  /** The 5x5 window of offsets in the order of the nested `dy`, `dx` loops
      (centre included; the loop skips it). */
  const Window: seq<Point> := seq(25, k => Point(k % 5 - 2, k / 5 - 2))

  /** A shift that leaves p and lands on a c stone. */
  predicate Hit(b: Board, p: Point, d: Point, c: Color) {
    d != Point(0, 0) && Holds(b, Shift(p, d), c)
  }

  /** The cells other than p, reached by shifting p by some offset of ds,
      that hold c. */
  ghost function Matches(b: Board, p: Point, ds: seq<Point>, c: Color): set<Point> {
    set i | 0 <= i < |ds| && Hit(b, p, ds[i], c) :: Shift(p, ds[i])
  }

  lemma MatchesStep(b: Board, p: Point, ds: seq<Point>, i: int, c: Color)
    requires 0 <= i < |ds|
    ensures Matches(b, p, ds[..i + 1], c) == Matches(b, p, ds[..i], c) + (if Hit(b, p, ds[i], c) then {Shift(p, ds[i])} else {})
  {
    var A, B := Matches(b, p, ds[..i + 1], c), Matches(b, p, ds[..i], c);
    forall q | q in A ensures q in B || (q == Shift(p, ds[i]) && Hit(b, p, ds[i], c)) {
      var k :| 0 <= k < i + 1 && Hit(b, p, ds[..i + 1][k], c) && q == Shift(p, ds[..i + 1][k]);
      if k < i {
        assert ds[..i][k] == ds[k];
      }
    }
    forall q | q in B ensures q in A {
      var k :| 0 <= k < i && Hit(b, p, ds[..i][k], c) && q == Shift(p, ds[..i][k]);
      assert ds[..i + 1][k] == ds[k];
    }
    if Hit(b, p, ds[i], c) {
      assert ds[..i + 1][i] == ds[i];
    }
  }

  /** With distinct offsets, the i-th shift is not among the earlier ones. */
  lemma MatchesFresh(b: Board, p: Point, ds: seq<Point>, i: int, c: Color)
    requires 0 <= i < |ds| && Distinct(ds)
    ensures Shift(p, ds[i]) !in Matches(b, p, ds[..i], c)
  {
    forall k | 0 <= k < i ensures Shift(p, ds[..i][k]) != Shift(p, ds[i]) {
      assert ds[..i][k] == ds[k] != ds[i];
    }
  }

  /** A counter that adds one per matching shift equals the number of
      matching cells. */
  lemma MatchesCount(b: Board, p: Point, ds: seq<Point>, i: int, c: Color)
    requires 0 <= i < |ds| && Distinct(ds)
    ensures |Matches(b, p, ds[..i + 1], c)| == |Matches(b, p, ds[..i], c)| + (if Hit(b, p, ds[i], c) then 1 else 0)
  {
    MatchesStep(b, p, ds, i, c);
    MatchesFresh(b, p, ds, i, c);
  }

  /** The on-board cells other than p, at most r away from p on both axes,
      that hold c. */
  ghost function BoxAllies(b: Board, p: Point, r: int, c: Color): set<Point> {
    set q | q in Cells(b) && q != p && -r <= q.x - p.x <= r && -r <= q.y - p.y <= r && At(b, q) == Some(c)
  }

  /** The on-board orthogonal neighbours of p that hold c. */
  ghost function OrthAllies(b: Board, p: Point, c: Color): set<Point> {
    set q | q in Cells(b) && Orth(p, q) && At(b, q) == Some(c)
  }

  lemma Dirs4Orth(p: Point, q: Point)
    ensures Orth(p, q) <==> exists i :: 0 <= i < 4 && q == Shift(p, Dirs4[i])
  {
    if Orth(p, q) {
      if q.y == p.y - 1 {
        assert q == Shift(p, Dirs4[0]);
      } else if q.y == p.y + 1 {
        assert q == Shift(p, Dirs4[1]);
      } else if q.x == p.x - 1 {
        assert q == Shift(p, Dirs4[2]);
      } else {
        assert q == Shift(p, Dirs4[3]);
      }
    }
  }

  lemma Dirs4Matches(b: Board, p: Point, c: Color)
    ensures Distinct(Dirs4) && Matches(b, p, Dirs4, c) == OrthAllies(b, p, c)
  {
    forall q ensures q in Matches(b, p, Dirs4, c) <==> q in OrthAllies(b, p, c) {
      Dirs4Orth(p, q);
    }
  }

  /** The eight shifts are exactly the cells around p. */
  lemma Dirs8Box(p: Point, q: Point)
    ensures (q != p && -1 <= q.x - p.x <= 1 && -1 <= q.y - p.y <= 1) <==> exists i :: 0 <= i < 8 && q == Shift(p, Dirs8[i])
  {
    var dx, dy := q.x - p.x, q.y - p.y;
    if q != p && -1 <= dx <= 1 && -1 <= dy <= 1 {
      var i := if dx == 0 && dy == -1 then 0 else if dx == 0 && dy == 1 then 1
        else if dy == 0 && dx == -1 then 2 else if dy == 0 && dx == 1 then 3
        else if dx == -1 && dy == -1 then 4 else if dx == 1 && dy == -1 then 5
        else if dx == -1 && dy == 1 then 6 else 7;
      assert q == Shift(p, Dirs8[i]);
    }
  }

  lemma Dirs8Matches(b: Board, p: Point, c: Color)
    ensures Distinct(Dirs8) && Matches(b, p, Dirs8, c) == BoxAllies(b, p, 1, c)
  {
    forall q ensures q in Matches(b, p, Dirs8, c) <==> q in BoxAllies(b, p, 1, c) {
      Dirs8Box(p, q);
    }
  }

  lemma WindowAt(dx: int, dy: int)
    requires -2 <= dx <= 2 && -2 <= dy <= 2
    ensures Window[(dy + 2) * 5 + dx + 2] == Point(dx, dy)
  {
  }

  lemma WindowDistinct()
    ensures Distinct(Window)
  {
    forall i, j | 0 <= i < j < 25 ensures Window[i] != Window[j] {
      assert i == (i / 5) * 5 + i % 5 && j == (j / 5) * 5 + j % 5;
    }
  }

  lemma WindowMatches(b: Board, p: Point, c: Color)
    ensures Matches(b, p, Window, c) == BoxAllies(b, p, 2, c)
  {
    forall q | q in BoxAllies(b, p, 2, c) ensures q in Matches(b, p, Window, c) {
      var dx, dy := q.x - p.x, q.y - p.y;
      WindowAt(dx, dy);
      assert q == Shift(p, Window[(dy + 2) * 5 + dx + 2]);
    }
  }

  // ----- territory and risk -----

  /** `estimateTerritory`: stone counts, the white counter starting at 1. */
  method EstimateTerritory(board: Board) returns (black: nat, white: nat)
    ensures black == Count(board, Black) && white == Count(board, White) + 1
  {
    black, white := 0, 1;
    for y := 0 to |board|
      invariant black == Count(board[..y], Black) && white == Count(board[..y], White) + 1
    {
      for x := 0 to |board[y]|
        invariant black == Count(board[..y], Black) + CountRow(board[y][..x], Black)
        invariant white == Count(board[..y], White) + CountRow(board[y][..x], White) + 1
      {
        assert board[y][..x + 1][..x] == board[y][..x];
        var cell := board[y][x];
        if cell == Some(Black) { black := black + 1; }
        if cell == Some(White) { white := white + 1; }
      }
      assert board[y][..|board[y]|] == board[y];
      assert board[..y + 1][..y] == board[..y];
    }
    assert board[..|board|] == board;
  }

  /** The estimate never exceeds the number of cells plus the one white
      point the counter starts with. */
  lemma TerritoryBound(board: Board)
    ensures Count(board, Black) + (Count(board, White) + 1) <= NumCells(board) + 1
  {
    CountBound(board);
  }

  datatype Risk = Low | Medium | High {
    /** How dangerous: Low 0, Medium 1, High 2. */
    function Rank(): nat {
      match this
      case Low => 0
      case Medium => 1
      case High => 2
    }
  }

  /** `getRiskLevel`: four or more liberties are safe, two or three are a
      concern, fewer are urgent. */
  function GetRiskLevel(liberties: int): (r: Risk)
    ensures r == Low <==> liberties >= 4
    ensures r == Medium <==> 2 <= liberties <= 3
    ensures r == High <==> liberties <= 1
  {
    if liberties >= 4 then Low
    else if liberties >= 2 then Medium
    else High
  }

  /** More liberties never mean a higher risk. */
  lemma RiskMonotone(l: int, l': int)
    requires l <= l'
    ensures GetRiskLevel(l').Rank() <= GetRiskLevel(l).Rank()
  {
  }

  // ----- local patterns -----

  /** `detectOverconcentration`: at least six cells of the 5x5 window around
      the move, centre excluded, hold the mover's colour. */
  method DetectOverconcentration(board: Board, m: Move) returns (r: bool)
    ensures r <==> |BoxAllies(board, m.Pos(), 2, m.color)| >= 6
  {
    var p := m.Pos();
    var nearbyAllies := 0;
    for dy := -2 to 3
      invariant nearbyAllies == |Matches(board, p, Window[..(dy + 2) * 5], m.color)|
    {
      for dx := -2 to 3
        invariant nearbyAllies == |Matches(board, p, Window[..(dy + 2) * 5 + dx + 2], m.color)|
      {
        WindowCell(board, p, dx, dy, m.color);
        if !(dx == 0 && dy == 0) {
          if Look(board, Point(m.x + dx, m.y + dy)) == On(Some(m.color)) {
            nearbyAllies := nearbyAllies + 1;
          }
        }
      }
    }
    WindowAll(board, p, m.color);
    r := nearbyAllies >= 6;
  }

  /** The cell (dx, dy) of the window adds one match exactly when it is not
      the centre and holds c. */
  lemma WindowCell(b: Board, p: Point, dx: int, dy: int, c: Color)
    requires -2 <= dx <= 2 && -2 <= dy <= 2
    ensures |Matches(b, p, Window[..(dy + 2) * 5 + dx + 2 + 1], c)| ==
      |Matches(b, p, Window[..(dy + 2) * 5 + dx + 2], c)| + (if !(dx == 0 && dy == 0) && Holds(b, Point(p.x + dx, p.y + dy), c) then 1 else 0)
  {
    WindowAt(dx, dy);
    WindowDistinct();
    MatchesCount(b, p, Window, (dy + 2) * 5 + dx + 2, c);
  }

  lemma WindowAll(b: Board, p: Point, c: Color)
    ensures Matches(b, p, Window[..25], c) == BoxAllies(b, p, 2, c)
  {
    assert Window[..25] == Window;
    WindowMatches(b, p, c);
  }

  /** `detectConnectionMove`: at least two of the eight surrounding cells
      hold the mover's colour (the keys `"x,y"` of distinct points are
      distinct, so the key set is a set of points). */
  method DetectConnectionMove(board: Board, m: Move) returns (r: bool)
    ensures r <==> |BoxAllies(board, m.Pos(), 1, m.color)| >= 2
  {
    var p := m.Pos();
    var connectedGroups: set<Point> := {};
    for i := 0 to |Dirs8|
      invariant connectedGroups == Matches(board, p, Dirs8[..i], m.color)
    {
      MatchesStep(board, p, Dirs8, i, m.color);
      var n := Shift(p, Dirs8[i]);
      assert Dirs8[i] != Point(0, 0);
      if Look(board, n) == On(Some(m.color)) {
        connectedGroups := connectedGroups + {n};
      }
    }
    assert Dirs8[..|Dirs8|] == Dirs8;
    Dirs8Matches(board, p, m.color);
    r := |connectedGroups| >= 2;
  }

  /** `createsPotentialEye`: at least three of the four orthogonal
      neighbours hold the mover's colour. */
  method CreatesPotentialEye(board: Board, m: Move) returns (r: bool)
    ensures r <==> |OrthAllies(board, m.Pos(), m.color)| >= 3
  {
    var p := m.Pos();
    var surrounded := 0;
    Dirs4Matches(board, p, m.color);
    for i := 0 to |Dirs4|
      invariant surrounded == |Matches(board, p, Dirs4[..i], m.color)|
    {
      MatchesCount(board, p, Dirs4, i, m.color);
      assert Dirs4[i] != Point(0, 0);
      if Look(board, Shift(p, Dirs4[i])) == On(Some(m.color)) {
        surrounded := surrounded + 1;
      }
    }
    assert Dirs4[..|Dirs4|] == Dirs4;
    r := surrounded >= 3;
  }

  // ----- liberties of a group -----

  /** The body of the liberty walk at `top`: each orthogonal neighbour that
      is empty becomes a liberty, each one of colour c is pushed (visited or
      not). */
  method VisitAround(b: Board, c: Color, top: Point, stack: seq<Point>, libs: set<Point>)
    returns (stack': seq<Point>, libs': set<Point>)
    ensures forall q :: q in stack' <==> q in stack || (Adjacent(b, top, q) && At(b, q) == Some(c))
    ensures libs' == libs + PointLiberties(b, top)
  {
    stack', libs' := stack, libs;
    var neighbors := GroupAnalyzer.DfsNeighbors(top);
    ghost var done: set<Point> := {};
    for i := 0 to 4
      invariant forall k :: 0 <= k < i ==> neighbors[k] in done
      invariant forall q :: q in done ==> Orth(top, q)
      invariant forall q :: q in stack' <==> q in stack || (q in done && IsCell(b, q) && At(b, q) == Some(c))
      invariant forall q :: q in libs' <==> q in libs || (q in done && IsCell(b, q) && At(b, q) == None)
    {
      var n := neighbors[i];
      var neighbor := Look(b, n);
      if neighbor == On(None) {
        libs' := libs' + {n};
      } else if neighbor == On(Some(c)) {
        stack' := stack' + [n];
      }
      done := done + {n};
    }
    forall q ensures q in done <==> Orth(top, q) {
      if Orth(top, q) {
        var k :| 0 <= k < 4 && neighbors[k] == q;
      }
    }
  }

  /** `countLibertiesOfGroup`: 0 unless (x, y) holds a stone, otherwise the
      number of liberties of that stone's group. */
  method CountLibertiesOfGroup(b: Board, x: int, y: int) returns (n: nat)
    ensures !IsStone(b, Point(x, y)) ==> n == 0
    ensures IsStone(b, Point(x, y)) ==> n == |LibertySet(b, Comp(b, Point(x, y)))|
  {
    var p := Point(x, y);
    var probe := Look(b, p);
    if !probe.On? || probe.cell.None? {
      return 0;
    }
    var c := probe.cell.value;
    CompContains(b, p);
    CompColor(b, p);
    CompClosed(b, p);
    var visited: set<Point> := {};
    var liberties: set<Point> := {};
    var stack := [p];
    while |stack| > 0
      invariant visited <= Comp(b, p) && forall q :: q in stack ==> q in Comp(b, p)
      invariant (visited == {} && stack == [p]) || p in visited
      invariant Frontier(b, c, visited, stack)
      invariant liberties == LibertySet(b, visited)
      decreases Cells(b) - visited, |stack|
    {
      var top := stack[|stack| - 1];
      ghost var old_stack := stack;
      stack := stack[..|stack| - 1];
      assert forall q :: q in old_stack ==> q in stack || q == top;
      if top in visited {
        continue;
      }
      ghost var old_visited := visited;
      visited := visited + {top};
      stack, liberties := VisitAround(b, c, top, stack, liberties);
      LibertySetAddPoint(b, old_visited, top);
    }
    assert Closed(b, c, visited);
    CompExact(b, p, visited);
    n := |liberties|;
  }

  /** q holds an enemy stone whose group has exactly one liberty. */
  ghost predicate InAtari(b: Board, q: Point, enemy: Color) {
    IsStone(b, q) && At(b, q) == Some(enemy) && |LibertySet(b, Comp(b, q))| == 1
  }

  /** `threatensCapture`: some orthogonal neighbour is an opponent stone
      whose group has a single liberty. */
  method ThreatensCapture(board: Board, m: Move) returns (r: bool)
    ensures r <==> exists q :: Orth(m.Pos(), q) && InAtari(board, q, Opponent(m.color))
  {
    var p := m.Pos();
    var enemyColor := Opponent(m.color);
    for i := 0 to |Dirs4|
      invariant forall k :: 0 <= k < i ==> !InAtari(board, Shift(p, Dirs4[k]), enemyColor)
    {
      var n := Shift(p, Dirs4[i]);
      if Look(board, n) == On(Some(enemyColor)) {
        var liberties := CountLibertiesOfGroup(board, n.x, n.y);
        if liberties == 1 {
          Dirs4Orth(p, n);
          return true;
        }
      }
    }
    forall q | Orth(p, q) ensures !InAtari(board, q, enemyColor) {
      Dirs4Orth(p, q);
    }
    r := false;
  }

  // ----- the evaluation -----

  /** `groups.find(g => g.stones.some(s => s is p))`. */
  function FindGroupOf(groups: seq<GroupAnalyzer.GroupData>, p: Point): (r: Option<GroupAnalyzer.GroupData>)
    ensures r.None? <==> forall i :: 0 <= i < |groups| ==> p !in groups[i].stones
    ensures r.Some? ==> exists i :: 0 <= i < |groups| && groups[i] == r.value && p in r.value.stones
  {
    if groups == [] then None
    else if p in groups[0].stones then Some(groups[0])
    else
      var r := FindGroupOf(groups[1..], p);
      assert forall i :: 1 <= i < |groups| ==> groups[i] == groups[1..][i - 1];
      r
  }

  datatype EngineEvaluation = EngineEvaluation(
    liberties: nat,
    territoryBlack: nat,
    territoryWhite: nat,
    isAtari: bool,
    riskLevel: Risk,
    groupsInAtari: seq<GroupAnalyzer.GroupData>,
    overconcentrated: bool,
    connectsGroups: bool,
    createsEye: bool,
    threatensCapture: bool)

  /** `evaluateBoard`: the liberties of the group holding the move (0 when
      no stone is there), with the derived atari flag and risk level, the
      territory estimate, the groups in atari and the four pattern tests. */
  method EvaluateBoard(board: Board, m: Move) returns (e: EngineEvaluation)
    requires Square(board)
    ensures e.liberties == if IsStone(board, m.Pos()) then |LibertySet(board, Comp(board, m.Pos()))| else 0
    ensures e.isAtari <==> e.liberties == 1
    ensures e.riskLevel == GetRiskLevel(e.liberties)
    ensures e.territoryBlack == Count(board, Black) && e.territoryWhite == Count(board, White) + 1
    ensures forall g :: g in e.groupsInAtari ==> GroupAnalyzer.ValidGroup(board, g) && g.liberties <= 1
    ensures forall q :: IsStone(board, q) && |LibertySet(board, Comp(board, q))| <= 1 ==>
      exists g :: g in e.groupsInAtari && q in g.stones
    ensures forall g :: g in e.groupsInAtari ==> GroupAnalyzer.StartsFirst(board, g)
    ensures GroupAnalyzer.StartsIncreasing(e.groupsInAtari)
    ensures forall i, j :: 0 <= i < j < |e.groupsInAtari| ==>
      Elems(e.groupsInAtari[i].stones) !! Elems(e.groupsInAtari[j].stones)
    ensures e.overconcentrated <==> |BoxAllies(board, m.Pos(), 2, m.color)| >= 6
    ensures e.connectsGroups <==> |BoxAllies(board, m.Pos(), 1, m.color)| >= 2
    ensures e.createsEye <==> |OrthAllies(board, m.Pos(), m.color)| >= 3
    ensures e.threatensCapture <==> exists q :: Orth(m.Pos(), q) && InAtari(board, q, Opponent(m.color))
  {
    var groupsInAtari := GroupAnalyzer.GetGroupsInAtari(board, 1);
    var liberties := LibertiesOfMove(board, m);
    var overconcentrated := DetectOverconcentration(board, m);
    var black, white := EstimateTerritory(board);
    var connected := DetectConnectionMove(board, m);
    var eye := CreatesPotentialEye(board, m);
    var threatens := ThreatensCapture(board, m);
    e := EngineEvaluation(liberties, black, white, liberties == 1, GetRiskLevel(liberties),
                          groupsInAtari, overconcentrated, connected, eye, threatens);
  }

  /** `groupOfMove?.liberties ?? 0`, where `groupOfMove` is the first group
      of `analyzeGroups` that contains the move. */
  method LibertiesOfMove(board: Board, m: Move) returns (liberties: nat)
    requires Square(board)
    ensures liberties == if IsStone(board, m.Pos()) then |LibertySet(board, Comp(board, m.Pos()))| else 0
  {
    var groups := GroupAnalyzer.AnalyzeGroups(board);
    var groupOfMove := FindGroupOf(groups, m.Pos());
    liberties := if groupOfMove.Some? then groupOfMove.value.liberties else 0;
    MoveLiberties(board, groups, m.Pos());
  }

  /** The record found for p carries the liberties of p's group, and no
      record is found when p holds no stone. */
  lemma MoveLiberties(b: Board, groups: seq<GroupAnalyzer.GroupData>, p: Point)
    requires forall i :: 0 <= i < |groups| ==> GroupAnalyzer.ValidGroup(b, groups[i])
    requires forall q :: IsStone(b, q) ==> exists i :: 0 <= i < |groups| && q in groups[i].stones
    ensures FindGroupOf(groups, p).Some? <==> IsStone(b, p)
    ensures FindGroupOf(groups, p).Some? ==> FindGroupOf(groups, p).value.liberties == |LibertySet(b, Comp(b, p))|
  {
    var r := FindGroupOf(groups, p);
    if r.Some? {
      var i :| 0 <= i < |groups| && groups[i] == r.value && p in r.value.stones;
      GroupAnalyzer.RecordOfStone(b, groups[i], p);
    }
    if IsStone(b, p) {
      var i :| 0 <= i < |groups| && p in groups[i].stones;
      assert r.Some?;
    }
  }
}
