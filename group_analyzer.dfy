/** The back end's group analysis
    (backend/src/assistant/domain/engine/group-analyzer.ts): every group of
    the board with its colour, its stones and its number of liberties, found
    by a row-major scan and a recursive depth-first search that share one
    visited set.  The search bounds both coordinates by `board.length`, so the
    boards here are square (the 19x19 matrix of the assistant's types). */
module GroupAnalyzer {
  import opened Opt
  import opened GoBoard

  /** `GroupData`: the colour, the stones in visiting order and the liberty
      count of one group. */
  datatype GroupData = GroupData(color: Color, stones: seq<Point>, liberties: nat)

  /** g describes one group of b exactly: its first stone, the stones of that
      stone's group each once, their colour, and the number of distinct
      liberties. */
  ghost predicate ValidGroup(b: Board, g: GroupData) {
    && |g.stones| > 0
    && IsStone(b, g.stones[0])
    && At(b, g.stones[0]) == Some(g.color)
    && Distinct(g.stones)
    && Elems(g.stones) == Comp(b, g.stones[0])
    && g.liberties == |LibertySet(b, Comp(b, g.stones[0]))|
  }

  /** The stones of V that have a same-coloured neighbour outside V. */
  ghost function Open(b: Board, V: set<Point>): set<Point> {
    set v | v in V && IsStone(b, v) && exists q :: Adjacent(b, v, q) && At(b, q) == At(b, v) && q !in V
  }

  /** A union of whole groups has no open stone. */
  lemma UnionOfGroupsClosed(b: Board, V: set<Point>)
    requires UnionOfGroups(b, V)
    ensures Open(b, V) == {}
  {
    forall v | v in Open(b, V) ensures false {
      var q :| Adjacent(b, v, q) && At(b, q) == At(b, v) && q !in V;
      CompContains(b, v);
      CompClosed(b, v);
    }
  }

  /** Adding one point opens at most that point. */
  lemma OpenAddPoint(b: Board, V: set<Point>, p: Point)
    ensures Open(b, V + {p}) <= Open(b, V) + {p}
  {
  }

  lemma DistinctAppend<T>(a: seq<T>, c: seq<T>)
    requires Distinct(a) && Distinct(c) && Elems(a) !! Elems(c)
    ensures Distinct(a + c)
  {
    forall i, j | 0 <= i < j < |a + c| ensures (a + c)[i] != (a + c)[j] {
      if i < |a| && j >= |a| {
        assert (a + c)[i] in Elems(a);
        assert (a + c)[j] == c[j - |a|];
        assert (a + c)[j] in Elems(c);
      }
    }
  }

  /** The four neighbours in the source's order: left, right, up, down. */
  function DfsNeighbors(p: Point): (r: seq<Point>)
    ensures |r| == 4 && forall i :: 0 <= i < 4 ==> Orth(p, r[i])
    ensures forall q :: Orth(p, q) ==> q in r
  {
    [Point(p.x - 1, p.y), Point(p.x + 1, p.y), Point(p.x, p.y - 1), Point(p.x, p.y + 1)]
  }

  /** The depth-first search from p over the stones of colour c (the colour
      of `start`, whose group p belongs to).  It adds to `visited` the cells
      it reaches, appends them to `stones` in visiting order and adds their
      empty neighbours to `libs`.  `stk` (ghost) holds the cells whose search
      is still in progress further up the recursion: they are the only
      visited stones allowed to have unvisited same-coloured neighbours. */
  method Dfs(b: Board, ghost start: Point, c: Color, p: Point, visited: set<Point>, stones: seq<Point>, libs: set<Point>, ghost stk: set<Point>)
    returns (visited': set<Point>, stones': seq<Point>, libs': set<Point>)
    requires Square(b) && IsStone(b, start) && At(b, start) == Some(c)
    requires p in Comp(b, start)
    requires Open(b, visited) <= stk <= visited
    ensures visited <= visited' && p in visited'
    ensures visited' - visited <= Comp(b, start)
    ensures Open(b, visited') <= stk
    ensures |stones'| >= |stones| && stones'[..|stones|] == stones
    ensures Elems(stones'[|stones|..]) == visited' - visited && Distinct(stones'[|stones|..])
    ensures p !in visited ==> |stones'| > |stones| && stones'[|stones|] == p
    ensures libs' == libs + LibertySet(b, visited' - visited)
    decreases Cells(b) - visited, 0
  {
    if p in visited {
      assert stones[|stones|..] == [];
      return visited, stones, libs;
    }
    visited' := visited + {p};
    stones' := stones + [p];
    libs' := libs;
    OpenAddPoint(b, visited, p);
    assert stones'[|stones|..] == [p];
    var neighbors := DfsNeighbors(p);
    ghost var pl: set<Point> := {};
    ghost var done: set<Point> := {};
    for i := 0 to 4
      invariant visited + {p} <= visited' && visited' - visited <= Comp(b, start)
      invariant Open(b, visited') <= stk + {p}
      invariant |stones'| > |stones| && stones'[..|stones|] == stones && stones'[|stones|] == p
      invariant Elems(stones'[|stones|..]) == visited' - visited && Distinct(stones'[|stones|..])
      invariant libs' == libs + LibertySet(b, visited' - visited - {p}) + pl
      invariant pl <= PointLiberties(b, p)
      invariant forall k :: 0 <= k < i ==> neighbors[k] in done
      invariant forall q :: q in done && IsCell(b, q) && At(b, q) == None ==> q in pl
      invariant forall q :: q in done && IsCell(b, q) && At(b, q) == Some(c) ==> q in visited'
    {
      var n := neighbors[i];
      ghost var before, stonesBefore, doneBefore := visited', stones', done;
      visited', stones', libs' := DfsStep(b, start, c, p, n, visited', stones', libs', stk + {p});
      NewPartsAppend(stones, stonesBefore, stones', visited, before, visited');
      ghost var found := if IsCell(b, n) && At(b, n) == None then {n} else {};
      LibsAfterCall(b, libs, pl, found, visited, before, visited', p);
      pl := pl + found;
      done := done + {n};
      DoneGrows(neighbors, i, doneBefore, done);
    }
    assert At(b, p) == Some(c) by { CompColor(b, start); }
    DfsClose(b, c, p, neighbors, done, pl, visited, visited', libs, libs', stk);
  }

  /** One iteration of the search's neighbour loop at p, for the neighbour n:
      skipped when off the board, recorded as a liberty when empty, searched
      when it holds c. */
  method DfsStep(b: Board, ghost start: Point, c: Color, p: Point, n: Point, visited: set<Point>, stones: seq<Point>, libs: set<Point>, ghost stk: set<Point>)
    returns (visited': set<Point>, stones': seq<Point>, libs': set<Point>)
    requires Square(b) && IsStone(b, start) && At(b, start) == Some(c)
    requires p in Comp(b, start) && p in visited && Orth(p, n)
    requires Open(b, visited) <= stk <= visited
    ensures visited <= visited' && visited' - visited <= Comp(b, start)
    ensures Open(b, visited') <= stk
    ensures |stones'| >= |stones| && stones'[..|stones|] == stones
    ensures Elems(stones'[|stones|..]) == visited' - visited && Distinct(stones'[|stones|..])
    ensures IsCell(b, n) && At(b, n) == Some(c) ==> n in visited'
    ensures libs' == libs + LibertySet(b, visited' - visited) + (if IsCell(b, n) && At(b, n) == None then {n} else {})
    decreases Cells(b) - visited, 1
  {
    assert stones[|stones|..] == [];
    visited', stones', libs' := visited, stones, libs;
    if n.y < 0 || n.y >= |b| || n.x < 0 || n.x >= |b| {
      return;
    }
    assert IsCell(b, n) && Adjacent(b, p, n);
    if b[n.y][n.x] == None {
      libs' := libs + {n};
    } else if b[n.y][n.x] == Some(c) {
      assert n in Comp(b, start) by {
        CompColor(b, start);
        CompClosed(b, start);
      }
      visited', stones', libs' := Dfs(b, start, c, n, visited, stones, libs, stk);
    }
  }

  /** The end of the neighbour loop: once every neighbour of p is handled, p
      is no longer open and its liberties are all recorded. */
  lemma DfsClose(b: Board, c: Color, p: Point, neighbors: seq<Point>, done: set<Point>, pl: set<Point>,
                 V0: set<Point>, V: set<Point>, libs: set<Point>, libs': set<Point>, stk: set<Point>)
    requires Square(b) && IsCell(b, p) && At(b, p) == Some(c)
    requires neighbors == DfsNeighbors(p) && forall k :: 0 <= k < 4 ==> neighbors[k] in done
    requires forall q :: q in done && IsCell(b, q) && At(b, q) == None ==> q in pl
    requires forall q :: q in done && IsCell(b, q) && At(b, q) == Some(c) ==> q in V
    requires pl <= PointLiberties(b, p)
    requires p !in V0 && V0 + {p} <= V && Open(b, V) <= stk + {p}
    requires libs' == libs + LibertySet(b, V - V0 - {p}) + pl
    ensures Open(b, V) <= stk
    ensures libs' == libs + LibertySet(b, V - V0)
  {
    assert p !in Open(b, V) by {
      forall q | Adjacent(b, p, q) && At(b, q) == Some(c) ensures q in V {
        var k :| 0 <= k < 4 && neighbors[k] == q;
      }
    }
    LibertySetAddPoint(b, V - V0 - {p}, p);
    assert V - V0 == (V - V0 - {p}) + {p};
    assert PointLiberties(b, p) == pl by {
      forall q | q in PointLiberties(b, p) ensures q in pl {
        var k :| 0 <= k < 4 && neighbors[k] == q;
      }
    }
  }

  lemma DoneGrows(ns: seq<Point>, i: nat, d0: set<Point>, d1: set<Point>)
    requires i < |ns| && (forall k :: 0 <= k < i ==> ns[k] in d0) && d1 == d0 + {ns[i]}
    ensures forall k :: 0 <= k < i + 1 ==> ns[k] in d1
  {
  }

  /** Bookkeeping for the liberties: a nested search that visits V2 - V1 adds
      exactly their liberties. */
  lemma LibsAfterCall(b: Board, libs: set<Point>, pl: set<Point>, found: set<Point>, V0: set<Point>, V1: set<Point>, V2: set<Point>, p: Point)
    requires V0 + {p} <= V1 <= V2
    ensures (libs + LibertySet(b, V1 - V0 - {p}) + pl) + LibertySet(b, V2 - V1) + found == libs + LibertySet(b, V2 - V0 - {p}) + (pl + found)
  {
    LibertySetUnion(b, V1 - V0 - {p}, V2 - V1);
    assert V2 - V0 - {p} == (V1 - V0 - {p}) + (V2 - V1);
  }

  /** Bookkeeping for the visiting order: appending the cells newly reached by
      a nested search keeps the part added since the outer call duplicate
      free and equal to the newly visited cells. */
  lemma NewPartsAppend(s0: seq<Point>, s1: seq<Point>, s2: seq<Point>, V0: set<Point>, V1: set<Point>, V2: set<Point>)
    requires |s0| < |s1| && s1[..|s0|] == s0
    requires Elems(s1[|s0|..]) == V1 - V0 && Distinct(s1[|s0|..])
    requires V0 <= V1 <= V2
    requires |s2| >= |s1| && s2[..|s1|] == s1
    requires Elems(s2[|s1|..]) == V2 - V1 && Distinct(s2[|s1|..])
    ensures |s2| > |s0| && s2[..|s0|] == s0 && s2[|s0|] == s1[|s0|]
    ensures Elems(s2[|s0|..]) == V2 - V0 && Distinct(s2[|s0|..])
  {
    assert s2[|s0|..] == s1[|s0|..] + s2[|s1|..];
    DistinctAppend(s1[|s0|..], s2[|s1|..]);
    assert Elems(s1[|s0|..] + s2[|s1|..]) == Elems(s1[|s0|..]) + Elems(s2[|s1|..]);
  }

  // ----- the scan over the board -----

  /** V is a union of whole groups (and holds only stones). */
  ghost predicate UnionOfGroups(b: Board, V: set<Point>) {
    && (forall v :: v in V ==> IsStone(b, v))
    && (forall v, q {:trigger q in Comp(b, v), v in V} :: v in V && IsStone(b, v) && q in Comp(b, v) ==> q in V)
  }

  /** A stone next to a same-coloured stone of a union of groups is in it. */
  lemma NeighborInUnion(b: Board, V: set<Point>, s: Point, q: Point)
    requires UnionOfGroups(b, V) && IsStone(b, s) && Adjacent(b, s, q) && At(b, q) == At(b, s)
    ensures q in V ==> s in V
  {
    if q in V {
      CompContains(b, q);
      CompClosed(b, q);
      OrthSymmetric(s, q);
      assert Adjacent(b, q, s);
    }
  }

  /** What the search adds when started on an unvisited stone p with every
      earlier group already visited is exactly p's group. */
  lemma NewGroupIsComp(b: Board, V: set<Point>, V': set<Point>, p: Point)
    requires IsStone(b, p) && UnionOfGroups(b, V)
    requires V <= V' && p in V' - V && V' - V <= Comp(b, p) && Open(b, V') == {}
    ensures V' - V == Comp(b, p)
  {
    var c := At(b, p).value;
    var N := V' - V;
    CompColor(b, p);
    forall s, q | s in N && IsCell(b, s) && At(b, s) == Some(c) && Adjacent(b, s, q) && At(b, q) == Some(c)
      ensures q in N
    {
      assert q in V' by { assert s !in Open(b, V'); }
      NeighborInUnion(b, V, s, q);
    }
    CompExact(b, p, N);
  }

  /** Adding a stone's whole group keeps a union of groups one. */
  lemma UnionAddGroup(b: Board, V: set<Point>, p: Point)
    requires IsStone(b, p) && UnionOfGroups(b, V)
    ensures UnionOfGroups(b, V + Comp(b, p))
  {
    forall v | v in Comp(b, p) ensures IsStone(b, v) && Comp(b, v) <= V + Comp(b, p) {
      CompSymmetric(b, p, v);
    }
  }

  /** An unvisited stone after which nothing unvisited precedes it in
      row-major order is the row-major first stone of its group. */
  lemma StartIsFirst(b: Board, V: set<Point>, p: Point)
    requires IsStone(b, p) && UnionOfGroups(b, V) && p !in V
    requires forall q :: IsStone(b, q) && Before(q, p) ==> q in V
    ensures forall q :: q in Comp(b, p) ==> q == p || Before(p, q)
  {
    forall q | q in Comp(b, p) ensures q == p || Before(p, q) {
      CompSymmetric(b, p, q);
      CompContains(b, p);
      assert q !in V;
      assert !Before(q, p);
    }
  }

  /** The first stone of a valid group comes first in row-major order. */
  ghost predicate StartsFirst(b: Board, g: GroupData)
    requires ValidGroup(b, g)
  {
    forall q :: q in g.stones ==> q == g.stones[0] || Before(g.stones[0], q)
  }

  ghost predicate StartsIncreasing(groups: seq<GroupData>) {
    forall i, j :: 0 <= i < j < |groups| ==> StartsBefore(groups[i], groups[j])
  }

  /** g and h both have stones, and g's first stone comes first. */
  ghost predicate StartsBefore(g: GroupData, h: GroupData) {
    |g.stones| > 0 && |h.stones| > 0 && Before(g.stones[0], h.stones[0])
  }

  /** Every record is a valid group that starts at its row-major first stone. */
  ghost predicate AllValid(b: Board, G: seq<GroupData>) {
    forall i :: 0 <= i < |G| ==> ValidGroup(b, G[i]) && StartsFirst(b, G[i])
  }

  lemma AllValidAppend(b: Board, G: seq<GroupData>, g: GroupData)
    requires AllValid(b, G) && ValidGroup(b, g) && StartsFirst(b, g)
    ensures AllValid(b, G + [g])
  {
    assert forall i :: 0 <= i < |G| ==> (G + [g])[i] == G[i];
  }

  /** The bookkeeping of the scan on reaching pos: the visited cells are
      those of the records, which are ordered and start before pos, and
      every stone before pos is visited. */
  ghost predicate ScanInv(b: Board, V: set<Point>, G: seq<GroupData>, pos: Point) {
    && (forall i :: 0 <= i < |G| ==> Elems(G[i].stones) <= V)
    && (forall v :: v in V ==> exists i :: 0 <= i < |G| && v in G[i].stones)
    && StartsIncreasing(G)
    && (forall i :: 0 <= i < |G| ==> |G[i].stones| > 0 && Before(G[i].stones[0], pos))
    && (forall q :: IsStone(b, q) && Before(q, pos) ==> q in V)
  }

  lemma ScanSkip(b: Board, V: set<Point>, G: seq<GroupData>, x: int, y: int)
    requires ScanInv(b, V, G, Point(x, y)) && (!IsStone(b, Point(x, y)) || Point(x, y) in V)
    ensures ScanInv(b, V, G, Point(x + 1, y))
  {
    var p, next := Point(x, y), Point(x + 1, y);
    forall q | IsStone(b, q) && Before(q, next) ensures q in V {
      if q != p {
        assert Before(q, p);
      }
    }
    forall i | 0 <= i < |G| ensures |G[i].stones| > 0 && Before(G[i].stones[0], next) {
      assert Before(G[i].stones[0], p);
    }
  }

  lemma ScanNextRow(b: Board, V: set<Point>, G: seq<GroupData>, y: int)
    requires 0 <= y < |b| && ScanInv(b, V, G, Point(|b[y]|, y))
    ensures ScanInv(b, V, G, Point(0, y + 1))
  {
    assert forall q :: IsStone(b, q) && Before(q, Point(0, y + 1)) ==> Before(q, Point(|b[y]|, y));
  }

  /** What the search from an unvisited stone p finds, when every stone
      before p is visited and the visited cells are whole groups: p's group,
      which makes a valid group record starting at its row-major first stone. */
  lemma SearchFindsGroup(b: Board, V: set<Point>, V': set<Point>, p: Point, g: GroupData)
    requires IsStone(b, p) && p !in V && UnionOfGroups(b, V)
    requires forall q :: IsStone(b, q) && Before(q, p) ==> q in V
    requires V <= V' && p in V' && V' - V <= Comp(b, p) && Open(b, V') == {}
    requires g.color == At(b, p).value && g.stones != [] && g.stones[0] == p
    requires Elems(g.stones) == V' - V && Distinct(g.stones) && g.liberties == |LibertySet(b, V' - V)|
    ensures ValidGroup(b, g) && StartsFirst(b, g)
    ensures V' == V + Elems(g.stones) && UnionOfGroups(b, V')
  {
    NewGroupIsComp(b, V, V', p);
    UnionAddGroup(b, V, p);
    StartIsFirst(b, V, p);
  }

  /** The step that records a new group found at p. */
  lemma ScanAdd(b: Board, V: set<Point>, V': set<Point>, G: seq<GroupData>, x: int, y: int, g: GroupData)
    requires ScanInv(b, V, G, Point(x, y)) && |g.stones| > 0 && g.stones[0] == Point(x, y)
    requires V' == V + Elems(g.stones)
    ensures ScanInv(b, V', G + [g], Point(x + 1, y))
  {
    var G' := G + [g];
    var p, next := Point(x, y), Point(x + 1, y);
    assert forall i :: 0 <= i < |G| ==> G'[i] == G[i];
    forall v | v in V' ensures exists i :: 0 <= i < |G'| && v in G'[i].stones {
      if v in V {
        var i :| 0 <= i < |G| && v in G[i].stones;
        assert G'[i] == G[i];
      } else {
        assert v in G'[|G|].stones;
      }
    }
    forall q | IsStone(b, q) && Before(q, next) ensures q in V' {
      if q != p {
        assert Before(q, p);
      }
    }
    StartsAppend(G, g, p, next);
  }

  /** Appending a record whose start follows every earlier start keeps the
      starts increasing, and all of them lie before `next` when the new one
      does. */
  lemma StartsAppend(G: seq<GroupData>, g: GroupData, p: Point, next: Point)
    requires StartsIncreasing(G) && |g.stones| > 0 && g.stones[0] == p && Before(p, next)
    requires forall i :: 0 <= i < |G| ==> |G[i].stones| > 0 && Before(G[i].stones[0], p)
    ensures StartsIncreasing(G + [g])
    ensures forall i :: 0 <= i < |G| + 1 ==> |(G + [g])[i].stones| > 0 && Before((G + [g])[i].stones[0], next)
  {
    var G' := G + [g];
    assert forall i :: 0 <= i < |G| ==> G'[i] == G[i];
    assert G'[|G|] == g;
    forall i, j | 0 <= i < j < |G'|
      ensures StartsBefore(G'[i], G'[j])
    {
      if j == |G| {
        assert Before(G[i].stones[0], p);
      } else {
        assert StartsBefore(G[i], G[j]);
      }
    }
  }

  /** The body of the scan at an unvisited stone p: one search from p with
      fresh stone and liberty collections, recorded as p's group. */
  method CollectGroup(b: Board, visited: set<Point>, p: Point) returns (visited': set<Point>, g: GroupData)
    requires Square(b) && IsStone(b, p) && p !in visited && UnionOfGroups(b, visited)
    requires forall q :: IsStone(b, q) && Before(q, p) ==> q in visited
    ensures ValidGroup(b, g) && StartsFirst(b, g) && g.stones[0] == p
    ensures visited' == visited + Elems(g.stones) && UnionOfGroups(b, visited')
  {
    var c := b[p.y][p.x].value;
    assert Open(b, visited) <= {} by { UnionOfGroupsClosed(b, visited); }
    assert p in Comp(b, p) by { CompContains(b, p); }
    var stones, libs;
    visited', stones, libs := Dfs(b, p, c, p, visited, [], {}, {});
    assert stones[0..] == stones;
    g := GroupData(c, stones, |libs|);
    SearchFindsGroup(b, visited, visited', p, g);
  }

  /** One step of the scan, at (x, y): an empty or already visited cell is
      skipped, an unvisited stone starts a new group. */
  method ScanCell(b: Board, visited: set<Point>, groups: seq<GroupData>, x: int, y: int)
    returns (visited': set<Point>, groups': seq<GroupData>)
    requires Square(b) && 0 <= y < |b| && 0 <= x < |b[y]|
    requires ScanInv(b, visited, groups, Point(x, y)) && UnionOfGroups(b, visited) && AllValid(b, groups)
    ensures ScanInv(b, visited', groups', Point(x + 1, y)) && UnionOfGroups(b, visited') && AllValid(b, groups')
  {
    var p := Point(x, y);
    if b[y][x].None? || p in visited {
      ScanSkip(b, visited, groups, x, y);
      return visited, groups;
    }
    var g;
    visited', g := CollectGroup(b, visited, p);
    ScanAdd(b, visited, visited', groups, x, y, g);
    AllValidAppend(b, groups, g);
    groups' := groups + [g];
  }

  /** The inner loop of the scan, over row y. */
  method ScanRow(b: Board, visited: set<Point>, groups: seq<GroupData>, y: int)
    returns (visited': set<Point>, groups': seq<GroupData>)
    requires Square(b) && 0 <= y < |b|
    requires ScanInv(b, visited, groups, Point(0, y)) && UnionOfGroups(b, visited) && AllValid(b, groups)
    ensures ScanInv(b, visited', groups', Point(0, y + 1)) && UnionOfGroups(b, visited') && AllValid(b, groups')
  {
    visited', groups' := visited, groups;
    for x := 0 to |b|
      invariant ScanInv(b, visited', groups', Point(x, y))
      invariant UnionOfGroups(b, visited') && AllValid(b, groups')
    {
      visited', groups' := ScanCell(b, visited', groups', x, y);
    }
    assert |b[y]| == |b|;
    ScanNextRow(b, visited', groups', y);
  }

  /** Every group of the board, each once, ordered by its row-major first
      stone, which is also the first of its recorded stones. */
  method AnalyzeGroups(b: Board) returns (groups: seq<GroupData>)
    requires Square(b)
    ensures forall i :: 0 <= i < |groups| ==> ValidGroup(b, groups[i]) && StartsFirst(b, groups[i])
    ensures StartsIncreasing(groups)
    ensures forall p :: IsStone(b, p) ==> exists i :: 0 <= i < |groups| && p in groups[i].stones
    ensures forall i, j :: 0 <= i < j < |groups| ==> Elems(groups[i].stones) !! Elems(groups[j].stones)
  {
    var visited: set<Point> := {};
    groups := [];
    for y := 0 to |b|
      invariant ScanInv(b, visited, groups, Point(0, y))
      invariant UnionOfGroups(b, visited) && AllValid(b, groups)
    {
      visited, groups := ScanRow(b, visited, groups, y);
    }
    ScanDone(b, visited, groups);
  }

  /** The end of the scan: every stone lies before (0, |b|), so every stone
      is in a record, and the records are pairwise disjoint. */
  lemma ScanDone(b: Board, V: set<Point>, G: seq<GroupData>)
    requires ScanInv(b, V, G, Point(0, |b|)) && AllValid(b, G)
    ensures forall p :: IsStone(b, p) ==> exists i :: 0 <= i < |G| && p in G[i].stones
    ensures forall i, j :: 0 <= i < j < |G| ==> Elems(G[i].stones) !! Elems(G[j].stones)
  {
    forall p | IsStone(b, p) ensures exists i :: 0 <= i < |G| && p in G[i].stones {
      assert Before(p, Point(0, |b|));
      assert p in V;
    }
    GroupsDisjoint(b, G);
  }

  /** Valid groups ordered by distinct first stones that start their groups
      are pairwise disjoint. */
  lemma GroupsDisjoint(b: Board, groups: seq<GroupData>)
    requires forall i :: 0 <= i < |groups| ==> ValidGroup(b, groups[i]) && StartsFirst(b, groups[i])
    requires StartsIncreasing(groups)
    ensures forall i, j :: 0 <= i < j < |groups| ==> Elems(groups[i].stones) !! Elems(groups[j].stones)
  {
    forall i, j | 0 <= i < j < |groups| ensures Elems(groups[i].stones) !! Elems(groups[j].stones) {
      var si, sj := groups[i].stones[0], groups[j].stones[0];
      CompDisjointOrEqual(b, si, sj);
      CompContains(b, si);
      assert si !in Elems(groups[j].stones);
    }
  }

  /** The groups with at most `threshold` liberties, in their order. */
  function AtMost(groups: seq<GroupData>, threshold: int): (r: seq<GroupData>)
    ensures forall g :: g in r <==> g in groups && g.liberties <= threshold
    ensures |r| <= |groups|
  {
    if groups == [] then []
    else if groups[0].liberties <= threshold then [groups[0]] + AtMost(groups[1..], threshold)
    else AtMost(groups[1..], threshold)
  }

  lemma StartsTail(groups: seq<GroupData>)
    requires groups != [] && StartsIncreasing(groups)
    ensures StartsIncreasing(groups[1..])
  {
    var t := groups[1..];
    forall i, j | 0 <= i < j < |t|
      ensures StartsBefore(t[i], t[j])
    {
      assert t[i] == groups[i + 1] && t[j] == groups[j + 1];
    }
  }

  lemma StartsCons(g: GroupData, rest: seq<GroupData>)
    requires StartsIncreasing(rest)
    requires forall j :: 0 <= j < |rest| ==> StartsBefore(g, rest[j])
    ensures StartsIncreasing([g] + rest)
  {
    var s := [g] + rest;
    forall i, j | 0 <= i < j < |s|
      ensures StartsBefore(s[i], s[j])
    {
      assert s[j] == rest[j - 1];
      if i > 0 {
        assert s[i] == rest[i - 1];
      } else {
        assert s[i] == g;
      }
    }
  }

  /** Filtering keeps the groups in their order. */
  lemma {:induction false} AtMostKeepsOrder(groups: seq<GroupData>, threshold: int)
    requires StartsIncreasing(groups)
    ensures StartsIncreasing(AtMost(groups, threshold))
  {
    if groups != [] {
      StartsTail(groups);
      AtMostKeepsOrder(groups[1..], threshold);
      var rest := AtMost(groups[1..], threshold);
      if groups[0].liberties <= threshold {
        forall j | 0 <= j < |rest| ensures StartsBefore(groups[0], rest[j]) {
          assert rest[j] in groups[1..];
          var k :| 0 <= k < |groups[1..]| && groups[1..][k] == rest[j];
          assert groups[k + 1] == rest[j];
        }
        StartsCons(groups[0], rest);
      }
    }
  }

  /** The liberty count of a valid record is that of the group of any of its
      stones. */
  lemma RecordOfStone(b: Board, g: GroupData, p: Point)
    requires ValidGroup(b, g) && p in g.stones
    ensures IsStone(b, p) && g.liberties == |LibertySet(b, Comp(b, p))|
  {
    assert p in Elems(g.stones);
    CompSymmetric(b, g.stones[0], p);
  }

  /** The record of a stone whose group has at most `threshold` liberties
      survives the filter. */
  lemma AtMostKeeps(b: Board, groups: seq<GroupData>, threshold: int, i: int, p: Point)
    requires 0 <= i < |groups| && ValidGroup(b, groups[i]) && p in groups[i].stones
    requires IsStone(b, p) && |LibertySet(b, Comp(b, p))| <= threshold
    ensures groups[i] in AtMost(groups, threshold)
  {
    RecordOfStone(b, groups[i], p);
  }

  /** `getGroupsInAtari` (its default threshold is 1): the groups of the
      board with at most `threshold` liberties, each once, each starting at
      its first stone, in scan order. */
  method GetGroupsInAtari(b: Board, threshold: int) returns (r: seq<GroupData>)
    requires Square(b)
    ensures forall g :: g in r ==> ValidGroup(b, g) && g.liberties <= threshold
    ensures forall p :: IsStone(b, p) && |LibertySet(b, Comp(b, p))| <= threshold ==> exists g :: g in r && p in g.stones
    ensures forall g :: g in r ==> StartsFirst(b, g)
    ensures StartsIncreasing(r)
    ensures forall i, j :: 0 <= i < j < |r| ==> Elems(r[i].stones) !! Elems(r[j].stones)
  {
    var groups := AnalyzeGroups(b);
    r := AtMost(groups, threshold);
    AtMostKeepsOrder(groups, threshold);
    forall i | 0 <= i < |r| ensures ValidGroup(b, r[i]) && StartsFirst(b, r[i]) {
      assert r[i] in groups;
    }
    GroupsDisjoint(b, r);
    forall p | IsStone(b, p) && |LibertySet(b, Comp(b, p))| <= threshold ensures exists g :: g in r && p in g.stones {
      var i :| 0 <= i < |groups| && p in groups[i].stones;
      AtMostKeeps(b, groups, threshold, i, p);
    }
  }

}
