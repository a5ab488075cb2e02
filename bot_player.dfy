/** The rule-based bot of the front end (`useBotPlayer`): it plays white,
    preferring the free point that captures most, then the one with the best
    territorial score, then a random free point.  Randomness is a choice the
    model leaves open: `shuffle` may return any permutation, and the random
    move is picked by a `draw` parameter. */
module BotPlayer {
  import opened Opt
  import opened GoBoard
  import opened GameLogic

  /** The bot's stone on p. */
  function WhiteAt(p: Point): (m: Move)
    ensures m.Pos() == p && m.color == White
  {
    Move(p.x, p.y, White)
  }

  /** A point of the size x size board that no stone of the list stands on. */
  predicate Free(stones: seq<Move>, size: int, p: Point) {
    0 <= p.x < size && 0 <= p.y < size && !IsOccupied(stones, p.x, p.y)
  }

  /** The board `buildBoardFromMoves(stones, size)` returns. */
  ghost function BoardOf(stones: seq<Move>, size: nat): (b: Board)
    ensures |b| == size && Square(b) && Rect(b)
    ensures forall p :: IsCell(b, p) <==> 0 <= p.x < size && 0 <= p.y < size
  {
    seq(size, y => seq(size, x => LastColorAt(stones, Point(x, y))))
  }

  lemma BoardOfAt(stones: seq<Move>, size: nat, p: Point)
    requires 0 <= p.x < size && 0 <= p.y < size
    ensures At(BoardOf(stones, size), p) == LastColorAt(stones, p)
  {
  }

  /** What `BuildBoardFromMoves` promises determines the board. */
  lemma BuiltIsBoardOf(board: Board, stones: seq<Move>, size: nat)
    requires |board| == size && Square(board)
    requires forall p :: IsCell(board, p) ==> At(board, p) == LastColorAt(stones, p)
    ensures board == BoardOf(stones, size)
  {
    var b := BoardOf(stones, size);
    forall q | IsCell(board, q) ensures At(board, q) == At(b, q) {
      BoardOfAt(stones, size, q);
    }
    BoardsEqual(board, b);
  }

  /** A free point is an empty cell of the board. */
  lemma FreeIsEmpty(stones: seq<Move>, size: nat, p: Point)
    requires Free(stones, size, p)
    ensures IsCell(BoardOf(stones, size), p) && At(BoardOf(stones, size), p) == None
  {
    BoardOfAt(stones, size, p);
    LastColorAtSpec(stones, p);
  }

  // ----- shuffle -----

  /** `shuffle`: Fisher-Yates on a copy; `Math.random` picks any j <= i. */
  method Shuffle<T>(input: seq<T>) returns (r: seq<T>)
    ensures multiset(r) == multiset(input)
  {
    var arr := new T[|input|](k requires 0 <= k < |input| => input[k]);
    assert arr[..] == input;
    var i := arr.Length - 1;
    while i > 0
      invariant -1 <= i < arr.Length
      invariant multiset(arr[..]) == multiset(input)
    {
      var j :| 0 <= j <= i;
      ghost var before := arr[..];
      arr[i], arr[j] := arr[j], arr[i];
      SwapKeeps(before, arr[..], i, j);
      i := i - 1;
    }
    r := arr[..];
  }

  /** Swapping two entries keeps the multiset of the sequence. */
  lemma SwapKeeps<T>(a: seq<T>, b: seq<T>, i: int, j: int)
    requires 0 <= i < |a| && 0 <= j < |a|
    requires b == a[i := a[j]][j := a[i]]
    ensures multiset(b) == multiset(a)
  {
    var c := a[i := a[j]];
    assert multiset(c) == multiset(a) - multiset{a[i]} + multiset{a[j]};
  }

  lemma {:induction false} DistinctCount<T>(s: seq<T>, x: T)
    requires Distinct(s)
    ensures multiset(s)[x] <= 1
  {
    if s != [] {
      var n := |s| - 1;
      assert s == s[..n] + [s[n]];
      DistinctCount(s[..n], x);
      if x == s[n] {
        assert x !in s[..n];
      }
    }
  }

  /** A permutation of a list without repetitions has the same elements and
      no repetitions either. */
  lemma PermutationKeeps<T>(a: seq<T>, r: seq<T>)
    requires multiset(a) == multiset(r) && Distinct(a)
    ensures forall x :: x in r <==> x in a
    ensures Distinct(r)
  {
    forall x ensures x in r <==> x in a {
      assert x in r <==> x in multiset(r);
      assert x in a <==> x in multiset(a);
    }
    forall i, j | 0 <= i < j < |r| ensures r[i] != r[j] {
      if r[i] == r[j] {
        assert r == r[..j] + [r[j]] + r[j + 1..];
        assert r[i] in r[..j];
        assert multiset(r)[r[j]] >= 2;
        DistinctCount(a, r[j]);
      }
    }
  }

  /** The free points in a shuffled order. */
  method ShuffledFree(stones: seq<Move>, size: nat) returns (order: seq<Point>)
    ensures forall p :: p in order <==> Free(stones, size, p)
    ensures Distinct(order)
  {
    var available := GetAvailableMoves(stones, size);
    order := Shuffle(available);
    PermutationKeeps(available, order);
  }

  // ----- scanning for the first best point -----

  /** A free point where the bot's stone would not be suicide. */
  ghost predicate Safe(stones: seq<Move>, size: nat, p: Point) {
    Free(stones, size, p) && !Suicidal(BoardOf(stones, size), WhiteAt(p))
  }

  /** Every free point is suicide for white (true as well when there is no
      free point). */
  ghost predicate NoSafePoint(stones: seq<Move>, size: nat) {
    forall p :: Free(stones, size, p) ==> !Safe(stones, size, p)
  }

  /** After scanning the first k entries, where `ok` marks the entries to
      consider and `vals` gives their values: `top` is None when none was
      considered, and otherwise the largest value, first reached at `bi`. */
  ghost predicate FirstBest(ok: seq<bool>, vals: seq<int>, k: int, bi: int, top: Option<int>)
    requires |ok| == |vals| && 0 <= k <= |ok|
  {
    && (top.None? ==> forall j :: 0 <= j < k ==> !ok[j])
    && (top.Some? ==> 0 <= bi < k && ok[bi] && vals[bi] == top.value)
    && (top.Some? ==> forall j :: 0 <= j < k && ok[j] ==> vals[j] <= top.value)
    && (top.Some? ==> forall j :: 0 <= j < bi && ok[j] ==> vals[j] < top.value)
  }

  /** A point not considered leaves the scan as it was. */
  lemma ScanSkip(ok: seq<bool>, vals: seq<int>, k: int, bi: int, top: Option<int>)
    requires |ok| == |vals| && 0 <= k < |ok| && FirstBest(ok, vals, k, bi, top) && !ok[k]
    ensures FirstBest(ok, vals, k + 1, bi, top)
  {
  }

  /** A considered point beating the best so far (or the first one) becomes
      the best. */
  lemma ScanTake(ok: seq<bool>, vals: seq<int>, k: int, bi: int, top: Option<int>)
    requires |ok| == |vals| && 0 <= k < |ok| && FirstBest(ok, vals, k, bi, top) && ok[k]
    requires top.None? || vals[k] > top.value
    ensures FirstBest(ok, vals, k + 1, k, Some(vals[k]))
  {
  }

  /** A considered point that does not beat the best leaves it. */
  lemma ScanKeep(ok: seq<bool>, vals: seq<int>, k: int, bi: int, top: Option<int>)
    requires |ok| == |vals| && 0 <= k < |ok| && FirstBest(ok, vals, k, bi, top) && ok[k]
    requires top.Some? && vals[k] <= top.value
    ensures FirstBest(ok, vals, k + 1, bi, top)
  {
  }

  /** A finished scan over the free points, where the considered points are
      the safe ones. */
  lemma ScanDone(stones: seq<Move>, size: nat, order: seq<Point>, ok: seq<bool>, vals: seq<int>, bi: int, top: Option<int>)
    requires forall p :: p in order <==> Free(stones, size, p)
    requires |ok| == |order| && |vals| == |order|
    requires forall i :: 0 <= i < |order| ==> ok[i] == Safe(stones, size, order[i])
    requires FirstBest(ok, vals, |order|, bi, top)
    ensures top.None? <==> NoSafePoint(stones, size)
    ensures top.Some? ==> 0 <= bi < |order| && Safe(stones, size, order[bi])
  {
    if top.None? {
      forall p | Free(stones, size, p) ensures !Safe(stones, size, p) {
        var j :| 0 <= j < |order| && order[j] == p;
      }
    }
  }

  // ----- the capturing move -----

  /** The number of black stones white's stone on p removes. */
  ghost function Gain(b: Board, p: Point): int
    requires IsCell(b, p)
  {
    Count(b, Black) - Count(AfterMove(b, WhiteAt(p)), Black)
  }

  /** Playing white on an empty point never adds a black stone, so the gain
      is never negative. */
  lemma GainNonNegative(b: Board, p: Point)
    requires IsCell(b, p) && At(b, p) == None
    ensures Gain(b, p) >= 0
  {
    var m := WhiteAt(p);
    var s := Place(b, m);
    var a := AfterMove(b, m);
    forall q | IsCell(b, q) && At(a, q) == Some(Black) ensures At(b, q) == Some(Black) {
      CaptureResultCells(s, m, q);
    }
    CountNoGain(b, a, Black);
  }

  /** The captures of the bot's stone on a free point of the position. */
  ghost function Captures(stones: seq<Move>, size: nat, p: Point): int
    requires Free(stones, size, p)
  {
    Gain(BoardOf(stones, size), p)
  }

  /** No safe point captures more than p. */
  ghost predicate MostCaptures(stones: seq<Move>, size: nat, p: Point)
    requires Free(stones, size, p)
  {
    forall q :: Safe(stones, size, q) ==> Captures(stones, size, q) <= Captures(stones, size, p)
  }

  /** `countColor`: the cells holding c. */
  method CountColor(board: Board, c: Color) returns (count: nat)
    ensures count == Count(board, c)
  {
    count := 0;
    for i := 0 to |board|
      invariant count == Count(board[..i], c)
    {
      var row := board[i];
      for j := 0 to |row|
        invariant count == Count(board[..i], c) + CountRow(row[..j], c)
      {
        assert row[..j + 1][..j] == row[..j];
        if row[j] == Some(c) {
          count := count + 1;
        }
      }
      assert row[..|row|] == row;
      assert board[..i + 1][..i] == board[..i];
    }
    assert board[..|board|] == board;
  }

  /** The loop body of `getSmartMove` for one point: rebuild the board, play
      white, remove captures, count the black stones removed. */
  method CapturesAt(stones: seq<Move>, size: nat, board: Board, p: Point) returns (captures: int)
    requires MovesWithin(stones, size) && board == BoardOf(stones, size) && Free(stones, size, p)
    ensures captures == Captures(stones, size, p) && captures >= 0
  {
    var move := WhiteAt(p);
    FreeIsEmpty(stones, size, p);
    var testBoard := BuildBoardFromMoves(stones, size);
    BuiltIsBoardOf(testBoard, stones, size);
    testBoard := Place(testBoard, move);
    var resultBoard := RemoveCapturedStones(testBoard, move);
    var before: int := CountColor(board, Black);
    var after: int := CountColor(resultBoard, Black);
    captures := before - after;
    GainNonNegative(board, p);
  }

  /** `getSmartMove`: over the free points in shuffled order `order`, the
      first safe point with the most captures; `captures` is that number
      (`maxCaptures`). */
  method GetSmartMove(stones: seq<Move>, size: nat) returns (r: Option<Move>, captures: int, ghost order: seq<Point>)
    requires MovesWithin(stones, size)
    ensures forall p :: p in order <==> Free(stones, size, p)
    ensures Distinct(order)
    ensures r.None? <==> NoSafePoint(stones, size)
    ensures r.Some? ==> r.value == WhiteAt(r.value.Pos()) && Safe(stones, size, r.value.Pos())
    ensures r.Some? ==> captures == Captures(stones, size, r.value.Pos()) && captures >= 0
    ensures r.Some? ==> MostCaptures(stones, size, r.value.Pos())
    ensures r.Some? ==>
      exists i :: 0 <= i < |order| && order[i] == r.value.Pos() &&
        forall j :: 0 <= j < i && Safe(stones, size, order[j]) ==> Captures(stones, size, order[j]) < captures
  {
    var shuffled := ShuffledFree(stones, size);
    order := shuffled;
    var board := BuildBoardFromMoves(stones, size);
    BuiltIsBoardOf(board, stones, size);
    ghost var ok := seq(|order|, i requires 0 <= i < |order| => Safe(stones, size, order[i]));
    ghost var vals := seq(|order|, i requires 0 <= i < |order| => if ok[i] then Captures(stones, size, order[i]) else 0);
    ghost var bi := 0;
    var best: Option<Move> := None;
    var maxCaptures := -1;
    for k := 0 to |shuffled|
      invariant FirstBest(ok, vals, k, bi, if best.None? then None else Some(maxCaptures))
      invariant best.None? ==> maxCaptures == -1
      invariant best.Some? ==> maxCaptures >= 0 && best.value == WhiteAt(order[bi])
    {
      var p := shuffled[k];
      var move := WhiteAt(p);
      assert p in order;
      ghost var top := if best.None? then None else Some(maxCaptures);
      var suicidal := IsSuicidalMove(board, move);
      assert ok[k] == !suicidal;
      if suicidal {
        ScanSkip(ok, vals, k, bi, top);
      } else {
        var c := CapturesAt(stones, size, board, p);
        assert vals[k] == c;
        if c > maxCaptures {
          ScanTake(ok, vals, k, bi, top);
          maxCaptures := c;
          best := Some(move);
          bi := k;
        } else {
          ScanKeep(ok, vals, k, bi, top);
        }
      }
    }
    ScanDone(stones, size, order, ok, vals, bi, if best.None? then None else Some(maxCaptures));
    r, captures := best, maxCaptures;
    if r.Some? {
      SmartBest(stones, size, order, ok, vals, bi, maxCaptures);
    }
  }

  /** The scan's maximum, read back on the captures of the points. */
  lemma SmartBest(stones: seq<Move>, size: nat, order: seq<Point>, ok: seq<bool>, vals: seq<int>, bi: int, top: int)
    requires forall p :: p in order <==> Free(stones, size, p)
    requires |ok| == |order| && |vals| == |order|
    requires forall i :: 0 <= i < |order| ==> ok[i] == Safe(stones, size, order[i])
    requires forall i :: 0 <= i < |order| && ok[i] ==> vals[i] == Captures(stones, size, order[i])
    requires FirstBest(ok, vals, |order|, bi, Some(top))
    ensures Free(stones, size, order[bi]) && Captures(stones, size, order[bi]) == top
    ensures MostCaptures(stones, size, order[bi])
    ensures forall j :: 0 <= j < bi && Safe(stones, size, order[j]) ==> Captures(stones, size, order[j]) < top
  {
    assert order[bi] in order;
    forall q | Safe(stones, size, q) ensures Captures(stones, size, q) <= top {
      var j :| 0 <= j < |order| && order[j] == q;
    }
  }

  // ----- the territorial move -----

  /** `stones.filter(s => s.color === "white")`. */
  function Whites(stones: seq<Move>): seq<Move> {
    if stones == [] then []
    else Whites(stones[..|stones| - 1]) + (if stones[|stones| - 1].color == White then [stones[|stones| - 1]] else [])
  }

  /** The filter keeps exactly the white stones. */
  lemma {:induction false} WhitesSpec(stones: seq<Move>)
    ensures forall m :: m in Whites(stones) <==> m in stones && m.color == White
  {
    if stones != [] {
      var n := |stones| - 1;
      WhitesSpec(stones[..n]);
      assert stones == stones[..n] + [stones[n]];
    }
  }

  function Abs(n: int): nat {
    if n < 0 then -n else n
  }

  /** The Manhattan distance `dx + dy` between a stone and a point. */
  function Distance(s: Move, p: Point): nat {
    Abs(s.x - p.x) + Abs(s.y - p.y)
  }

  /** What one white stone adds to a point's score: 3 at distance 1, 1 at
      distance 2. */
  function Proximity(s: Move, p: Point): nat {
    var d := Distance(s, p);
    if d == 1 then 3 else if d == 2 then 1 else 0
  }

  /** The proximity score over a list of stones. */
  function StoneScore(ws: seq<Move>, p: Point): nat {
    if ws == [] then 0 else StoneScore(ws[..|ws| - 1], p) + Proximity(ws[|ws| - 1], p)
  }

  /** The bonus of the board's edge: 2 on a corner, 1 elsewhere on the edge. */
  function EdgeBonus(size: int, p: Point): nat {
    var isCorner := (p.x == 0 || p.x == size - 1) && (p.y == 0 || p.y == size - 1);
    var isEdge := p.x == 0 || p.x == size - 1 || p.y == 0 || p.y == size - 1;
    if isCorner then 2 else if isEdge then 1 else 0
  }

  /** The territorial score of white's stone on p. */
  function Score(stones: seq<Move>, size: int, p: Point): int {
    StoneScore(Whites(stones), p) + EdgeBonus(size, p)
  }

  /** The positions of the list holding a stone at distance d from p. */
  ghost function AtDistance(ws: seq<Move>, p: Point, d: int): set<int> {
    set i | 0 <= i < |ws| && Distance(ws[i], p) == d
  }

  /** The proximity score is three per stone at distance 1 plus one per
      stone at distance 2. */
  lemma {:induction false} StoneScoreCounts(ws: seq<Move>, p: Point)
    ensures StoneScore(ws, p) == 3 * |AtDistance(ws, p, 1)| + |AtDistance(ws, p, 2)|
  {
    if ws != [] {
      var n := |ws| - 1;
      var init := ws[..n];
      StoneScoreCounts(init, p);
      AtDistanceSnoc(ws, p, 1);
      AtDistanceSnoc(ws, p, 2);
    }
  }

  lemma AtDistanceSnoc(ws: seq<Move>, p: Point, d: int)
    requires ws != []
    ensures var n := |ws| - 1;
            |AtDistance(ws, p, d)| == |AtDistance(ws[..n], p, d)| + (if Distance(ws[n], p) == d then 1 else 0)
  {
    var n := |ws| - 1;
    var A, B := AtDistance(ws, p, d), AtDistance(ws[..n], p, d);
    assert A == B + (if Distance(ws[n], p) == d then {n} else {}) by {
      forall i | i in A ensures i in B || i == n {
        if i < n {
          assert ws[..n][i] == ws[i];
        }
      }
      forall i | i in B ensures i in A {
        assert ws[i] == ws[..n][i];
      }
    }
    assert n !in B;
  }

  /** The edge bonus: 2 exactly on the four corners, 1 on the rest of the
      border, 0 inside. */
  lemma EdgeBonusPlaces(size: int, p: Point)
    requires size >= 2 && 0 <= p.x < size && 0 <= p.y < size
    ensures EdgeBonus(size, p) == 2 <==> p in {Point(0, 0), Point(0, size - 1), Point(size - 1, 0), Point(size - 1, size - 1)}
    ensures EdgeBonus(size, p) == 0 <==> 0 < p.x < size - 1 && 0 < p.y < size - 1
  {
  }

  /** The score loop of `getTerritorialMove` for one point. */
  method ScoreAt(whiteStones: seq<Move>, size: int, p: Point) returns (score: int)
    ensures score == StoneScore(whiteStones, p) + EdgeBonus(size, p)
  {
    score := 0;
    for i := 0 to |whiteStones|
      invariant score == StoneScore(whiteStones[..i], p)
    {
      var s := whiteStones[i];
      var dx := if s.x - p.x < 0 then p.x - s.x else s.x - p.x;
      var dy := if s.y - p.y < 0 then p.y - s.y else s.y - p.y;
      var distance := dx + dy;
      assert whiteStones[..i + 1][..i] == whiteStones[..i];
      if distance == 1 {
        score := score + 3;
      } else if distance == 2 {
        score := score + 1;
      }
    }
    assert whiteStones[..|whiteStones|] == whiteStones;
    var isCorner := (p.x == 0 || p.x == size - 1) && (p.y == 0 || p.y == size - 1);
    var isEdge := p.x == 0 || p.x == size - 1 || p.y == 0 || p.y == size - 1;
    if isCorner {
      score := score + 2;
    } else if isEdge {
      score := score + 1;
    }
  }

  /** No safe point scores more than p. */
  ghost predicate MostScore(stones: seq<Move>, size: nat, p: Point) {
    forall q :: Safe(stones, size, q) ==> Score(stones, size, q) <= Score(stones, size, p)
  }

  /** The loop of `getTerritorialMove` over the shuffled free points. */
  method TerritorialScan(stones: seq<Move>, size: nat, order: seq<Point>, ghost ok: seq<bool>, ghost vals: seq<int>)
    returns (best: Option<Move>, bestScore: Option<int>, ghost bi: int)
    requires MovesWithin(stones, size)
    requires forall p :: p in order <==> Free(stones, size, p)
    requires |ok| == |order| && |vals| == |order|
    requires forall i :: 0 <= i < |order| ==> ok[i] == Safe(stones, size, order[i])
    requires forall i :: 0 <= i < |order| ==> vals[i] == Score(stones, size, order[i])
    ensures FirstBest(ok, vals, |order|, bi, bestScore)
    ensures best.None? <==> bestScore.None?
    ensures best.Some? ==> best.value == WhiteAt(order[bi])
  {
    var whiteStones := Whites(stones);
    var board := BuildBoardFromMoves(stones, size);
    BuiltIsBoardOf(board, stones, size);
    bi := 0;
    best := None;
    bestScore := None;
    for k := 0 to |order|
      invariant FirstBest(ok, vals, k, bi, bestScore)
      invariant best.None? <==> bestScore.None?
      invariant best.Some? ==> best.value == WhiteAt(order[bi])
    {
      var p := order[k];
      var move := WhiteAt(p);
      assert p in order;
      var suicidal := IsSuicidalMove(board, move);
      assert ok[k] == !suicidal;
      if suicidal {
        ScanSkip(ok, vals, k, bi, bestScore);
      } else {
        var score := ScoreAt(whiteStones, size, p);
        assert vals[k] == score;
        if bestScore.None? || score > bestScore.value {
          ScanTake(ok, vals, k, bi, bestScore);
          bestScore := Some(score);
          best := Some(move);
          bi := k;
        } else {
          ScanKeep(ok, vals, k, bi, bestScore);
        }
      }
    }
  }

  /** `getTerritorialMove`: over the free points in shuffled order `order`,
      the first safe point with the highest score; None when there is no
      free point or every free point is suicide. */
  method GetTerritorialMove(stones: seq<Move>, size: nat) returns (r: Option<Move>, ghost order: seq<Point>)
    requires MovesWithin(stones, size)
    ensures forall p :: p in order <==> Free(stones, size, p)
    ensures Distinct(order)
    ensures r.None? <==> NoSafePoint(stones, size)
    ensures r.Some? ==> r.value == WhiteAt(r.value.Pos()) && Safe(stones, size, r.value.Pos())
    ensures r.Some? ==> MostScore(stones, size, r.value.Pos())
    ensures r.Some? ==>
      exists i :: 0 <= i < |order| && order[i] == r.value.Pos() &&
        forall j :: 0 <= j < i && Safe(stones, size, order[j]) ==> Score(stones, size, order[j]) < Score(stones, size, order[i])
  {
    var shuffled := ShuffledFree(stones, size);
    order := shuffled;
    if |shuffled| == 0 {
      r := None;
      return;
    }
    ghost var ok := seq(|order|, i requires 0 <= i < |order| => Safe(stones, size, order[i]));
    ghost var vals := seq(|order|, i requires 0 <= i < |order| => Score(stones, size, order[i]));
    var best, bestScore, bi := TerritorialScan(stones, size, shuffled, ok, vals);
    ScanDone(stones, size, order, ok, vals, bi, bestScore);
    r := best;
    if r.Some? {
      TerritorialBest(stones, size, order, ok, vals, bi, bestScore.value);
    }
  }

  /** The scan's maximum, read back on the scores of the points. */
  lemma TerritorialBest(stones: seq<Move>, size: nat, order: seq<Point>, ok: seq<bool>, vals: seq<int>, bi: int, top: int)
    requires forall p :: p in order <==> Free(stones, size, p)
    requires |ok| == |order| && |vals| == |order|
    requires forall i :: 0 <= i < |order| ==> ok[i] == Safe(stones, size, order[i])
    requires forall i :: 0 <= i < |order| ==> vals[i] == Score(stones, size, order[i])
    requires FirstBest(ok, vals, |order|, bi, Some(top))
    ensures Score(stones, size, order[bi]) == top
    ensures MostScore(stones, size, order[bi])
  {
    forall q | Safe(stones, size, q) ensures Score(stones, size, q) <= top {
      var j :| 0 <= j < |order| && order[j] == q;
    }
  }

  // ----- the random move and the choice between the three -----

  /** `getRandomMove`: the free point at position `draw` (modulo their
      number) of the column-major list, or None when the board is full.  The
      hook's own `getAvailableMoves` builds the same list as the one in
      gameLogic.ts, so `GetAvailableMoves` stands for both. */
  method GetRandomMove(stones: seq<Move>, size: nat, draw: nat) returns (r: Option<Point>)
    ensures r.None? <==> forall p :: !Free(stones, size, p)
    ensures r.Some? ==> Free(stones, size, r.value)
    ensures r.Some? ==> |FreePoints(stones, size)| > 0 && r.value == FreePoints(stones, size)[draw % |FreePoints(stones, size)|]
  {
    var moves := GetAvailableMoves(stones, size);
    if |moves| == 0 {
      assert forall p :: Free(stones, size, p) ==> p in moves;
      return None;
    }
    var p := moves[draw % |moves|];
    assert p in moves && Free(stones, size, p);
    r := Some(p);
  }

  /** Every free point is the random move for some draw: the draw that
      indexes it in the list `GetRandomMove` picks from. */
  lemma GetRandomMoveReaches(stones: seq<Move>, size: nat, p: Point) returns (draw: nat)
    requires Free(stones, size, p)
    ensures |FreePoints(stones, size)| > 0 && FreePoints(stones, size)[draw % |FreePoints(stones, size)|] == p
  {
    FreePointsMembers(stones, size, p);
    var i :| 0 <= i < |FreePoints(stones, size)| && FreePoints(stones, size)[i] == p;
    draw := i;
    SmallMod(draw, |FreePoints(stones, size)|);
  }

  /** A draw below the list's length picks its own index. */
  lemma SmallMod(i: nat, n: nat)
    requires i < n
    ensures i % n == i
  {
  }

  /** Which of the three moves `getBestBotMove` returned. */
  datatype Strategy = Capture | Territory | Random

  /** `getBestBotMove`, as written: the smart move, else the territorial
      move, else the random move in white.  The smart move is None only when
      every free point is suicide, and then so is the territorial move: the
      territorial move is never returned, and the random move is always a
      suicide. */
  method GetBestBotMove(stones: seq<Move>, size: nat, draw: nat) returns (r: Option<Move>, ghost via: Option<Strategy>)
    requires MovesWithin(stones, size)
    ensures r.None? <==> forall p :: !Free(stones, size, p)
    ensures r.Some? ==> r.value == WhiteAt(r.value.Pos()) && Free(stones, size, r.value.Pos())
    ensures via.None? <==> r.None?
    ensures via != Some(Territory)
    ensures via == Some(Capture) <==> !NoSafePoint(stones, size)
    ensures via == Some(Capture) ==> Safe(stones, size, r.value.Pos()) && MostCaptures(stones, size, r.value.Pos())
    ensures via == Some(Random) ==> !Safe(stones, size, r.value.Pos())
  {
    var smart, _, _ := GetSmartMove(stones, size);
    if smart.Some? {
      return smart, Some(Capture);
    }
    var territorial, _ := GetTerritorialMove(stones, size);
    if territorial.Some? {
      return territorial, Some(Territory);
    }
    var fallback := GetRandomMove(stones, size, draw);
    if fallback.Some? {
      return Some(WhiteAt(fallback.value)), Some(Random);
    }
    return None, None;
  }

  /** A free point never loses white a capture: its count is never
      negative. */
  lemma CapturesNonNegative(stones: seq<Move>, size: nat, p: Point)
    requires Free(stones, size, p)
    ensures Captures(stones, size, p) >= 0
  {
    FreeIsEmpty(stones, size, p);
    GainNonNegative(BoardOf(stones, size), p);
  }

  /** On an empty board of side at least 2 the corner is safe and no point
      captures anything, so the as-written choice returns a capturing move
      that captures nothing. */
  lemma EmptyBoardCapturesNothing(size: nat)
    requires size >= 2
    ensures Safe([], size, Point(0, 0))
    ensures forall q :: Safe([], size, q) ==> Captures([], size, q) == 0
  {
    var b := BoardOf([], size);
    forall p | IsCell(b, p) ensures At(b, p) == None {
      BoardOfAt([], size, p);
    }
    BoardOfAt([], size, Point(1, 0));
    MoveWithEmptyNeighborIsNotSuicidal(b, WhiteAt(Point(0, 0)), Point(1, 0));
    CountNone(b, Black);
    forall q | Safe([], size, q) ensures Captures([], size, q) == 0 {
      CapturesNonNegative([], size, q);
    }
  }

  /** `getBestBotMove` with the priority its comment states (capture, then
      expansion, then random): the smart move is taken only when it captures
      at least one stone. */
  method GetBestBotMoveIntended(stones: seq<Move>, size: nat, draw: nat) returns (r: Option<Move>, ghost via: Option<Strategy>)
    requires MovesWithin(stones, size)
    ensures r.None? <==> forall p :: !Free(stones, size, p)
    ensures r.Some? ==> r.value == WhiteAt(r.value.Pos()) && Free(stones, size, r.value.Pos())
    ensures via.None? <==> r.None?
    ensures via == Some(Capture) <==> exists q :: Safe(stones, size, q) && Captures(stones, size, q) > 0
    ensures via == Some(Territory) <==>
      !NoSafePoint(stones, size) && forall q :: Safe(stones, size, q) ==> Captures(stones, size, q) == 0
    ensures via == Some(Capture) ==> Safe(stones, size, r.value.Pos()) && MostCaptures(stones, size, r.value.Pos())
    ensures via == Some(Territory) ==> Safe(stones, size, r.value.Pos()) && MostScore(stones, size, r.value.Pos())
    ensures via == Some(Random) ==> !Safe(stones, size, r.value.Pos())
  {
    var smart, captures, _ := GetSmartMove(stones, size);
    if smart.Some? && captures > 0 {
      return smart, Some(Capture);
    }
    forall q | Safe(stones, size, q) ensures Captures(stones, size, q) == 0 {
      CapturesNonNegative(stones, size, q);
    }
    var territorial, _ := GetTerritorialMove(stones, size);
    if territorial.Some? {
      return territorial, Some(Territory);
    }
    var fallback := GetRandomMove(stones, size, draw);
    if fallback.Some? {
      return Some(WhiteAt(fallback.value)), Some(Random);
    }
    return None, None;
  }
}
