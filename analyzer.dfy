/** The move analyzer (`Analyzer`): tags a move with threats, opportunities
    and patterns from three local tests, and writes a one-line summary.
    Cells are read with `board[y]?.[x]`, so off-board neighbours never
    match. */
module Analyzer {
  import opened Opt
  import opened Text
  import opened GoBoard
  import opened GameLogic
  import opened GoEngine

  /** What `analyze` returns. */
  datatype BoardContext = BoardContext(
    threats: seq<string>,
    opportunities: seq<string>,
    patternsDetected: seq<string>,
    currentSituationSummary: string)

  /** `getNeighbors`: the cells above, below, left and right of (x, y), in
      that order, `Off` where there is no cell. */
  function Neighbors(b: Board, x: int, y: int): seq<Probe> {
    [Look(b, Point(x, y - 1)), Look(b, Point(x, y + 1)), Look(b, Point(x - 1, y)), Look(b, Point(x + 1, y))]
  }

  /** The i-th neighbour probe reads the cell at the i-th orthogonal offset. */
  lemma NeighborAt(b: Board, p: Point, i: int)
    requires 0 <= i < 4
    ensures |Neighbors(b, p.x, p.y)| == 4 && Neighbors(b, p.x, p.y)[i] == Look(b, Shift(p, Dirs4[i]))
  {
    var ns := Neighbors(b, p.x, p.y);
    assert Dirs4 == [Point(0, -1), Point(0, 1), Point(-1, 0), Point(1, 0)];
    if i == 0 {
      assert ns[0] == Look(b, Point(p.x, p.y - 1));
    } else if i == 1 {
      assert ns[1] == Look(b, Point(p.x, p.y + 1));
    } else if i == 2 {
      assert ns[2] == Look(b, Point(p.x - 1, p.y));
    } else {
      assert ns[3] == Look(b, Point(p.x + 1, p.y));
    }
  }

  /** `ns.filter(stone => stone === c).length`. */
  function SameColor(ns: seq<Probe>, c: Color): nat {
    if ns == [] then 0 else SameColor(ns[..|ns| - 1], c) + (if ns[|ns| - 1] == On(Some(c)) then 1 else 0)
  }

  /** Counting same-coloured probes among the first k neighbours counts the
      allied cells among the first k orthogonal shifts. */
  lemma {:induction false} SameColorPrefix(b: Board, p: Point, c: Color, k: int)
    requires 0 <= k <= 4
    ensures SameColor(Neighbors(b, p.x, p.y)[..k], c) == |Matches(b, p, Dirs4[..k], c)|
  {
    if k > 0 {
      var ns := Neighbors(b, p.x, p.y);
      NeighborAt(b, p, k - 1);
      SameColorPrefix(b, p, c, k - 1);
      assert ns[..k][..k - 1] == ns[..k - 1];
      assert Dirs4[k - 1] != Point(0, 0);
      Dirs4Matches(b, p, c);
      MatchesCount(b, p, Dirs4, k - 1, c);
    }
  }

  /** The number of same-coloured neighbour probes is the number of allied
      orthogonal neighbours. */
  lemma SameColorNeighbors(b: Board, p: Point, c: Color)
    ensures SameColor(Neighbors(b, p.x, p.y), c) == |OrthAllies(b, p, c)|
  {
    NeighborAt(b, p, 0);
    SameColorPrefix(b, p, c, 4);
    assert Neighbors(b, p.x, p.y)[..4] == Neighbors(b, p.x, p.y);
    assert Dirs4[..4] == Dirs4;
    Dirs4Matches(b, p, c);
  }

  /** `isIsolatedGroup`: no orthogonal neighbour has the mover's colour. */
  function IsIsolatedGroup(b: Board, m: Move): (r: bool)
    ensures r <==> OrthAllies(b, m.Pos(), m.color) == {}
  {
    var ns := Neighbors(b, m.x, m.y);
    var some := exists i | 0 <= i < |ns| :: ns[i] == On(Some(m.color));
    SameColorNeighbors(b, m.Pos(), m.color);
    SomeIffCount(ns, m.color);
    !some
  }

  /** `some` finds a match exactly when `filter` keeps one. */
  lemma {:induction false} SomeIffCount(ns: seq<Probe>, c: Color)
    ensures (exists i | 0 <= i < |ns| :: ns[i] == On(Some(c))) <==> SameColor(ns, c) > 0
  {
    if ns != [] {
      var init := ns[..|ns| - 1];
      SomeIffCount(init, c);
      if exists i | 0 <= i < |init| :: init[i] == On(Some(c)) {
        var i :| 0 <= i < |init| && init[i] == On(Some(c));
        assert ns[i] == init[i];
      }
      if exists i | 0 <= i < |ns| :: ns[i] == On(Some(c)) {
        var i :| 0 <= i < |ns| && ns[i] == On(Some(c));
        if i < |init| {
          assert init[i] == ns[i];
        }
      }
    }
  }

  /** `isConnectionMove`: at least two orthogonal neighbours have the mover's
      colour. */
  function IsConnectionMove(b: Board, m: Move): (r: bool)
    ensures r <==> |OrthAllies(b, m.Pos(), m.color)| >= 2
  {
    SameColorNeighbors(b, m.Pos(), m.color);
    SameColor(Neighbors(b, m.x, m.y), m.color) >= 2
  }

  function Abs(n: int): nat {
    if n < 0 then -n else n
  }

  /** m lies within two lines of `move` on both axes. */
  predicate Near(m: Move, move: Move) {
    Abs(m.x - move.x) <= 2 && Abs(m.y - move.y) <= 2
  }

  /** `lastMoves.filter(near).length`. */
  function NearCount(lastMoves: seq<Move>, move: Move): nat {
    if lastMoves == [] then 0
    else NearCount(lastMoves[..|lastMoves| - 1], move) + (if Near(lastMoves[|lastMoves| - 1], move) then 1 else 0)
  }

  /** The positions in the history holding a move near `move`. */
  ghost function NearIndices(lastMoves: seq<Move>, move: Move): set<int> {
    set i | 0 <= i < |lastMoves| && Near(lastMoves[i], move)
  }

  /** The filter length is the number of history entries near the move. */
  lemma {:induction false} NearCountIndices(lastMoves: seq<Move>, move: Move)
    ensures NearCount(lastMoves, move) == |NearIndices(lastMoves, move)|
  {
    if lastMoves != [] {
      var n := |lastMoves| - 1;
      var init := lastMoves[..n];
      NearCountIndices(init, move);
      var A, B := NearIndices(lastMoves, move), NearIndices(init, move);
      assert A == B + (if Near(lastMoves[n], move) then {n} else {}) by {
        forall i | i in A ensures i in B || i == n {
          if i < n {
            assert init[i] == lastMoves[i];
          }
        }
        forall i | i in B ensures i in A {
          assert lastMoves[i] == init[i];
        }
      }
      assert n !in B;
    }
  }

  /** `isOverconcentrated`: at least three earlier moves near this one. */
  function IsOverconcentrated(lastMoves: seq<Move>, move: Move): (r: bool)
    ensures r <==> |NearIndices(lastMoves, move)| >= 3
  {
    NearCountIndices(lastMoves, move);
    NearCount(lastMoves, move) >= 3
  }

  /** The threat text: the labelled list, or its "none" sentence. */
  function ThreatPart(threats: seq<string>): string {
    if |threats| > 0 then "Amenazas: " + Join(threats, ", ") else "Sin amenazas detectadas."
  }

  function OpportunityPart(opportunities: seq<string>): string {
    if |opportunities| > 0 then "Oportunidades: " + Join(opportunities, ", ") else "Sin oportunidades claras."
  }

  function PatternPart(patterns: seq<string>): string {
    if |patterns| > 0 then "Patrones: " + Join(patterns, ", ") else ""
  }

  /** `generateSummary`: the three parts separated by single spaces. */
  function GenerateSummary(threats: seq<string>, opportunities: seq<string>, patterns: seq<string>): string {
    ThreatPart(threats) + " " + OpportunityPart(opportunities) + " " + PatternPart(patterns)
  }

  /** The summary opens with the "no threats" sentence exactly when there is
      no threat, and otherwise with the label and the first threat. */
  lemma SummaryOpening(threats: seq<string>, opportunities: seq<string>, patterns: seq<string>)
    ensures var s := GenerateSummary(threats, opportunities, patterns);
            threats == [] <==> |s| >= 24 && s[..24] == "Sin amenazas detectadas."
    ensures var s := GenerateSummary(threats, opportunities, patterns);
            threats != [] ==> |s| >= 10 + |threats[0]| && s[..10 + |threats[0]|] == "Amenazas: " + threats[0]
  {
    var s := GenerateSummary(threats, opportunities, patterns);
    var t := ThreatPart(threats);
    assert s[..|t|] == t;
    if threats != [] {
      JoinStartsWithFirst(threats, ", ");
      var j := Join(threats, ", ");
      assert t[..10 + |threats[0]|] == "Amenazas: " + j[..|threats[0]|];
      assert s[0] == 'A';
    }
  }

  /** With no pattern the summary ends in the separator space. */
  lemma SummaryWithoutPatterns(threats: seq<string>, opportunities: seq<string>)
    ensures var s := GenerateSummary(threats, opportunities, []);
            |s| > 0 && s[|s| - 1] == ' '
  {
    assert PatternPart([]) == "";
  }

  /** With no opportunity the "no opportunities" sentence follows the threat
      part and its space. */
  lemma SummaryWithoutOpportunities(threats: seq<string>, patterns: seq<string>)
    ensures var s := GenerateSummary(threats, [], patterns);
            var k := |ThreatPart(threats)| + 1;
            |s| >= k + 25 && s[k..k + 25] == "Sin oportunidades claras."
  {
    var t, o := ThreatPart(threats), OpportunityPart([]);
    var s := GenerateSummary(threats, [], patterns);
    assert s == (t + " " + o) + " " + PatternPart(patterns);
    assert s[|t| + 1..|t| + 1 + |o|] == o;
  }

  /** `analyze`: isolated ⇒ the threat `group_at_risk` and the pattern
      `isolated_group`; connecting ⇒ the opportunity `connect_group`;
      overconcentrated ⇒ the pattern `overconcentration` after it. */
  method Analyze(board: Board, move: Move, lastMoves: seq<Move>) returns (ctx: BoardContext)
    ensures var isolated := OrthAllies(board, move.Pos(), move.color) == {};
            ctx.threats == (if isolated then ["group_at_risk"] else [])
    ensures ctx.opportunities == (if |OrthAllies(board, move.Pos(), move.color)| >= 2 then ["connect_group"] else [])
    ensures ctx.patternsDetected ==
      (if OrthAllies(board, move.Pos(), move.color) == {} then ["isolated_group"] else []) +
      (if |NearIndices(lastMoves, move)| >= 3 then ["overconcentration"] else [])
    ensures ctx.currentSituationSummary == GenerateSummary(ctx.threats, ctx.opportunities, ctx.patternsDetected)
    ensures ctx.threats == [] || ctx.opportunities == []
  {
    var threats: seq<string> := [];
    var opportunities: seq<string> := [];
    var patternsDetected: seq<string> := [];
    var isolated := IsIsolatedGroup(board, move);
    var connecting := IsConnectionMove(board, move);
    var crowded := IsOverconcentrated(lastMoves, move);
    if isolated {
      threats := threats + ["group_at_risk"];
      patternsDetected := patternsDetected + ["isolated_group"];
    }
    if connecting {
      opportunities := opportunities + ["connect_group"];
    }
    if crowded {
      patternsDetected := patternsDetected + ["overconcentration"];
    }
    var summary := GenerateSummary(threats, opportunities, patternsDetected);
    ctx := BoardContext(threats, opportunities, patternsDetected, summary);
  }
}
