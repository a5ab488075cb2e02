# GO coaching assistant — a verified model of its core

This project models the rule and decision core of a Go-playing and Go-coaching
application. It has a React front end with a rule-based bot, and a NestJS back
end. The back end has two parts: an assistant that tags a move and writes a
coaching message, and a service that drives the KataGo analysis engine over
JSON lines. The model covers these pieces:

- **GoBoard** (`board.dfy`): the shared board theory. A board is a row-major
  `seq<seq<Option<Color>>>`. The module defines orthogonal adjacency, the
  group of a stone (the least set closed under same-colour adjacency), the
  liberties of a set of stones, and stone counts.
- **GameLogic** (`game_logic.dfy`): the front end's capture rules. It covers
  free points, counting, neighbours, the stack-based group search, liberties,
  capture removal on a cloned board, building a board from the move list,
  and the suicide test.
- **GroupAnalyzer** (`group_analyzer.dfy`): the back end's row-major scan with
  a recursive depth-first search that lists every group with its liberty
  count, and the atari filter over that list.
- **GoEngine** (`go_engine.dfy`): the assistant's heuristics. These are the
  territory estimate, the risk level, the 5×5 overconcentration window, the
  8-neighbour connection test, the eye test, the liberty count of a group,
  the capture threat, and the evaluation that combines them.
- **Analyzer** (`analyzer.dfy`): the move tags (threats, opportunities,
  patterns) and the one-line summary.
- **Intervention** (`intervention_engine.dfy`): the stateful coaching policy.
  A counter of consecutive critical moves chooses a drill, a corrective
  analogy or a preventive question.
- **ResponseTemplates** (`response_templates.dfy`): the message tables and the
  priority chain that picks a Socratic question, an analogy or a drill.
- **BotPlayer** (`bot_player.dfy`): the white bot. It takes the capturing
  move first, then the territorial move, then a random free point.
- **Coords** (`coords.dfy`): KGS vertex names (`"D4"`). The columns run A–T
  without I, and rows are counted from the bottom.
- **Katago** (`katago.dfy`) and **KatagoService** (`katago_service.dfy`):
  - the engine request and its id;
  - the candidate sort by `scoreMean` (stable and descending);
  - the probes for candidates and ownership, and the top-three mapping;
  - a `Service` class holding the pending-request map, the id counter and
    the single game session, with `send`, `onLine`, `stop`,
    `resetSession` and `playGlobal`.
- **RuntimeConfig** (`runtime_config.dfy`): the hardware and preset tables
  and their mix into the engine parameters.
- **Text** and **Opt** (`text.dfy`, `opt.dfy`): the JavaScript string
  operations the core relies on (`trim`, `toUpperCase`, `join`, `indexOf`,
  `parseInt`, number rendering) and an `Option` type.

How the model handles outside effects:

- **Randomness.** `Math.random` is a parameter: a `draw` number, or an
  arbitrary permutation for `shuffle`.
- **Engine I/O.** The engine process, its pipes and `JSON.parse` are outside
  the model. A received line comes with its parse result. The outcome of a
  request is a `Reply`: the engine's `Answer`, or a `Failed` rejection from
  the timer or the write.
- **Imperative code.** Loops, cloned boards and pushed arrays become methods
  with loop invariants, proved against specification functions. Objects with
  mutable fields become classes. These are the intervention engine's counter
  and the KataGo service's pending map, counter and session.

Two facts about the code:

- `pickBestCandidate` reads `(rootInfo ?? root ?? {}).moveInfos ?? moveInfos`.
  So when `rootInfo` exists, `root.moveInfos` is never consulted
  (`Katago.MoveInfosProbes`).
- `engine.controller.ts` calls `playEvalV2` and `applyConfigAndRestart`,
  which `KatagoService` does not define; neither is modelled.

Four behaviours of the code worth knowing:

- `estimateTerritory` starts its white counter at 1.
- A move made only of white space passes the `!move` check. It is
  normalized to `""` and committed to the session.
- The bot's territorial strategy can never be chosen (see Findings).
- `playGlobal` tests the best candidate by truthiness. A candidate `0`, `""`,
  `false` or `null` makes the bot pass. A candidate whose `move` is not a
  string makes `toUpperCase` throw once the user's move is committed.

## Model

| member | source | states |
|---|---|---|
| GoBoard.Opponent | frontend/src/domains/game-go/lib/gameLogic.ts:98 | the opponent colour differs from the mover's |
| GoBoard.Cells | backend/src/assistant/domain/engine/group-analyzer.ts:14-15 | the set of points the row-major scan visits is exactly the set of board cells |
| GoBoard.CompContains | frontend/src/domains/game-go/lib/gameLogic.ts:41-66 | a stone belongs to its own group |
| GoBoard.CompLeast | frontend/src/domains/game-go/lib/gameLogic.ts:41-66 | the group is contained in every same-colour-closed set holding the stone |
| GoBoard.CompColor | frontend/src/domains/game-go/lib/gameLogic.ts:42-59 | every stone of a group has the start stone's colour |
| GoBoard.CompClosed | frontend/src/domains/game-go/lib/gameLogic.ts:57-61 | a group is closed under same-colour orthogonal adjacency |
| GoBoard.CompSymmetric | frontend/src/domains/game-go/lib/gameLogic.ts:41-66 | any stone of a group has that same group |
| GoBoard.CompExact | frontend/src/domains/game-go/lib/gameLogic.ts:41-66 | a closed subset of a group that holds the start stone is the whole group |
| GoBoard.CompDisjointOrEqual | backend/src/assistant/domain/engine/group-analyzer.ts:10-57 | two groups are equal or disjoint |
| GoBoard.LibertySetUnion | backend/src/assistant/domain/engine/group-analyzer.ts:31-41 | the liberties of a union of stones are the union of their liberties |
| GoBoard.CountBound | frontend/src/domains/game-go/lib/gameLogic.ts:23-38 | black plus white stones never exceed the number of cells |
| GoBoard.CountNoGain | frontend/src/domains/game-go/hooks/useBotPlayer.ts:72-75 | a board where no cell newly holds colour c has no more cells of colour c |
| GoBoard.CountNone | frontend/src/domains/game-go/hooks/useBotPlayer.ts:159-167 | a board with no cell of colour c counts 0 of c |
| GameLogic.IsOccupied | frontend/src/domains/game-go/lib/gameLogic.ts:3-9 | true iff some stone of the list stands on (x, y) |
| GameLogic.GetAvailableMoves | frontend/src/domains/game-go/lib/gameLogic.ts:11-21 | the result holds exactly the unoccupied points of the size×size board, each once, in x-major then y order, and is the column-by-column list `FreePoints` |
| GameLogic.FreePointsSpec | frontend/src/domains/game-go/lib/gameLogic.ts:11-21 | the column-by-column free-point list holds exactly the unoccupied points, in strict x-major order, each once |
| GameLogic.CountStones | frontend/src/domains/game-go/lib/gameLogic.ts:23-38 | black and white are the numbers of black and white cells, and their sum is at most the number of cells |
| GameLogic.KeptSpec | frontend/src/domains/game-go/lib/gameLogic.ts:74-80 | filtering shifted points by the bounds test keeps exactly the in-bounds shifts, without duplicates |
| GameLogic.DeltasOrth | frontend/src/domains/game-go/lib/gameLogic.ts:69-71 | the four deltas reach exactly the orthogonal neighbours |
| GameLogic.NeighborListSpec | frontend/src/domains/game-go/lib/gameLogic.ts:68-83 | at most 4 neighbours without duplicates; on a rectangular board exactly the on-board orthogonal neighbours |
| GameLogic.GetNeighbors | frontend/src/domains/game-go/lib/gameLogic.ts:68-83 | the loop returns the kept shifts: at most 4 points, distinct; on a rectangular board each one is an on-board orthogonal neighbour and every such neighbour is present |
| GameLogic.PushSameColor | frontend/src/domains/game-go/lib/gameLogic.ts:57-62 | the stack gains exactly the unvisited same-colour neighbours of the popped point |
| GameLogic.GetGroup | frontend/src/domains/game-go/lib/gameLogic.ts:41-66 | an empty (or off-row) point gives `[]`; otherwise the list starts with the start point, has no duplicates and holds exactly the start stone's connected group |
| GameLogic.HasLiberties | frontend/src/domains/game-go/lib/gameLogic.ts:84-94 | true iff some point of the group has an on-board empty orthogonal neighbour |
| GameLogic.CaptureResult | frontend/src/domains/game-go/lib/gameLogic.ts:96-115 | the capture result has the board's shape |
| GameLogic.CaptureResultCells | frontend/src/domains/game-go/lib/gameLogic.ts:96-115 | only opponent stones can change, and only to empty; a stone is cleared iff it lies in a liberty-less opponent group adjacent to the move |
| GameLogic.ClearGroup | frontend/src/domains/game-go/lib/gameLogic.ts:107-109 | the listed cells become empty and every other cell keeps its content |
| GameLogic.CaptureAt | frontend/src/domains/game-go/lib/gameLogic.ts:103-111 | handling one neighbour clears only captured stones, and clears that neighbour's whole group when it is a liberty-less opponent group |
| GameLogic.RemoveCapturedStones | frontend/src/domains/game-go/lib/gameLogic.ts:96-115 | the cloned board, cleared group by group, equals the capture result: exactly the liberty-less opponent groups next to the move are emptied |
| GameLogic.CaptureDone | frontend/src/domains/game-go/lib/gameLogic.ts:102-114 | once every neighbour is handled, the cleared board is the capture result |
| GameLogic.LastColorAtSpec | frontend/src/domains/game-go/lib/gameLogic.ts:119-121 | a point is empty iff no move targets it; otherwise it holds the colour of the last move that targets it |
| GameLogic.BuildBoardFromMoves | frontend/src/domains/game-go/lib/gameLogic.ts:116-124 | a size×size board whose every cell is the colour of the last move at that point, or empty |
| GameLogic.Place | frontend/src/domains/game-go/lib/gameLogic.ts:130-131 | placing a stone on a clone keeps the board's shape |
| GameLogic.AfterMove | frontend/src/domains/game-go/lib/gameLogic.ts:130-134 | placing then capturing keeps the board's shape |
| GameLogic.AfterMoveKeepsStone | frontend/src/domains/game-go/lib/gameLogic.ts:130-137 | the placed stone survives its own capture step |
| GameLogic.IsSuicidalMove | frontend/src/domains/game-go/lib/gameLogic.ts:126-143 | true iff, after placing the stone and removing captures, the placed stone's group has no liberty |
| GameLogic.CapturingMoveIsNotSuicidal | frontend/src/domains/game-go/lib/gameLogic.ts:126-143 | a move that captures something is never suicidal |
| GameLogic.MoveWithEmptyNeighborIsNotSuicidal | frontend/src/domains/game-go/lib/gameLogic.ts:126-143 | a move with an empty neighbour is never suicidal |
| GroupAnalyzer.UnionOfGroupsClosed | backend/src/assistant/domain/engine/group-analyzer.ts:17-25 | a union of whole groups leaves no same-colour neighbour outside it |
| GroupAnalyzer.DfsNeighbors | backend/src/assistant/domain/engine/group-analyzer.ts:28-33 | the four neighbour candidates are exactly the orthogonal neighbours |
| GroupAnalyzer.Dfs | backend/src/assistant/domain/engine/group-analyzer.ts:22-45 | the recursive search visits only the start group, appends the newly visited stones each once (the entry point first), and adds their liberties |
| GroupAnalyzer.DfsStep | backend/src/assistant/domain/engine/group-analyzer.ts:35-44 | one neighbour: off-board is skipped, an empty cell is recorded as a liberty, and a same-colour stone is searched |
| GroupAnalyzer.NewGroupIsComp | backend/src/assistant/domain/engine/group-analyzer.ts:47-53 | the stones one search adds are exactly the new stone's group |
| GroupAnalyzer.StartIsFirst | backend/src/assistant/domain/engine/group-analyzer.ts:14-17 | the scan meets a group first at its row-major least stone |
| GroupAnalyzer.SearchFindsGroup | backend/src/assistant/domain/engine/group-analyzer.ts:14-53 | one search yields a valid record of a whole group, started at its first stone |
| GroupAnalyzer.CollectGroup | backend/src/assistant/domain/engine/group-analyzer.ts:19-53 | a search from an unvisited stone returns a valid record for its group, and the visited set grows by exactly its stones |
| GroupAnalyzer.ScanCell | backend/src/assistant/domain/engine/group-analyzer.ts:15-54 | handling one cell keeps the scan invariant |
| GroupAnalyzer.ScanRow | backend/src/assistant/domain/engine/group-analyzer.ts:14-55 | scanning one row keeps the scan invariant |
| GroupAnalyzer.AnalyzeGroups | backend/src/assistant/domain/engine/group-analyzer.ts:10-57 | every record is a group with its exact distinct-liberty count, in row-major order of first stones; every stone is in exactly one record, and empty cells are in none |
| GroupAnalyzer.ScanDone | backend/src/assistant/domain/engine/group-analyzer.ts:14-56 | after the whole scan every stone is covered and the records are disjoint |
| GroupAnalyzer.GroupsDisjoint | backend/src/assistant/domain/engine/group-analyzer.ts:10-57 | records of distinct groups share no stone |
| GroupAnalyzer.AtMost | backend/src/assistant/domain/engine/group-analyzer.ts:61 | the filter keeps exactly the records with at most `threshold` liberties |
| GroupAnalyzer.AtMostKeepsOrder | backend/src/assistant/domain/engine/group-analyzer.ts:61 | the filter keeps the records in row-major order of their first stones |
| GroupAnalyzer.RecordOfStone | backend/src/assistant/domain/engine/group-analyzer.ts:49-53 | a record's liberty count is that of the group of any of its stones |
| GroupAnalyzer.AtMostKeeps | backend/src/assistant/domain/engine/group-analyzer.ts:61 | a record with few enough liberties survives the filter |
| GroupAnalyzer.GetGroupsInAtari | backend/src/assistant/domain/engine/group-analyzer.ts:59-62 | every kept record is a valid group with at most `threshold` liberties that starts at its first stone; every stone whose group has that few liberties is in a kept record; the records are pairwise disjoint, so no group appears twice; and they stay in row-major order of first stones |
| GoEngine.MatchesCount | backend/src/assistant/domain/engine/go-engine.ts:64-72 | each distinct direction adds one to the tally exactly when its cell holds the colour |
| GoEngine.Dirs4Matches | backend/src/assistant/domain/engine/go-engine.ts:99-101 | the four directions hit exactly the orthogonal allies |
| GoEngine.Dirs8Matches | backend/src/assistant/domain/engine/go-engine.ts:81-84 | the eight directions hit exactly the allies in the surrounding 3×3 box |
| GoEngine.WindowMatches | backend/src/assistant/domain/engine/go-engine.ts:64-67 | the 5×5 window minus its centre hits exactly the allies within distance 2 on both axes |
| GoEngine.EstimateTerritory | backend/src/assistant/domain/engine/go-engine.ts:37-50 | black is the number of black stones, and white is the number of white stones plus 1 |
| GoEngine.TerritoryBound | backend/src/assistant/domain/engine/go-engine.ts:37-50 | the two estimates together are at most the number of cells plus 1 |
| GoEngine.RiskMonotone | backend/src/assistant/domain/engine/go-engine.ts:52-56 | more liberties never mean a higher risk |
| GoEngine.DetectOverconcentration | backend/src/assistant/domain/engine/go-engine.ts:58-75 | true iff at least 6 on-board points of the 5×5 window, centre excluded, hold the mover's colour |
| GoEngine.DetectConnectionMove | backend/src/assistant/domain/engine/go-engine.ts:76-96 | true iff at least 2 of the 8 surrounding points hold the mover's colour |
| GoEngine.CreatesPotentialEye | backend/src/assistant/domain/engine/go-engine.ts:97-113 | true iff at least 3 orthogonal neighbours hold the mover's colour |
| GoEngine.VisitAround | backend/src/assistant/domain/engine/go-engine.ts:150-162 | the popped stone adds its empty neighbours to the liberties and its same-colour neighbours to the stack |
| GoEngine.CountLibertiesOfGroup | backend/src/assistant/domain/engine/go-engine.ts:137-166 | 0 on an empty or off-board point; otherwise the number of distinct on-board empty neighbours of the whole group |
| GoEngine.ThreatensCapture | backend/src/assistant/domain/engine/go-engine.ts:114-134 | true iff some orthogonal neighbour is an enemy stone whose group has exactly one liberty |
| GoEngine.FindGroupOf | backend/src/assistant/domain/engine/go-engine.ts:12-14 | `find` returns a listed record containing the point, and nothing iff no record contains it |
| GoEngine.MoveLiberties | backend/src/assistant/domain/engine/go-engine.ts:12-15 | over a complete list of valid records, the found record exists iff the point is a stone, and carries its group's liberty count |
| GoEngine.LibertiesOfMove | backend/src/assistant/domain/engine/go-engine.ts:10-15 | the liberties of the move's group, or 0 when the point is empty |
| GoEngine.EvaluateBoard | backend/src/assistant/domain/engine/go-engine.ts:8-34 | liberties of the move's group (or 0); atari iff exactly 1; the risk level of that count; the territory estimate; all groups with at most 1 liberty, each once and in row-major order of first stones; and the three local tests and the capture threat |
| Analyzer.NeighborAt | backend/src/assistant/domain/analyzer/analyzer.ts:60-68 | the i-th neighbour probe reads the i-th orthogonal cell |
| Analyzer.SameColorNeighbors | backend/src/assistant/domain/analyzer/analyzer.ts:47-48 | the same-colour filter counts exactly the orthogonal allies |
| Analyzer.SomeIffCount | backend/src/assistant/domain/analyzer/analyzer.ts:42-48 | `some` finds a match iff `filter` keeps at least one |
| Analyzer.IsIsolatedGroup | backend/src/assistant/domain/analyzer/analyzer.ts:38-43 | true iff no orthogonal neighbour (off-board ignored) has the mover's colour |
| Analyzer.IsConnectionMove | backend/src/assistant/domain/analyzer/analyzer.ts:45-50 | true iff at least 2 orthogonal neighbours have the mover's colour |
| Analyzer.NearCountIndices | backend/src/assistant/domain/analyzer/analyzer.ts:54-56 | the filter length is the number of history entries within 2 on both axes |
| Analyzer.IsOverconcentrated | backend/src/assistant/domain/analyzer/analyzer.ts:52-58 | true iff at least 3 earlier moves lie within 2 on both axes |
| Analyzer.SummaryOpening | backend/src/assistant/domain/analyzer/analyzer.ts:70-79 | the summary opens with "Sin amenazas detectadas." iff there is no threat, and otherwise with "Amenazas: " and the first threat |
| Analyzer.SummaryWithoutOpportunities | backend/src/assistant/domain/analyzer/analyzer.ts:76-78 | with no opportunity, "Sin oportunidades claras." follows the threat part and a space |
| Analyzer.SummaryWithoutPatterns | backend/src/assistant/domain/analyzer/analyzer.ts:77-78 | with no pattern the summary ends in the separating space |
| Analyzer.Analyze | backend/src/assistant/domain/analyzer/analyzer.ts:6-36 | isolated gives the threat `group_at_risk` and the pattern `isolated_group`; two or more allies give `connect_group`; overconcentration appends its pattern; the summary is built from the lists; threats and opportunities are never both non-empty |
| Intervention.Level.Number | backend/src/assistant/application/intervention-engine.ts:6-10 | the enum numbers lie in 1..3 |
| Intervention.CriticalNeverPreventive | backend/src/assistant/application/intervention-engine.ts:39-67 | a non-critical move never gets a drill, and a critical one never gets a preventive question |
| Intervention.AfterMovesRun | backend/src/assistant/application/intervention-engine.ts:39-43 | after a run of moves the counter is its trailing run of critical moves, plus the start value when all were critical |
| Intervention.DrillAfterThreeCritical | backend/src/assistant/application/intervention-engine.ts:39-51 | from a fresh engine a drill comes exactly when the last three moves were all critical |
| Intervention.TrailingRunAtLeast3 | backend/src/assistant/application/intervention-engine.ts:45 | a trailing run of at least 3 means the last three moves were critical |
| Intervention.InterventionEngine.constructor | backend/src/assistant/application/intervention-engine.ts:25 | the counter starts at 0 |
| Intervention.InterventionEngine.Evaluate | backend/src/assistant/application/intervention-engine.ts:27-70 | the counter is updated first; the level follows from it and the three signals; the message and reason are those of the level |
| ResponseTemplates.GetRandom | backend/src/assistant/domain/templates/response-templates.ts:99-101 | the draw picks an element of the non-empty list |
| ResponseTemplates.GetRandomReaches | backend/src/assistant/domain/templates/response-templates.ts:99-101 | every element of the list can be drawn |
| ResponseTemplates.Lookup | backend/src/assistant/domain/templates/response-templates.ts:3-46 | a table key, when present, holds a non-empty list |
| ResponseTemplates.FirstMatch | backend/src/assistant/domain/templates/response-templates.ts:125-129 | the list of the first key that has one, and none iff no key has one |
| ResponseTemplates.LevelQuestions | backend/src/assistant/domain/templates/response-templates.ts:154-158 | the level list, or the single fallback question; never empty |
| ResponseTemplates.SocraticFirstApplicable | backend/src/assistant/domain/templates/response-templates.ts:112-158 | the chosen bucket applies, and no applicable bucket comes earlier in the order atari, high risk, few liberties, threat, overconcentration, opportunity, pattern, connection, eye, capture threat, level |
| ResponseTemplates.BucketList | backend/src/assistant/domain/templates/response-templates.ts:112-158 | every bucket draws from a non-empty list |
| ResponseTemplates.GenerateSocraticQuestion | backend/src/assistant/domain/templates/response-templates.ts:103-159 | the question comes from the list of the selected bucket |
| ResponseTemplates.AtariWins | backend/src/assistant/domain/templates/response-templates.ts:112-114 | in atari the question is an atari question, whatever else holds |
| ResponseTemplates.ThreatQuestion | backend/src/assistant/domain/templates/response-templates.ts:125-129 | in the threat bucket the question comes from the first threat that has a list |
| ResponseTemplates.EvaluationBuckets | backend/src/assistant/domain/templates/response-templates.ts:112-122 | for an evaluation built by `evaluateBoard`: the atari bucket iff 1 liberty, high risk iff 0, few liberties iff 2 |
| ResponseTemplates.AnalogyList | backend/src/assistant/domain/templates/response-templates.ts:161-171 | the analogy list is never empty |
| ResponseTemplates.GenerateAnalogy | backend/src/assistant/domain/templates/response-templates.ts:161-171 | the analogy comes from the selected list |
| ResponseTemplates.AnalogyKinds | backend/src/assistant/domain/templates/response-templates.ts:161-171 | an overconcentration analogy when flagged; the default list when nothing applies; always one of the three lists |
| ResponseTemplates.GenerateDrillExercise | backend/src/assistant/domain/templates/response-templates.ts:173-175 | always one of the drills |
| BotPlayer.BoardOf | frontend/src/domains/game-go/hooks/useBotPlayer.ts:60 | the built board is size×size, and its cells are exactly the in-range points |
| BotPlayer.BoardOfAt | frontend/src/domains/game-go/hooks/useBotPlayer.ts:60 | each cell holds the colour of the last stone on it |
| BotPlayer.FreeIsEmpty | frontend/src/domains/game-go/hooks/useBotPlayer.ts:22-35 | a free point is an empty cell of the built board |
| BotPlayer.Shuffle | frontend/src/domains/game-go/hooks/useBotPlayer.ts:12-19 | the in-place swaps on a copy return a permutation of the input |
| BotPlayer.PermutationKeeps | frontend/src/domains/game-go/hooks/useBotPlayer.ts:12-19 | a permutation of a duplicate-free list has the same elements and no duplicates |
| BotPlayer.ShuffledFree | frontend/src/domains/game-go/hooks/useBotPlayer.ts:59 | the shuffled list holds exactly the free points, each once |
| BotPlayer.ScanDone | frontend/src/domains/game-go/hooks/useBotPlayer.ts:65-83 | after the loop there is no best move iff no free point is non-suicidal, and a best move is non-suicidal |
| BotPlayer.GainNonNegative | frontend/src/domains/game-go/hooks/useBotPlayer.ts:69-75 | placing white on an empty point never increases the black count |
| BotPlayer.CountColor | frontend/src/domains/game-go/hooks/useBotPlayer.ts:159-167 | the number of cells holding the colour |
| BotPlayer.CapturesAt | frontend/src/domains/game-go/hooks/useBotPlayer.ts:69-75 | the black stones removed by playing white at the point, never negative |
| BotPlayer.GetSmartMove | frontend/src/domains/game-go/hooks/useBotPlayer.ts:57-86 | null iff no free point is non-suicidal; otherwise a white, non-suicidal move on a free point with the most captures, the first such in the shuffled order |
| BotPlayer.SmartBest | frontend/src/domains/game-go/hooks/useBotPlayer.ts:77-80 | the kept point has the maximum capture count, and every earlier safe point captures less |
| BotPlayer.WhitesSpec | frontend/src/domains/game-go/hooks/useBotPlayer.ts:94 | the filter keeps exactly the white stones |
| BotPlayer.StoneScoreCounts | frontend/src/domains/game-go/hooks/useBotPlayer.ts:106-112 | the stone score is 3 per white stone at distance 1 plus 1 per white stone at distance 2 |
| BotPlayer.EdgeBonusPlaces | frontend/src/domains/game-go/hooks/useBotPlayer.ts:114-121 | +2 exactly on the four corners, 0 exactly in the interior |
| BotPlayer.ScoreAt | frontend/src/domains/game-go/hooks/useBotPlayer.ts:104-121 | the loop computes the stone score plus the edge bonus |
| BotPlayer.TerritorialScan | frontend/src/domains/game-go/hooks/useBotPlayer.ts:100-127 | the loop keeps the first safe point of maximum score |
| BotPlayer.GetTerritorialMove | frontend/src/domains/game-go/hooks/useBotPlayer.ts:89-132 | null iff no free point is non-suicidal; otherwise a white, non-suicidal move of maximum score, the first such in the shuffled order |
| BotPlayer.TerritorialBest | frontend/src/domains/game-go/hooks/useBotPlayer.ts:123-126 | the kept point has the maximum score among safe points |
| BotPlayer.GetRandomMove | frontend/src/domains/game-go/hooks/useBotPlayer.ts:37-44 | null iff there is no free point; otherwise a free point, the entry at `draw mod n` of the n-entry free-point list |
| BotPlayer.GetRandomMoveReaches | frontend/src/domains/game-go/hooks/useBotPlayer.ts:37-44 | every free point is the random move for some draw |
| BotPlayer.GetBestBotMove | frontend/src/domains/game-go/hooks/useBotPlayer.ts:134-147 | null iff no free point; a white move on a free point; the capture strategy iff some safe point exists; the territorial strategy never; the random fallback only on a suicidal point |
| BotPlayer.CapturesNonNegative | frontend/src/domains/game-go/hooks/useBotPlayer.ts:73-75 | capture counts are never negative |
| BotPlayer.EmptyBoardCapturesNothing | frontend/src/domains/game-go/hooks/useBotPlayer.ts:57-86 | on an empty board a safe point exists and every safe point captures 0, yet `getSmartMove` returns a move |
| BotPlayer.GetBestBotMoveIntended | frontend/src/domains/game-go/hooks/useBotPlayer.ts:134-147 | captures first only when some move captures; otherwise the territorial maximum among safe points; random only when no point is safe |
| Coords.LettersIncreasing | frontend/src/lib/utils/coords.ts:1 | the column letters are strictly increasing, so none repeats |
| Coords.LettersSkipI | frontend/src/lib/utils/coords.ts:1 | the alphabet has no I |
| Coords.IndexOfLetter | frontend/src/lib/utils/coords.ts:8 | `indexOf` of the x-th letter is x |
| Coords.CoordToXY | frontend/src/lib/utils/coords.ts:7-11 | x is the column letter's index, or -1 for an empty name or unknown letter; y is 19 minus the parsed row, or NaN |
| Coords.RowOfNumeral | frontend/src/lib/utils/coords.ts:9 | the printed number k gives row 19 - k |
| Coords.RoundTrip | frontend/src/lib/utils/coords.ts:7-21 | `coordToXY(xyToCoord(x, y))` gives back (x, y) for every column x |
| Coords.RowNumber | frontend/src/lib/utils/coords.ts:19 | the row number is 19 - y, within 1..19 |
| Coords.NoLetterI | frontend/src/lib/utils/coords.ts:17-20 | a vertex name never contains I |
| Coords.NameRoundTrip | frontend/src/lib/utils/coords.ts:7-21 | every well-formed name survives parsing and printing |
| Coords.ExampleD4 | frontend/src/lib/utils/coords.ts:13-16 | the documented example: (3, 15) is "D4" and back |
| Coords.ExampleInvalid | frontend/src/lib/utils/coords.ts:7-11 | an empty name, the letter I and a missing number give -1 or NaN |
| Text.TrimSpec | backend/src/engine/katago/katago.service.ts:50 | `trim` removes exactly the leading and trailing white space |
| Text.TrimIdempotent | backend/src/engine/katago/katago.service.ts:50 | trimming twice is trimming once |
| Text.ToUpperIdempotent | backend/src/engine/katago/katago.service.ts:50 | upper-casing twice is upper-casing once, and it keeps white space where it was |
| Text.JoinStartsWithFirst | backend/src/assistant/domain/analyzer/analyzer.ts:75 | a join begins with its first element |
| Text.IndexOf | frontend/src/lib/utils/coords.ts:8 | the first index of the character, or -1 iff absent |
| Text.NatToStringValue | backend/src/engine/katago/katago.service.ts:112 | the printed digits denote the number |
| Text.NatToStringInjective | backend/src/engine/katago/katago.service.ts:112 | distinct numbers print differently |
| Text.LeadingDigitsSpec | frontend/src/lib/utils/coords.ts:9 | `parseInt` reads the longest run of digits |
| Text.ParseIntToString | frontend/src/lib/utils/coords.ts:9 | parsing a printed integer gives it back |
| Katago.NormalizeKGSIdempotent | backend/src/engine/katago/katago.service.ts:48-51 | normalizing yields trimmed text with no lower-case letter, and normalizing twice is normalizing once |
| Katago.Side.Other | backend/src/engine/katago/katago.service.ts:196 | the colour flip changes the colour |
| Katago.AnalysisRequest | backend/src/engine/katago/katago.service.ts:164-178 | the request has exactly the nine documented keys and no id; `analyzeTurns` is `[moves.length]`; the moves are the history as `[colour, vertex]` pairs |
| Katago.IdOfInjective | backend/src/engine/katago/katago.service.ts:112 | ids `t<n>` are equal iff their numbers are |
| Katago.WithId | backend/src/engine/katago/katago.service.ts:113 | `{ id, ...payload }`: the payload's keys plus id, the payload's own fields winning |
| Katago.InsertPerm | backend/src/engine/katago/katago.service.ts:262 | an insertion adds exactly the inserted item |
| Katago.InsertSorted | backend/src/engine/katago/katago.service.ts:262 | inserting into a descending list keeps it descending |
| Katago.InsertStable | backend/src/engine/katago/katago.service.ts:262 | an insertion places the new item after the equal-key items |
| Katago.WithKeyAppend | backend/src/engine/katago/katago.service.ts:262 | the items of one key in a concatenation are those of each part in turn |
| Katago.SortByScoreSpec | backend/src/engine/katago/katago.service.ts:262 | the sort is a permutation, descending by `scoreMean ?? 0` |
| Katago.SortByScoreStable | backend/src/engine/katago/katago.service.ts:262 | the sort is stable: items with equal keys keep their order |
| Katago.MoveInfosProbes | backend/src/engine/katago/katago.service.ts:257-258 | the candidates come from `rootInfo.moveInfos`, or `root.moveInfos` when `rootInfo` is missing, else from `res.moveInfos` or `[]` |
| Katago.PickBestCandidate | backend/src/engine/katago/katago.service.ts:256-264 | no best iff the sorted list is empty; the best is its first item |
| Katago.PickBestCandidateSpec | backend/src/engine/katago/katago.service.ts:256-264 | `{null, []}` iff the list is missing, not an array or empty; otherwise a stable descending permutation whose head has the largest key |
| Katago.FirstArraySpec | backend/src/engine/katago/katago.service.ts:274-278 | the first probe that yields an array gives the result, and `[]` when none does |
| Katago.PickOwnershipSpec | backend/src/engine/katago/katago.service.ts:266-279 | the first array among `rootInfo.ownership`, `root.ownership`, `ownership` and `turns[0].ownership`, else `[]` |
| Katago.TopCandidates | backend/src/engine/katago/katago.service.ts:227 | exactly min(3, number of sorted candidates) entries |
| Katago.TopCandidatesSpec | backend/src/engine/katago/katago.service.ts:227-233 | candidate i has order i + 1 and an upper-case move; winrate is the candidate's number or 0.5, scoreMean falls back to 0, and prior is 0 when both prior and policy are missing |
| Katago.PvOf | backend/src/engine/katago/katago.service.ts:236-238 | as many moves as the best candidate's `pv` array, or none |
| KatagoService.Service.constructor | backend/src/engine/katago/katago.service.ts:58-66 | no process, no pending request, counter 0, empty history with black to move |
| KatagoService.Service.EnsureRunning | backend/src/engine/katago/katago.service.ts:70-89 | afterwards the process runs, and nothing else changes |
| KatagoService.Service.Send | backend/src/engine/katago/katago.service.ts:108-133 | the counter grows by one; the id `t<counter>` is new among the pending ones; the full message is written and waits under it |
| KatagoService.Service.Settle | backend/src/engine/katago/katago.service.ts:115-131 | a timeout or a write error removes exactly that entry, and nothing else changes |
| KatagoService.Service.OnLine | backend/src/engine/katago/katago.service.ts:91-106 | a request is resolved iff the line is non-blank, parses and carries a pending id, and it is then removed; any other line leaves the map as it was |
| KatagoService.Service.Stop | backend/src/engine/katago/katago.service.ts:135-145 | the process is gone and the pending map is empty |
| KatagoService.Service.ResetSession | backend/src/engine/katago/katago.service.ts:159-161 | an empty history with black to move |
| KatagoService.Service.Push | backend/src/engine/katago/katago.service.ts:194-196 | the move is appended in the colour to move, and the colour flips |
| KatagoService.Service.AnalyzePosition | backend/src/engine/katago/katago.service.ts:164-178 | one request for the current history is sent under the next id and logged; once the reply comes its entry is gone, so the pending map is as before; the history is untouched |
| KatagoService.Service.UserTurn | backend/src/engine/katago/katago.service.ts:193-199 | the user move is committed in the colour to move, then the position is analysed |
| KatagoService.Service.BotTurn | backend/src/engine/katago/katago.service.ts:200-251 | a falsy best candidate gives PASS with nothing committed; a move that is not a string throws with nothing committed; otherwise the upper-cased move is committed in the other colour and analysed again |
| KatagoService.ChooseBotMoveSpec | backend/src/engine/katago/katago.service.ts:200-216 | the bot passes iff the best candidate is falsy, throws iff its move is neither null, undefined nor a string, and otherwise commits an upper-case move, PASS when the candidate has none |
| KatagoService.ZeroCandidatePasses | backend/src/engine/katago/katago.service.ts:200-202 | a lone candidate `0` in `moveInfos` is falsy, so the bot passes |
| KatagoService.Service.PlayMove | backend/src/engine/katago/katago.service.ts:190-251 | the user move is committed, then either only it (PASS, a non-string bot move or a failed analysis) or exactly user then bot in alternating colours; earlier history is never altered |
| KatagoService.Service.PlayGlobal | backend/src/engine/katago/katago.service.ts:187-251 | an empty move throws before anything changes; otherwise the normalized move is played as above |
| KatagoService.ColourAlternates | backend/src/engine/katago/katago.service.ts:194-220 | the service invariant, which the constructor establishes and every method keeps, includes that black is to move iff the history has even length |
| RuntimeConfig.Hardware | backend/src/engine/katago/runtime-config.ts:38-75 | one analysis thread in every profile, with positive search threads, batch size and lag buffer |
| RuntimeConfig.Preset | backend/src/engine/katago/runtime-config.ts:77-85 | PV length within 5..7 and root noise within (0, 0.05] |
| RuntimeConfig.ResolveSeparates | backend/src/engine/katago/runtime-config.ts:87-92 | changing the hardware never changes the search budget, and changing the preset never changes the performance fields |
| RuntimeConfig.PresetsStrengthen | backend/src/engine/katago/runtime-config.ts:81-84 | stronger presets get strictly more visits (60 < 120 < 400 < 1000) and strictly less root noise |
| RuntimeConfig.HardwareScales | backend/src/engine/katago/runtime-config.ts:51-74 | stronger hardware gets more search threads, larger batches and a smaller lag buffer |

## Left out

- Engine process and pipes (`spawn`, `readline`, stderr logging, the exit handler): these are I/O. The model keeps one `running` flag, set by `EnsureRunning`.
- `JSON.parse`, `JSON.stringify`, timers, Promises and concurrency: a received line comes with its parse result, and a request's outcome is a `Reply`. Replies are taken to arrive one at a time, so no two requests race.
- `Math.random`: `shuffle` may return any permutation, and `getRandom` and `getRandomMove` take a `draw` number. No distribution is claimed.
- `writeAnalysisCfg` and `modelAbsolutePath` (the INI writer and `path.join`), and `truncTo`, `formatPercent2` and `formatFixed3`: these are file I/O and floating-point formatting.
- The React UI, the HTTP clients, the NestJS wiring and the type-only files.
- Katago.Json: numbers are `real`. A field read through a non-object raises a TypeError in JavaScript; the model reads it as absent.
- Katago.SortByScore: a `scoreMean` that is not a number is read as 0. JavaScript's subtraction converts it with `Number` instead: `"5"` is 5, `true` is 1, `[]` is 0, and a non-numeric string or an object is NaN, which leaves the comparator's order unspecified.
- Text.ToUpper: upper-cases ASCII letters only; JavaScript's full Unicode case mapping is not modelled.
- Katago.TopCandidatesSpec: does not state the candidate's `move` text beyond it being upper case, or the prior when it is not a number.
- Katago.PvOf: states only the length of the principal variation, not its upper-cased vertices.
- Boards are rectangular (front end) or square (group analyzer): they are built that way by `buildBoardFromMoves` and by the assistant's 19×19 input. `GameLogic.GetGroup`, `GameLogic.IsSuicidalMove` and `GameLogic.BuildBoardFromMoves` require their points to be on the board, where JavaScript would throw or grow an array.
- ResponseTemplates.GetRandom: requires a non-empty list. Every template list is non-empty, and JavaScript would return `undefined` for an empty one.
- BotPlayer.GetSmartMove: also returns the winning capture count, so that `GetBestBotMoveIntended` can test it.
- KatagoService.Service.OnLine: only non-empty string ids are looked up. A truthy id that is not a string passes JavaScript's `!id` test, but it can never equal a pending key, because every key is a string. So it is ignored in the source too.
- KatagoService.Service.BotTurn: the TypeError thrown when the bot's move is not a string carries the fixed message `TypeError`; the JavaScript engine's wording is not modelled.
- Katago.TopCandidates: `(m.move ?? '').toUpperCase()` and `p.toUpperCase()` on the principal variation throw for a non-string value; the model upper-cases strings and reads any other value as the empty string.
- GameLogic.BuildBoardFromMoves and GroupAnalyzer.GetGroupsInAtari: the default arguments `size = 19` and `threshold = 1` are explicit parameters. The calls at useBotPlayer.ts:60, 69 and 95 pass `size`, and go-engine.ts:9 passes `threshold` 1.
- ResponseTemplates.Lookup: only the tables' own keys are found. JavaScript's `in` and property access also see keys inherited from `Object.prototype`: for the threat `"toString"` the source picks from a function and returns `undefined`, where the model moves on to the next key. `Analyzer.Analyze` only produces listed tags, so the program never reaches this case.
- Coords.CoordToXY: Dafny strings are sequences of Unicode scalar values, while `coord[0]` and `coord.slice(1)` work on UTF-16 code units. For a name whose first character lies outside the Basic Multilingual Plane, JavaScript reads a lone surrogate as the letter (x = -1, as in the model) and parses the other surrogate onward, giving NaN; the model parses the text after the whole character. `Text.TrimStart` and `Text.ParseInt` agree with JavaScript here, since no white space or digit lies outside that plane.

## Findings

| source | as written | input that shows it | evidently intended | confidence | as-written member | corrected member |
|---|---|---|---|---|---|---|
| frontend/src/domains/game-go/hooks/useBotPlayer.ts:134-147 | `getSmartMove` starts `maxCaptures` at -1, so the first safe point always wins with 0 captures. `getBestBotMove` therefore never reaches `getTerritorialMove`. | an empty 9×9 board: every point is safe and captures 0, yet a "capturing" move is returned | take the smart move only when it captures something, and otherwise play the territorial move | not executed | BotPlayer.GetBestBotMove, BotPlayer.EmptyBoardCapturesNothing | BotPlayer.GetBestBotMoveIntended |
