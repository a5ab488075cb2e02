/** The coaching policy (`InterventionEngine`): a counter of consecutive
    moves with a critical threat decides between a drill, a corrective
    analogy and a preventive Socratic question. */
module Intervention {
  import opened Opt
  import GoEngine
  import opened Analyzer
  import opened ResponseTemplates

  /** `InterventionLevel`, with the numbers the enum assigns. */
  datatype Level = Preventive | Corrective | Drill {
    function Number(): (n: nat)
      ensures 1 <= n <= 3
    {
      match this
      case Preventive => 1
      case Corrective => 2
      case Drill => 3
    }
  }

  datatype InterventionResult = InterventionResult(level: Level, message: string, reason: string)

  const DrillReason: string := "Se detectaron 3 o m\U{00E1}s errores cr\U{00ED}ticos consecutivos"
  const CorrectiveReason: string := "Se detect\U{00F3} un error cr\U{00ED}tico o patr\U{00F3}n frecuente del jugador"
  const PreventiveReason: string := "No se detectaron errores \U{2014} intervenci\U{00F3}n preventiva"

  /** The threats that count as critical mistakes. */
  predicate IsCritical(threat: string) {
    threat == "group_at_risk" || threat == "lack_of_connection" || threat == "dead_shape"
  }

  predicate HasCriticalIssue(ctx: BoardContext) {
    exists i :: 0 <= i < |ctx.threats| && IsCritical(ctx.threats[i])
  }

  /** `patternsDetected.some(p => profile.commonMistakes?.includes(p))`. */
  predicate HasCommonMistake(ctx: BoardContext, profile: PlayerProfile) {
    profile.commonMistakes.Some? &&
    exists i :: 0 <= i < |ctx.patternsDetected| && ctx.patternsDetected[i] in profile.commonMistakes.value
  }

  /** `evaluation?.overconcentrated === true`. */
  predicate FlaggedOverconcentrated(ev: Option<GoEngine.EngineEvaluation>) {
    ev.Some? && ev.value.overconcentrated
  }

  /** The counter after a move: one more on a critical threat, back to 0
      otherwise. */
  function NextMistakes(count: nat, critical: bool): (n: nat)
    ensures critical ==> n == count + 1
    ensures !critical ==> n == 0
  {
    if critical then count + 1 else 0
  }

  /** The level for the updated counter and the three error signals. */
  function LevelFor(count: nat, critical: bool, common: bool, overconcentrated: bool): (l: Level)
    ensures l == Drill <==> count >= 3
    ensures l == Corrective <==> count < 3 && (critical || common || overconcentrated)
    ensures l == Preventive <==> count < 3 && !critical && !common && !overconcentrated
  {
    if count >= 3 then Drill
    else if critical || common || overconcentrated then Corrective
    else Preventive
  }

  /** A move without a critical threat resets the counter, so it never gets
      a drill; a move with one never gets a preventive question. */
  lemma CriticalNeverPreventive(count: nat, critical: bool, common: bool, overconcentrated: bool)
    ensures !critical ==> LevelFor(NextMistakes(count, critical), critical, common, overconcentrated) != Drill
    ensures critical ==> LevelFor(NextMistakes(count, critical), critical, common, overconcentrated) != Preventive
  {
  }

  /** The counter after a run of moves from `count`, each flag saying whether
      that move had a critical threat. */
  function AfterMoves(count: nat, flags: seq<bool>): nat
    decreases |flags|
  {
    if flags == [] then count else AfterMoves(NextMistakes(count, flags[0]), flags[1..])
  }

  /** The number of critical moves at the end of the run. */
  function TrailingRun(flags: seq<bool>): (n: nat)
    ensures n <= |flags|
  {
    if flags == [] || !flags[|flags| - 1] then 0 else TrailingRun(flags[..|flags| - 1]) + 1
  }

  lemma {:induction false} TrailingRunAllTrue(flags: seq<bool>)
    requires forall i :: 0 <= i < |flags| ==> flags[i]
    ensures TrailingRun(flags) == |flags|
  {
    if flags != [] {
      TrailingRunAllTrue(flags[..|flags| - 1]);
    }
  }

  /** Dropping the first move keeps the trailing run unless every move was
      critical. */
  lemma {:induction false} TrailingRunTail(flags: seq<bool>)
    requires flags != []
    requires exists i :: 1 <= i < |flags| && !flags[i]
    ensures TrailingRun(flags) == TrailingRun(flags[1..])
  {
    var n := |flags| - 1;
    if flags[n] {
      var i :| 1 <= i < |flags| && !flags[i];
      assert i < n;
      assert flags[..n][1..] == flags[1..][..n - 1];
      assert flags[..n][i] == flags[i];
      TrailingRunTail(flags[..n]);
    }
  }

  /** The counter counts the trailing run of critical moves, plus the
      starting value when every move was critical. */
  lemma {:induction false} AfterMovesRun(count: nat, flags: seq<bool>)
    ensures (forall i :: 0 <= i < |flags| ==> flags[i]) ==> AfterMoves(count, flags) == count + |flags|
    ensures (exists i :: 0 <= i < |flags| && !flags[i]) ==> AfterMoves(count, flags) == TrailingRun(flags)
    decreases |flags|
  {
    if flags != [] {
      var next := NextMistakes(count, flags[0]);
      AfterMovesRun(next, flags[1..]);
      if forall i :: 1 <= i < |flags| ==> flags[i] {
        if !flags[0] {
          TrailingRunAllTrue(flags[1..]);
          TrailingRunFromStart(flags);
        }
      } else {
        var i :| 1 <= i < |flags| && !flags[i];
        assert !flags[1..][i - 1];
        TrailingRunTail(flags);
      }
    }
  }

  /** A run that starts with a non-critical move has the trailing run of the
      rest. */
  lemma {:induction false} TrailingRunFromStart(flags: seq<bool>)
    requires flags != [] && !flags[0]
    ensures TrailingRun(flags) == TrailingRun(flags[1..])
  {
    var n := |flags| - 1;
    if n > 0 && flags[n] {
      assert flags[..n][0] == flags[0];
      assert flags[..n][1..] == flags[1..][..n - 1];
      TrailingRunFromStart(flags[..n]);
    } else if n > 0 {
      assert flags[1..][n - 1] == flags[n];
    }
  }

  /** From a fresh engine the drill comes exactly when the last three moves
      all had a critical threat: the third consecutive one is the first to
      trigger it. */
  lemma DrillAfterThreeCritical(flags: seq<bool>, common: bool, overconcentrated: bool)
    requires flags != []
    ensures var n := AfterMoves(0, flags);
            LevelFor(n, flags[|flags| - 1], common, overconcentrated) == Drill <==>
            |flags| >= 3 && flags[|flags| - 1] && flags[|flags| - 2] && flags[|flags| - 3]
  {
    AfterMovesRun(0, flags);
    var k := |flags|;
    if exists i :: 0 <= i < k && !flags[i] {
      TrailingRunAtLeast3(flags);
    }
  }

  /** A trailing run of at least three means the last three moves are
      critical. */
  lemma TrailingRunAtLeast3(flags: seq<bool>)
    ensures TrailingRun(flags) >= 3 <==> |flags| >= 3 && flags[|flags| - 1] && flags[|flags| - 2] && flags[|flags| - 3]
  {
    var k := |flags|;
    if k >= 3 && flags[k - 1] && flags[k - 2] && flags[k - 3] {
      assert flags[..k - 1][..k - 2] == flags[..k - 2];
      assert TrailingRun(flags[..k - 2]) >= 1;
    } else if TrailingRun(flags) >= 3 {
      assert flags[..k - 1][..k - 2] == flags[..k - 2];
    }
  }

  class InterventionEngine {
    var consecutiveMistakes: nat

    constructor()
      ensures consecutiveMistakes == 0
    {
      consecutiveMistakes := 0;
    }

    /** `evaluate`: update the counter, then pick the level and its
        message. */
    method Evaluate(ctx: BoardContext, profile: PlayerProfile, ev: Option<GoEngine.EngineEvaluation>, draw: nat)
      returns (r: InterventionResult)
      modifies this
      ensures consecutiveMistakes == NextMistakes(old(consecutiveMistakes), HasCriticalIssue(ctx))
      ensures r.level == LevelFor(consecutiveMistakes, HasCriticalIssue(ctx), HasCommonMistake(ctx, profile), FlaggedOverconcentrated(ev))
      ensures r.level == Drill ==> r.message == GenerateDrillExercise(ctx, profile, draw) && r.reason == DrillReason
      ensures r.level == Corrective ==> r.message == GenerateAnalogy(ctx, profile, ev, draw) && r.reason == CorrectiveReason
      ensures r.level == Preventive ==> r.message == GenerateSocraticQuestion(ctx, profile, ev, draw) && r.reason == PreventiveReason
    {
      var hasCriticalIssue := exists i | 0 <= i < |ctx.threats| :: IsCritical(ctx.threats[i]);
      var hasCommonMistake := profile.commonMistakes.Some? &&
        exists i | 0 <= i < |ctx.patternsDetected| :: ctx.patternsDetected[i] in profile.commonMistakes.value;
      var isOverconcentrated := ev.Some? && ev.value.overconcentrated;
      if hasCriticalIssue {
        consecutiveMistakes := consecutiveMistakes + 1;
      } else {
        consecutiveMistakes := 0;
      }
      if consecutiveMistakes >= 3 {
        return InterventionResult(Drill, GenerateDrillExercise(ctx, profile, draw), DrillReason);
      }
      if hasCriticalIssue || hasCommonMistake || isOverconcentrated {
        return InterventionResult(Corrective, GenerateAnalogy(ctx, profile, ev, draw), CorrectiveReason);
      }
      return InterventionResult(Preventive, GenerateSocraticQuestion(ctx, profile, ev, draw), PreventiveReason);
    }
  }
}
