/** The coach's message templates (`ResponseTemplates`) and the functions
    that pick one: a Socratic question chosen by a fixed priority chain, an
    analogy and a drill.  `Math.random` is the parameter `draw`: any natural
    number picks an element, and every element can be picked. */
module ResponseTemplates {
  import opened Opt
  import GoEngine
  import opened Analyzer

  /** The player profile fields the templates read. */
  datatype PlayerProfile = PlayerProfile(level: string, commonMistakes: Option<seq<string>>)

  /** `threats.group_at_risk`. */
  const GroupAtRiskQuestions: seq<string> := [
    "\U{00BF}Ese grupo podr\U{00E1} sobrevivir si el oponente lo ataca?",
    "Pens\U{00E1} si ese grupo tiene suficientes libertades o conexiones.",
    "\U{00BF}Ese grupo tiene al menos dos ojos potenciales?"
  ]

  /** `opportunities.connect_group`. */
  const ConnectGroupQuestions: seq<string> := [
    "\U{00BF}Lograste fortalecer tu posici\U{00F3}n con esa conexi\U{00F3}n?",
    "Unir grupos puede darte estabilidad. \U{00BF}Era necesario ahora?",
    "\U{00BF}Esa conexi\U{00F3}n evita que el oponente te separe m\U{00E1}s adelante?"
  ]

  /** `patterns.overconcentration`. */
  const OverconcentrationQuestions: seq<string> := [
    "\U{00BF}Est\U{00E1}s jugando muchas piedras en una misma zona?",
    "Intent\U{00E1} distribuir tu influencia por todo el tablero.",
    "Podr\U{00ED}as estar limitando tu expansi\U{00F3}n al quedarte en una regi\U{00F3}n."
  ]

  /** `patterns.isolated_group`. */
  const IsolatedGroupQuestions: seq<string> := [
    "\U{00BF}Ese grupo tiene chances de conectarse o est\U{00E1} aislado?",
    "Jug\U{00E1} con cuidado cuando est\U{00E1}s aislado: las capturas son probables.",
    "\U{00BF}Cu\U{00E1}l es el plan para salvar ese grupo?"
  ]

  /** `analogies.group_at_risk`. */
  const GroupAtRiskAnalogies: seq<string> := [
    "Un general no deja una tropa sin suministros: ese grupo parece desprotegido.",
    "Como un castillo sin murallas: tu grupo puede ser f\U{00E1}cilmente invadido."
  ]

  /** `analogies.overconcentration`. */
  const OverconcentrationAnalogies: seq<string> := [
    "Como regar solo una parte del campo: est\U{00E1}s desperdiciando potencial.",
    "No pongas todos los huevos en la misma canasta: expand\U{00ED} tu influencia."
  ]

  /** `analogies.default`. */
  const DefaultAnalogies: seq<string> := [
    "En GO, como en la vida, el equilibrio vence a la obsesi\U{00F3}n.",
    "A veces, la mejor defensa es no estar ah\U{00ED}."
  ]

  /** `drills`. */
  const Drills: seq<string> := [
    "Juega 3 variantes que aseguren libertades a un grupo en riesgo.",
    "Practica conectar grupos separados en al menos 2 escenarios.",
    "Jug\U{00E1} una partida comenzando desde una posici\U{00F3}n de desventaja para practicar defensa."
  ]

  /** `genericByLevel.beginner`. */
  const BeginnerQuestions: seq<string> := [
    "\U{00BF}Qu\U{00E9} objetivo ten\U{00ED}a esa jugada? \U{00BF}Defender? \U{00BF}Atacar? \U{00BF}Expandirse?",
    "\U{00BF}Qu\U{00E9} parte del tablero es m\U{00E1}s urgente ahora?"
  ]

  /** `genericByLevel.intermediate`. */
  const IntermediateQuestions: seq<string> := [
    "\U{00BF}Tu jugada crea influencia o territorio?",
    "\U{00BF}Est\U{00E1}s leyendo posibles secuencias o solo reaccionando?"
  ]

  /** `genericByLevel.advanced`. */
  const AdvancedQuestions: seq<string> := [
    "\U{00BF}Cu\U{00E1}l es la implicancia estrat\U{00E9}gica de esta jugada?",
    "\U{00BF}Tu jugada tiene doble prop\U{00F3}sito o es reactiva?"
  ]

  /** The inline list used when the level has no generic list. */
  const FallbackQuestions: seq<string> := [
    "\U{00BF}Qu\U{00E9} impacto cre\U{00E9}s que tendr\U{00E1} esta jugada en la posici\U{00F3}n general?"
  ]

  /** `evaluation.atari`. */
  const AtariQuestions: seq<string> := [
    "\U{00BF}Est\U{00E1}s en atari? \U{00BF}Ten\U{00E9}s opciones para escapar o defenderte?",
    "\U{00BF}Vale la pena salvar esa piedra o es mejor sacrificarla con prop\U{00F3}sito?"
  ]

  /** `evaluation.highRisk`. */
  const HighRiskQuestions: seq<string> := [
    "\U{00BF}Este movimiento agrava una posici\U{00F3}n vulnerable?",
    "Tu grupo est\U{00E1} en peligro. \U{00BF}Cu\U{00E1}l es tu prioridad ahora?"
  ]

  /** `evaluation.lowLiberties`. */
  const LowLibertiesQuestions: seq<string> := [
    "\U{00BF}Ten\U{00E9}s suficientes libertades para resistir un ataque?",
    "\U{00BF}C\U{00F3}mo pod\U{00E9}s aumentar el espacio de maniobra de tu grupo?"
  ]

  /** `engine.connectsGroups`. */
  const ConnectsGroupsQuestions: seq<string> := [
    "\U{00BF}Esa jugada conect\U{00F3} tus grupos? \U{00BF}Pod\U{00ED}as haber esperado?",
    "Unir grupos es \U{00FA}til, pero... \U{00BF}lo era ahora estrat\U{00E9}gicamente?"
  ]

  /** `engine.createsEye`. */
  const CreatesEyeQuestions: seq<string> := [
    "\U{00BF}Intent\U{00E1}s crear un ojo con esa jugada? \U{00BF}Era necesario?",
    "Generar ojos es clave, pero asegur\U{00E1} que el grupo lo necesite."
  ]

  /** `engine.threatensCapture`. */
  const ThreatensCaptureQuestions: seq<string> := [
    "\U{00BF}Amenazaste una captura? \U{00BF}Hay una buena continuaci\U{00F3}n?",
    "Las amenazas sin seguimiento pueden ser ineficaces. \U{00BF}Qu\U{00E9} sigue?"
  ]

  /** `getRandom`: `arr[Math.floor(Math.random() * arr.length)]`, the
      random index written as `draw % |arr|`. */
  function GetRandom(arr: seq<string>, draw: nat): (r: string)
    requires |arr| > 0
    ensures r in arr
  {
    arr[draw % |arr|]
  }

  /** Every element of the list is a possible pick. */
  lemma GetRandomReaches(arr: seq<string>, i: nat)
    requires i < |arr|
    ensures GetRandom(arr, i) == arr[i]
  {
  }

  /** The keyed tables of the template object. */
  datatype Table = Threats | Opportunities | Patterns | Analogies

  /** `key in ResponseTemplates.<table>` and the list stored under it, for
      the table's own keys (inherited `Object.prototype` keys are absent). */
  function Lookup(t: Table, key: string): (r: Option<seq<string>>)
    ensures r.Some? ==> |r.value| > 0
  {
    match t
    case Threats =>
      if key == "group_at_risk" then Some(GroupAtRiskQuestions) else None
    case Opportunities =>
      if key == "connect_group" then Some(ConnectGroupQuestions) else None
    case Patterns =>
      if key == "overconcentration" then Some(OverconcentrationQuestions)
      else if key == "isolated_group" then Some(IsolatedGroupQuestions)
      else None
    case Analogies =>
      if key == "group_at_risk" then Some(GroupAtRiskAnalogies)
      else if key == "overconcentration" then Some(OverconcentrationAnalogies)
      else if key == "default" then Some(DefaultAnalogies)
      else None
  }

  /** The early-return `for (const key of keys)` loop: the list of the first
      key that has one. */
  function FirstMatch(t: Table, keys: seq<string>): (r: Option<seq<string>>)
    ensures r.None? <==> forall i :: 0 <= i < |keys| ==> Lookup(t, keys[i]).None?
    ensures r.Some? ==> |r.value| > 0
    ensures r.Some? ==> exists i :: 0 <= i < |keys| && Lookup(t, keys[i]) == r &&
                                    forall j :: 0 <= j < i ==> Lookup(t, keys[j]).None?
  {
    if keys == [] then None
    else if Lookup(t, keys[0]).Some? then Lookup(t, keys[0])
    else
      var r := FirstMatch(t, keys[1..]);
      assert forall i :: 1 <= i < |keys| ==> keys[i] == keys[1..][i - 1];
      r
  }

  /** `genericByLevel[level] || [fallback]`. */
  function LevelQuestions(level: string): (r: seq<string>)
    ensures |r| > 0
  {
    if level == "beginner" then BeginnerQuestions
    else if level == "intermediate" then IntermediateQuestions
    else if level == "advanced" then AdvancedQuestions
    else FallbackQuestions
  }

  /** The template buckets of `generateSocraticQuestion`, in priority order. */
  datatype Bucket =
    | Atari | HighRisk | LowLiberties | ThreatKey | Overconcentrated
    | OpportunityKey | PatternKey | ConnectsGroups | CreatesEye | ThreatensCapture | Generic
  {
    function Rank(): nat {
      match this
      case Atari => 0 case HighRisk => 1 case LowLiberties => 2 case ThreatKey => 3
      case Overconcentrated => 4 case OpportunityKey => 5 case PatternKey => 6
      case ConnectsGroups => 7 case CreatesEye => 8 case ThreatensCapture => 9 case Generic => 10
    }
  }

  /** Whether a bucket's own condition holds, regardless of the others.
      `evaluation?.x` is false (or undefined) without an evaluation. */
  predicate Applies(b: Bucket, ctx: BoardContext, ev: Option<GoEngine.EngineEvaluation>) {
    match b
    case Atari => ev.Some? && ev.value.isAtari
    case HighRisk => ev.Some? && ev.value.riskLevel == GoEngine.High
    case LowLiberties => ev.Some? && ev.value.liberties <= 2
    case ThreatKey => exists i :: 0 <= i < |ctx.threats| && Lookup(Threats, ctx.threats[i]).Some?
    case Overconcentrated => ev.Some? && ev.value.overconcentrated
    case OpportunityKey => exists i :: 0 <= i < |ctx.opportunities| && Lookup(Opportunities, ctx.opportunities[i]).Some?
    case PatternKey => exists i :: 0 <= i < |ctx.patternsDetected| && Lookup(Patterns, ctx.patternsDetected[i]).Some?
    case ConnectsGroups => ev.Some? && ev.value.connectsGroups
    case CreatesEye => ev.Some? && ev.value.createsEye
    case ThreatensCapture => ev.Some? && ev.value.threatensCapture
    case Generic => true
  }

  /** The if-chain of `generateSocraticQuestion`. */
  function SocraticBucket(ctx: BoardContext, ev: Option<GoEngine.EngineEvaluation>): Bucket {
    if ev.Some? && ev.value.isAtari then Atari
    else if ev.Some? && ev.value.riskLevel == GoEngine.High then HighRisk
    else if ev.Some? && ev.value.liberties <= 2 then LowLiberties
    else if FirstMatch(Threats, ctx.threats).Some? then ThreatKey
    else if ev.Some? && ev.value.overconcentrated then Overconcentrated
    else if FirstMatch(Opportunities, ctx.opportunities).Some? then OpportunityKey
    else if FirstMatch(Patterns, ctx.patternsDetected).Some? then PatternKey
    else if ev.Some? && ev.value.connectsGroups then ConnectsGroups
    else if ev.Some? && ev.value.createsEye then CreatesEye
    else if ev.Some? && ev.value.threatensCapture then ThreatensCapture
    else Generic
  }

  /** The chosen bucket is the first one, in priority order, whose condition
      holds. */
  lemma SocraticFirstApplicable(ctx: BoardContext, ev: Option<GoEngine.EngineEvaluation>)
    ensures Applies(SocraticBucket(ctx, ev), ctx, ev)
    ensures forall b :: Applies(b, ctx, ev) ==> SocraticBucket(ctx, ev).Rank() <= b.Rank()
  {
    var r := SocraticBucket(ctx, ev);
    forall b | Applies(b, ctx, ev) ensures r.Rank() <= b.Rank() {
      match b
      case ThreatKey =>
        var i :| 0 <= i < |ctx.threats| && Lookup(Threats, ctx.threats[i]).Some?;
      case OpportunityKey =>
        var i :| 0 <= i < |ctx.opportunities| && Lookup(Opportunities, ctx.opportunities[i]).Some?;
      case PatternKey =>
        var i :| 0 <= i < |ctx.patternsDetected| && Lookup(Patterns, ctx.patternsDetected[i]).Some?;
      case _ =>
    }
  }

  /** The list a bucket draws from; the keyed buckets use the list of the
      first key that has one. */
  function BucketList(b: Bucket, ctx: BoardContext, level: string): (r: seq<string>)
    ensures |r| > 0
  {
    match b
    case Atari => AtariQuestions
    case HighRisk => HighRiskQuestions
    case LowLiberties => LowLibertiesQuestions
    case ThreatKey => FirstMatch(Threats, ctx.threats).GetOr(LevelQuestions(level))
    case Overconcentrated => OverconcentrationQuestions
    case OpportunityKey => FirstMatch(Opportunities, ctx.opportunities).GetOr(LevelQuestions(level))
    case PatternKey => FirstMatch(Patterns, ctx.patternsDetected).GetOr(LevelQuestions(level))
    case ConnectsGroups => ConnectsGroupsQuestions
    case CreatesEye => CreatesEyeQuestions
    case ThreatensCapture => ThreatensCaptureQuestions
    case Generic => LevelQuestions(level)
  }

  /** `generateSocraticQuestion`: a template from the list of the bucket the
      priority chain selects. */
  function GenerateSocraticQuestion(ctx: BoardContext, profile: PlayerProfile, ev: Option<GoEngine.EngineEvaluation>, draw: nat): (r: string)
    ensures r in BucketList(SocraticBucket(ctx, ev), ctx, profile.level)
  {
    GetRandom(BucketList(SocraticBucket(ctx, ev), ctx, profile.level), draw)
  }

  /** An atari evaluation always gets an atari question, whatever the tags
      and the other evaluation fields say. */
  lemma AtariWins(ctx: BoardContext, profile: PlayerProfile, e: GoEngine.EngineEvaluation, draw: nat)
    requires e.isAtari
    ensures GenerateSocraticQuestion(ctx, profile, Some(e), draw) in AtariQuestions
  {
  }

  /** A threat question comes from the list of the first threat that has
      one. */
  lemma ThreatQuestion(ctx: BoardContext, profile: PlayerProfile, ev: Option<GoEngine.EngineEvaluation>, draw: nat)
    requires SocraticBucket(ctx, ev) == ThreatKey
    ensures exists i :: 0 <= i < |ctx.threats| && Lookup(Threats, ctx.threats[i]).Some? &&
              GenerateSocraticQuestion(ctx, profile, ev, draw) in Lookup(Threats, ctx.threats[i]).value &&
              forall j :: 0 <= j < i ==> Lookup(Threats, ctx.threats[j]).None?
  {
  }

  /** Evaluations produced by `evaluateBoard` tie atari and risk to the
      liberty count, so the three evaluation buckets split by liberties:
      one liberty gives atari, none gives high risk, two give low liberties. */
  lemma EvaluationBuckets(ctx: BoardContext, e: GoEngine.EngineEvaluation)
    requires e.isAtari <==> e.liberties == 1
    requires e.riskLevel == GoEngine.GetRiskLevel(e.liberties)
    ensures SocraticBucket(ctx, Some(e)) == Atari <==> e.liberties == 1
    ensures SocraticBucket(ctx, Some(e)) == HighRisk <==> e.liberties == 0
    ensures SocraticBucket(ctx, Some(e)) == LowLiberties <==> e.liberties == 2
  {
  }

  /** `generateAnalogy`: the overconcentration analogies, else the list of the
      first threat that has one, else the default list. */
  function AnalogyList(ctx: BoardContext, ev: Option<GoEngine.EngineEvaluation>): (r: seq<string>)
    ensures |r| > 0
  {
    if ev.Some? && ev.value.overconcentrated then OverconcentrationAnalogies
    else FirstMatch(Analogies, ctx.threats).GetOr(DefaultAnalogies)
  }

  function GenerateAnalogy(ctx: BoardContext, profile: PlayerProfile, ev: Option<GoEngine.EngineEvaluation>, draw: nat): (r: string)
    ensures r in AnalogyList(ctx, ev)
  {
    GetRandom(AnalogyList(ctx, ev), draw)
  }

  /** An analogy is always one of the three analogy lists, and the
      overconcentration ones whenever the evaluation says so. */
  lemma AnalogyKinds(ctx: BoardContext, profile: PlayerProfile, ev: Option<GoEngine.EngineEvaluation>, draw: nat)
    ensures var a := GenerateAnalogy(ctx, profile, ev, draw);
            a in GroupAtRiskAnalogies || a in OverconcentrationAnalogies || a in DefaultAnalogies
    ensures ev.Some? && ev.value.overconcentrated ==> GenerateAnalogy(ctx, profile, ev, draw) in OverconcentrationAnalogies
    ensures (ev.None? || !ev.value.overconcentrated) && (forall i :: 0 <= i < |ctx.threats| ==> Lookup(Analogies, ctx.threats[i]).None?) ==>
              GenerateAnalogy(ctx, profile, ev, draw) in DefaultAnalogies
  {
    var a := GenerateAnalogy(ctx, profile, ev, draw);
    var f := FirstMatch(Analogies, ctx.threats);
    if !(ev.Some? && ev.value.overconcentrated) && f.Some? {
      var i :| 0 <= i < |ctx.threats| && Lookup(Analogies, ctx.threats[i]) == f;
    }
  }

  /** `generateDrillExercise`: always a drill; the context and profile are
      ignored. */
  function GenerateDrillExercise(ctx: BoardContext, profile: PlayerProfile, draw: nat): (r: string)
    ensures r in Drills
  {
    GetRandom(Drills, draw)
  }
}
