/** `RuntimeConfig`: the engine parameters KataGo is started with, mixed
    from a hardware profile row and a difficulty preset row. */
module RuntimeConfig {
  datatype HardwareProfile = CpuLow | CpuMid | Gpu

  datatype DifficultyPreset = Easy | Medium | Hard | Pro {
    /** The preset's place from easiest to strongest. */
    function Rank(): (n: nat)
      ensures n < 4
    {
      match this
      case Easy => 0
      case Medium => 1
      case Hard => 2
      case Pro => 3
    }
  }

  /** The fields of `RuntimeConfig` that the mix reads; board size, komi,
      rules and the paths only go to the written file. */
  datatype Config = Config(hardware: HardwareProfile, preset: DifficultyPreset)

  /** One row of the hardware table. */
  datatype HardwareRow = HardwareRow(
    numAnalysisThreads: nat,
    numSearchThreads: nat,
    nnCacheSizePowerOfTwo: nat,
    nnMutexPoolSizePowerOfTwo: nat,
    nnMaxBatchSize: nat,
    lagBuffer: real)

  /** One row of the preset table. */
  datatype PresetRow = PresetRow(maxVisits: nat, analysisPVLen: nat, wideRootNoise: real)

  datatype KataEffective = KataEffective(
    numAnalysisThreads: nat,
    numSearchThreads: nat,
    nnCacheSizePowerOfTwo: nat,
    nnMutexPoolSizePowerOfTwo: nat,
    nnMaxBatchSize: nat,
    lagBuffer: real,
    maxVisits: nat,
    analysisPVLen: nat,
    wideRootNoise: real,
    ignorePreRootHistory: bool,
    reportAnalysisWinratesAs: string,
    allowIncludeOwnership: bool,
    allowIncludePolicy: bool)

  /** The `HW` table. */
  function Hardware(h: HardwareProfile): (r: HardwareRow)
    ensures r.numAnalysisThreads == 1
    ensures 1 <= r.numSearchThreads && 1 <= r.nnMaxBatchSize
    ensures 0.0 < r.lagBuffer < 0.1
  {
    match h
    case CpuLow => HardwareRow(1, 1, 20, 17, 4, 0.06)
    case CpuMid => HardwareRow(1, 8, 21, 18, 8, 0.05)
    case Gpu => HardwareRow(1, 12, 22, 18, 32, 0.03)
  }

  /** The `PRESET` table. */
  function Preset(p: DifficultyPreset): (r: PresetRow)
    ensures 5 <= r.analysisPVLen <= 7
    ensures 0.0 < r.wideRootNoise <= 0.05
  {
    match p
    case Easy => PresetRow(60, 5, 0.05)
    case Medium => PresetRow(120, 6, 0.04)
    case Hard => PresetRow(400, 6, 0.02)
    case Pro => PresetRow(1000, 7, 0.01)
  }

  /** `resolveEffective`: the hardware row, then the preset row, then the
      four fixed settings. */
  function ResolveEffective(rc: Config): (r: KataEffective)
    ensures r.ignorePreRootHistory && r.allowIncludeOwnership && r.allowIncludePolicy
    ensures r.reportAnalysisWinratesAs == "SIDETOMOVE"
  {
    var hw := Hardware(rc.hardware);
    var p := Preset(rc.preset);
    KataEffective(
      hw.numAnalysisThreads, hw.numSearchThreads, hw.nnCacheSizePowerOfTwo,
      hw.nnMutexPoolSizePowerOfTwo, hw.nnMaxBatchSize, hw.lagBuffer,
      p.maxVisits, p.analysisPVLen, p.wideRootNoise,
      true, "SIDETOMOVE", true, true)
  }

  /** The search budget comes from the preset alone and the performance
      settings from the hardware alone: changing one never moves the
      other's fields. */
  lemma ResolveSeparates(a: Config, b: Config)
    ensures a.preset == b.preset ==>
              var ra, rb := ResolveEffective(a), ResolveEffective(b);
              ra.maxVisits == rb.maxVisits && ra.analysisPVLen == rb.analysisPVLen && ra.wideRootNoise == rb.wideRootNoise
    ensures a.hardware == b.hardware ==>
              var ra, rb := ResolveEffective(a), ResolveEffective(b);
              && ra.numAnalysisThreads == rb.numAnalysisThreads && ra.numSearchThreads == rb.numSearchThreads
              && ra.nnCacheSizePowerOfTwo == rb.nnCacheSizePowerOfTwo
              && ra.nnMutexPoolSizePowerOfTwo == rb.nnMutexPoolSizePowerOfTwo
              && ra.nnMaxBatchSize == rb.nnMaxBatchSize && ra.lagBuffer == rb.lagBuffer
  {
  }

  /** The preset row and the hardware row land in the result unchanged. */
  lemma ResolveTakesRows(rc: Config)
    ensures var r, p := ResolveEffective(rc), Preset(rc.preset);
            r.maxVisits == p.maxVisits && r.analysisPVLen == p.analysisPVLen && r.wideRootNoise == p.wideRootNoise
    ensures var r, hw := ResolveEffective(rc), Hardware(rc.hardware);
            && r.numAnalysisThreads == hw.numAnalysisThreads && r.numSearchThreads == hw.numSearchThreads
            && r.nnCacheSizePowerOfTwo == hw.nnCacheSizePowerOfTwo
            && r.nnMutexPoolSizePowerOfTwo == hw.nnMutexPoolSizePowerOfTwo
            && r.nnMaxBatchSize == hw.nnMaxBatchSize && r.lagBuffer == hw.lagBuffer
  {
  }

  /** A stronger preset gets strictly more visits and no more root noise. */
  lemma PresetsStrengthen(p: DifficultyPreset, q: DifficultyPreset)
    ensures p.Rank() < q.Rank() ==> Preset(p).maxVisits < Preset(q).maxVisits
    ensures p.Rank() < q.Rank() ==> Preset(p).wideRootNoise > Preset(q).wideRootNoise
    ensures p.Rank() <= q.Rank() ==> Preset(p).analysisPVLen <= Preset(q).analysisPVLen
  {
  }

  /** Stronger hardware gets more search threads, a larger batch and a
      smaller lag buffer. */
  lemma HardwareScales()
    ensures Hardware(CpuLow).numSearchThreads < Hardware(CpuMid).numSearchThreads < Hardware(Gpu).numSearchThreads
    ensures Hardware(CpuLow).nnMaxBatchSize < Hardware(CpuMid).nnMaxBatchSize < Hardware(Gpu).nnMaxBatchSize
    ensures Hardware(CpuLow).lagBuffer > Hardware(CpuMid).lagBuffer > Hardware(Gpu).lagBuffer
  {
  }
}
