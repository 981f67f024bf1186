/** Sampling configuration and the pipeline built from it (nobodywho/src/sampler_config.rs). */
module Sampling {
  import opened Base
  import Llama

  /** The sampling method, one variant per strategy, each with its own parameters. */
  datatype SamplerMethod =
    | Greedy
    | Dry(seed: U32, dryMultiplier: F32, dryBase: F32, dryAllowedLength: I32, dryPenaltyLastN: I32)
    | TopK(topK: I32, seed: U32)
    | TopP(seed: U32, minKeep: U32, topP: F32)
    | MinP(seed: U32, minKeep: U32, minP: F32)
    | Xtc(seed: U32, xtcProbability: F32, xtcThreshold: F32, minKeep: U32)
    | TypicalP(seed: U32, typP: F32, minKeep: U32)
    | Temperature(seed: U32, temperature: F32)
    | MirostatV1(seed: U32, temperature: F32, tau: F32, eta: F32)
    | MirostatV2(seed: U32, temperature: F32, tau: F32, eta: F32)

  /** A method plus the repetition penalties every pipeline starts with. */
  datatype SamplerConfig = SamplerConfig(
    samplerMethod: SamplerMethod,
    penaltyLastN: I32,
    penaltyRepeat: F32,
    penaltyFreq: F32,
    penaltyPresent: F32)

  const DEFAULT_SEED: U32 := 1234

  // binary32 bit patterns of the default literals
  const ZERO := F32(0x0000_0000)          // 0.0
  const ONE := F32(0x3f80_0000)           // 1.0
  const POINT_ZERO_FIVE := F32(0x3d4c_cccd) // 0.05
  const POINT_ONE := F32(0x3dcc_cccd)     // 0.1
  const POINT_EIGHT := F32(0x3f4c_cccd) // 0.8
  const POINT_NINETY_FIVE := F32(0x3f73_3333) // 0.95
  const ONE_POINT_SEVEN_FIVE := F32(0x3fe0_0000) // 1.75
  const FIVE := F32(0x40a0_0000)          // 5.0

  /** The breakers DRY's repetition matching stops at. */
  const DRY_SEQ_BREAKERS: seq<string> := ["\n", ":", "\"", "*"]

  /** The mirostat `m` parameter, the value llama.cpp's own sampling code uses. */
  const MIROSTAT_M: I32 := 100

  function DefaultDry(): (m: SamplerMethod) {
    Dry(DEFAULT_SEED, ZERO, ONE_POINT_SEVEN_FIVE, 2, -1)
  }

  function DefaultTopK(): (m: SamplerMethod) {
    TopK(40, DEFAULT_SEED)
  }

  function DefaultTopP(): (m: SamplerMethod) {
    TopP(DEFAULT_SEED, 0, POINT_NINETY_FIVE)
  }

  function DefaultMinP(): (m: SamplerMethod) {
    MinP(DEFAULT_SEED, 0, POINT_ZERO_FIVE)
  }

  function DefaultXtc(): (m: SamplerMethod) {
    Xtc(DEFAULT_SEED, ZERO, POINT_ONE, 0)
  }

  function DefaultTypicalP(): (m: SamplerMethod) {
    TypicalP(DEFAULT_SEED, ONE, 0)
  }

  function DefaultTemperature(): (m: SamplerMethod) {
    Temperature(DEFAULT_SEED, POINT_EIGHT)
  }

  function DefaultMirostatV1(): (m: SamplerMethod) {
    MirostatV1(DEFAULT_SEED, POINT_EIGHT, FIVE, POINT_ONE)
  }

  function DefaultMirostatV2(): (m: SamplerMethod) {
    MirostatV2(DEFAULT_SEED, POINT_EIGHT, FIVE, POINT_ONE)
  }

  /** The default configuration: mirostat v2 with no repetition penalty over the whole history. */
  function DefaultConfig(): (c: SamplerConfig) {
    SamplerConfig(DefaultMirostatV2(), -1, ZERO, ZERO, ZERO)
  }

  /** The methods whose pipeline ends in a seeded random draw. */
  predicate EndsInDraw(m: SamplerMethod) {
    !(m.Greedy? || m.MirostatV1? || m.MirostatV2?)
  }

  /** Builds the sampler chain for a configuration: the penalty stage, then the method's
      stage(s). Greedy draws nothing at random; the mirostat methods scale by temperature and
      draw inside the mirostat stage; every other method reshapes the scores in one stage and
      then draws with its own seed. */
  function MakeSampler(model: Llama.Model, config: SamplerConfig): (s: Llama.Sampler)
    ensures s.noPerf && 2 <= |s.stages| <= 3
    ensures s.stages[0] == Llama.Penalties(config.penaltyLastN, config.penaltyRepeat, config.penaltyFreq, config.penaltyPresent)
    ensures config.samplerMethod.Greedy? <==> |s.stages| == 2
    ensures config.samplerMethod.Greedy? ==> s.stages[1] == Llama.Greedy
    ensures config.samplerMethod.Greedy? ==> forall i :: 0 <= i < |s.stages| ==> !Llama.Draws(s.stages[i])
    ensures !config.samplerMethod.Greedy? ==> Llama.Draws(s.stages[|s.stages| - 1])
    ensures EndsInDraw(config.samplerMethod) ==> s.stages[|s.stages| - 1] == Llama.Dist(config.samplerMethod.seed)
    ensures EndsInDraw(config.samplerMethod) <==> exists i :: 0 <= i < |s.stages| && s.stages[i].Dist?
    ensures (config.samplerMethod.MirostatV1? || config.samplerMethod.MirostatV2?) ==>
      s.stages[1] == Llama.Temp(config.samplerMethod.temperature)
  {
    var penalties := Llama.Penalties(config.penaltyLastN, config.penaltyRepeat, config.penaltyFreq, config.penaltyPresent);
    var stages := match config.samplerMethod
      case Greedy => [penalties, Llama.Greedy]
      case Dry(seed, multiplier, base, allowedLength, penaltyLastN) =>
        [penalties, Llama.Dry(model, multiplier, base, allowedLength, penaltyLastN, DRY_SEQ_BREAKERS), Llama.Dist(seed)]
      case TopK(k, seed) =>
        [penalties, Llama.TopK(k), Llama.Dist(seed)]
      case TopP(seed, minKeep, p) =>
        [penalties, Llama.TopP(p, minKeep as nat), Llama.Dist(seed)]
      case MinP(seed, minKeep, p) =>
        // builds a top-p stage from the min-p threshold
        [penalties, Llama.TopP(p, minKeep as nat), Llama.Dist(seed)]
      case Xtc(seed, probability, threshold, minKeep) =>
        [penalties, Llama.Xtc(probability, threshold, minKeep as nat, seed), Llama.Dist(seed)]
      case TypicalP(seed, p, minKeep) =>
        [penalties, Llama.Typical(p, minKeep as nat), Llama.Dist(seed)]
      case Temperature(seed, t) =>
        [penalties, Llama.Temp(t), Llama.Dist(seed)]
      case MirostatV1(seed, t, tau, eta) =>
        [penalties, Llama.Temp(t), Llama.Mirostat(model.nVocab, seed, tau, eta, MIROSTAT_M)]
      case MirostatV2(seed, t, tau, eta) =>
        [penalties, Llama.Temp(t), Llama.MirostatV2(seed, tau, eta)];
    Llama.Chain(stages, true)
  }

  /** The default configuration yields penalties with the whole-history window and zero
      magnitudes, temperature 0.8 and a mirostat v2 stage seeded 1234 with tau 5.0 and eta
      0.1: no separate random draw. */
  lemma DefaultPipeline(model: Llama.Model)
    ensures MakeSampler(model, DefaultConfig()).stages ==
      [Llama.Penalties(-1, ZERO, ZERO, ZERO), Llama.Temp(POINT_EIGHT), Llama.MirostatV2(1234, FIVE, POINT_ONE)]
  {
  }

  /** Mirostat v1 hands the model's vocabulary size, the seed, tau, eta and the constant 100 to
      its stage. */
  lemma MirostatV1Stage(model: Llama.Model, config: SamplerConfig)
    requires config.samplerMethod.MirostatV1?
    ensures var m := config.samplerMethod;
      MakeSampler(model, config).stages[2] == Llama.Mirostat(model.nVocab, m.seed, m.tau, m.eta, 100)
  {
  }

  /** MinP builds a top-p stage from its min-p threshold and keep count; no min-p stage. */
  lemma MinPBuildsTopP(model: Llama.Model, config: SamplerConfig)
    requires config.samplerMethod.MinP?
    ensures MakeSampler(model, config).stages[1] == Llama.TopP(config.samplerMethod.minP, config.samplerMethod.minKeep as nat)
  {
  }

  /** DRY stops matching at newline, colon, double quote and asterisk; XTC's stage and its final
      draw share one seed. */
  lemma DryAndXtcStages(model: Llama.Model, config: SamplerConfig)
    ensures config.samplerMethod.Dry? ==> MakeSampler(model, config).stages[1].seqBreakers == ["\n", ":", "\"", "*"]
    ensures config.samplerMethod.Xtc? ==>
      MakeSampler(model, config).stages[1].seed == MakeSampler(model, config).stages[2].seed == config.samplerMethod.seed
  {
  }

  /** The per-variant defaults: top-k keeps 40, top-p keeps mass 0.95 with no minimum count,
      temperature is 0.8; every seeded default uses seed 1234. */
  lemma Defaults()
    ensures DefaultTopK() == TopK(40, 1234)
    ensures DefaultTopP().topP == POINT_NINETY_FIVE && DefaultTopP().minKeep == 0
    ensures DefaultTemperature().temperature == POINT_EIGHT
    ensures forall m :: m in [DefaultDry(), DefaultTopK(), DefaultTopP(), DefaultMinP(), DefaultXtc(),
                              DefaultTypicalP(), DefaultTemperature(), DefaultMirostatV1(), DefaultMirostatV2()]
                        ==> m.seed == 1234
  {
  }
}
