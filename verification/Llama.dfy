/** The per-sample record a server monitor publishes (src/llama.rs). */
module Llama {
  import opened Domain

  /** One slot of the per-slot context overview. */
  datatype LlmSlotInfo = LlmSlotInfo(id: nat, busy: bool, contextUsed: Option<nat>, contextSize: Option<nat>)

  /** The fields of one sample that the modelled code reads or writes. */
  datatype LlmStats = LlmStats(
    connected: bool,
    metricsAvailable: bool,
    reconnecting: bool,
    contextSize: nat,
    contextUsed: Option<nat>,
    contextSlotId: Option<nat>,
    slotsAvailable: bool,
    slotsError: string,
    slotCount: nat,
    busySlots: nat,
    slotOverview: seq<LlmSlotInfo>,
    promptTotal: Option<Float>,
    generatedTotal: Option<Float>,
    requestPromptTokens: Option<nat>,
    requestGeneratedTokens: Option<nat>,
    promptTps: Option<Float>,
    generationTps: Option<Float>,
    specEnabled: bool,
    specIsMtp: bool,
    specNMax: Option<nat>,
    specDraftTokens: Option<Float>,
    specAcceptedTokens: Option<Float>,
    specAcceptancePct: Option<real>,
    error: string)

  const DEFAULT_STATS := LlmStats(
    false, false, false, 0, None, None, false, "", 0, 0, [], None, None, None, None,
    None, None, false, false, None, None, None, None, "")
}
