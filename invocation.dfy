/**
 * What surrounds the model call: the configuration the step reads, the generation
 * parameters it sends, the shape of the reply it gets back and the token counters
 * it reports.
 */
module Invocation {
  import opened Wrappers
  import opened Json

  /** The configuration fields the step reads. `promptPath` is `None` when the attribute is
      missing or None; `topK` and `topP` are `Null` when missing or None. Temperature and the
      sampling values are passed through untouched. */
  datatype AppConfig = AppConfig(
    promptPath: Option<string>,
    maxTokens: Value,
    temperature: Value,
    topK: Value,
    topP: Value)

  /** The keys that every generation config carries. */
  const FixedConfigKeys: set<string> := {"response_mime_type", "candidate_count", "max_output_tokens", "temperature"}

  /** The four entries every generation config starts with. */
  function BaseConfig(config: AppConfig): (d: Dict)
    ensures Keys(d) == FixedConfigKeys
    ensures Get(d, "response_mime_type") == Some(Str("text/plain"))
    ensures Get(d, "candidate_count") == Some(Int(1))
    ensures Get(d, "max_output_tokens") == Some(config.maxTokens)
    ensures Get(d, "temperature") == Some(config.temperature)
  {
    var d: Dict := [("response_mime_type", Str("text/plain")), ("candidate_count", Int(1)),
      ("max_output_tokens", config.maxTokens), ("temperature", config.temperature)];
    KeysFront(d);
    KeysFront(d[1..]);
    KeysFront(d[2..]);
    KeysFront(d[3..]);
    d
  }

  /** `d[k] = v` performed only when `v` is not None. */
  function SetIfConfigured(d: Dict, k: string, v: Value): (r: Dict)
    ensures Keys(r) == Keys(d) + (if v != Null then {k} else {})
    ensures v != Null ==> Get(r, k) == Some(v)
    ensures forall k' :: k' != k ==> Get(r, k') == Get(d, k')
  {
    if v != Null then Update(d, k, v) else d
  }

  /** The generation-config dict: four fixed entries, then `top_k` and `top_p`, each only
      when configured. */
  function GenerationConfig(config: AppConfig): Dict {
    SetIfConfigured(SetIfConfigured(BaseConfig(config), "top_k", config.topK), "top_p", config.topP)
  }

  /** The config always asks for plain text and one candidate and carries the configured
      token limit and temperature; `top_k` and `top_p` are present exactly when configured,
      with the configured values; there is no other key. */
  lemma GenerationConfigFields(config: AppConfig)
    ensures var d := GenerationConfig(config);
      && Get(d, "response_mime_type") == Some(Str("text/plain"))
      && Get(d, "candidate_count") == Some(Int(1))
      && Get(d, "max_output_tokens") == Some(config.maxTokens)
      && Get(d, "temperature") == Some(config.temperature)
      && ("top_k" in Keys(d) <==> config.topK != Null)
      && ("top_p" in Keys(d) <==> config.topP != Null)
      && (config.topK != Null ==> Get(d, "top_k") == Some(config.topK))
      && (config.topP != Null ==> Get(d, "top_p") == Some(config.topP))
      && Keys(d) == FixedConfigKeys
        + (if config.topK != Null then {"top_k"} else {})
        + (if config.topP != Null then {"top_p"} else {})
  {
    assert "top_k" != "top_p" && "top_k" !in FixedConfigKeys && "top_p" !in FixedConfigKeys by {
      assert "top_k"[4] != "top_p"[4];
    }
  }

  /** The dict as the step builds it: the fixed entries first, then grown by `top_k` and
      `top_p` where configured. */
  method BuildGenerationConfig(config: AppConfig) returns (d: Dict)
    ensures d == GenerationConfig(config)
  {
    d := [("response_mime_type", Str("text/plain")), ("candidate_count", Int(1)),
      ("max_output_tokens", config.maxTokens), ("temperature", config.temperature)];
    if config.topK != Null {
      d := Update(d, "top_k", config.topK);
    }
    if config.topP != Null {
      d := Update(d, "top_p", config.topP);
    }
  }

  /** The fixed system instruction sent with every request. */
  const SystemInstruction: string :=
    "You are a sales insights generation assistant. Your entire response MUST be a single, "
    + "valid JSON formatted string. Do NOT include any explanations, markdown formatting (like ```json), "
    + "or any other text outside of this JSON string. The JSON object must strictly conform to the "
    + "GoldenPartnerMatchOutput schema. Use `null` for optional fields if the information is not present or cannot be determined. "
    + "The `analyzed_company_url` and `analyzed_company_attributes` fields will be populated post-analysis and should not be part of your generated JSON."

  /** The provider's usage counters; each may be absent. */
  datatype Usage = Usage(promptTokenCount: Option<int>, candidatesTokenCount: Option<int>, totalTokenCount: Option<int>)

  /** Reading `response.text` either yields the text or raises with a message. */
  datatype TextAccess = Text(text: string) | TextRaised(message: string)

  /** A response object: its text, whether its candidate list is non-empty, and its usage
      metadata (`None` when missing or empty). */
  datatype Response = Response(text: TextAccess, hasCandidates: bool, usage: Option<Usage>)

  /** How the retrying model call ends: with a response object or nothing, with a Google
      API error (message and class name), with a Pydantic validation error (its message),
      or with any other exception. */
  datatype CallOutcome =
    | Returned(response: Option<Response>)
    | ApiError(message: string, errorType: string)
    | ValidationRaised(message: string)
    | Raised(message: string, errorType: string)

  datatype TokenStats = TokenStats(promptTokens: int, completionTokens: int, totalTokens: int)

  const ZeroStats := TokenStats(0, 0, 0)

  /** Python's `count or 0` on an optional integer count. */
  function OrZero(count: Option<int>): int {
    if count.Some? && count.value != 0 then count.value else 0
  }

  /** The raw text the step keeps from a response: its text, or a diagnostic when reading
      the text raised. */
  function RawText(r: Response): string {
    match r.text
    case Text(t) => t
    case TextRaised(m) => "Error accessing response text: " + m
  }

  /** Token stats start at zero; when usage metadata is present each counter is overwritten
      by the provider's count, which is 0 when that count is absent. */
  method UsageStats(usage: Option<Usage>) returns (stats: TokenStats)
    ensures usage.None? ==> stats == ZeroStats
    ensures usage.Some? ==> stats == TokenStats(
      usage.value.promptTokenCount.GetOr(0),
      usage.value.candidatesTokenCount.GetOr(0),
      usage.value.totalTokenCount.GetOr(0))
  {
    stats := ZeroStats;
    if usage.Some? {
      var u := usage.value;
      stats := stats.(promptTokens := OrZero(u.promptTokenCount));
      stats := stats.(completionTokens := OrZero(u.candidatesTokenCount));
      stats := stats.(totalTokens := OrZero(u.totalTokenCount));
    }
  }
}
