/**
 * `generate_sales_insights`: compile the prompt, call the model, recover a JSON object from
 * its reply, enrich and validate it, and turn every outcome, failures included, into a
 * triple of result (or none), raw text or diagnostic, and token counters.
 */
module Pipeline {
  import opened Wrappers
  import opened Text
  import opened Json
  import opened Prompt
  import opened Invocation
  import opened Enrichment

  /** How loading the template file ends: its text, a missing file, an attribute error,
      or any other exception, with its message. */
  datatype TemplateLoad =
    | Loaded(template: string)
    | NotFound
    | LoadAttributeError(message: string)
    | LoadFailed(message: string)

  /** What the step returns: the validated result if any, the raw reply or a diagnostic,
      and the token counters. */
  datatype Insights = Insights(result: Option<Dict>, raw: string, stats: TokenStats)

  const NotConfiguredMessage := "Error: PROMPT_PATH_COMPARISON_SALES_LINE not configured."
  const NoResponseMessage := "Error: No response object from GeminiClient."
  /** The AttributeError text Python reports when the attributes object is None. */
  const MissingTargetMessage := "Error: Configuration error - 'NoneType' object has no attribute 'model_dump_json'"
  /** The initial value of the template-path variable, which the not-found message avoids
      printing. */
  const UninitializedPath := "Path not initialized"

  predicate PromptPathConfigured(config: AppConfig) {
    config.promptPath.Some? && config.promptPath.value != ""
  }

  /** The diagnostic for a template that could not be loaded. */
  function TemplateErrorMessage(path: string, load: TemplateLoad): string
    requires !load.Loaded?
  {
    match load
    case NotFound => "Error: Prompt template file not found: " + (if path != UninitializedPath then path else "Unknown path")
    case LoadAttributeError(m) => "Error: Configuration error - " + m
    case LoadFailed(m) => "Error: Failed to load/format prompt - " + m
  }

  /** The diagnostic of the outer validation-error handler when no reply text was read. */
  function ValidationMessage(message: string): string {
    "Pydantic validation error: " + message
  }

  /** `json.dumps({"error": message, "type": errorType})`. */
  function ErrorJson(message: string, errorType: string): string {
    Dumps(Obj([("error", Str(message)), ("type", Str(errorType))]))
  }

  lemma ErrorKeyQuoted()
    ensures Quote("error") == "\"error\""
  {
    var w := "error";
    assert w == ['e', 'r', 'r', 'o', 'r'];
    assert EscapeChars(w[4..]) == "r";
    assert EscapeChars(w[3..]) == "or";
    assert EscapeChars(w[2..]) == "ror";
    assert EscapeChars(w[1..]) == "rror";
  }

  lemma TypeKeyQuoted()
    ensures Quote("type") == "\"type\""
  {
    var w := "type";
    assert w == ['t', 'y', 'p', 'e'];
    assert EscapeChars(w[3..]) == "e";
    assert EscapeChars(w[2..]) == "pe";
    assert EscapeChars(w[1..]) == "ype";
  }

  /** For a message and class name that need no escaping, the diagnostic is the two-key
      object written out literally: `{"error": "<message>", "type": "<class>"}`. */
  lemma ErrorJsonText(message: string, errorType: string)
    requires Printable(message) && Lacks(message, '"') && Lacks(message, '\\')
    requires Printable(errorType) && Lacks(errorType, '"') && Lacks(errorType, '\\')
    ensures ErrorJson(message, errorType)
      == "{" + (("\"error\"" + ": " + ("\"" + message + "\"")) + ", " + ("\"type\"" + ": " + ("\"" + errorType + "\""))) + "}"
  {
    DumpsTwoStrings("error", message, "type", errorType);
    ErrorKeyQuoted();
    TypeKeyQuoted();
    QuotePlain(message);
    QuotePlain(errorType);
  }

  /** The prompt can be compiled: the path is configured, the template loads and the
      attributes object exists. */
  predicate Compiles(config: AppConfig, target: Option<TargetAttributes>, loadTemplate: string -> TemplateLoad) {
    PromptPathConfigured(config) && loadTemplate(config.promptPath.value).Loaded? && target.Some?
  }

  /** How the model call ends when the prompt compiles. */
  function CallFor(config: AppConfig, target: Option<TargetAttributes>, partners: seq<Dict>,
                   loadTemplate: string -> TemplateLoad, generate: (string, Dict, string) -> CallOutcome): CallOutcome
    requires Compiles(config, target, loadTemplate)
  {
    var prompt := FormatPrompt(loadTemplate(config.promptPath.value).template, target.value.attributesJson, partners);
    generate(prompt, GenerationConfig(config), SystemInstruction)
  }

  /** The dict recovered from the reply text, if extraction yields a non-empty string that
      parses to a JSON object. */
  function ObjectIn(raw: string, extractJson: string -> Option<string>, parseJson: string -> Option<Value>): Option<Dict> {
    var extracted := extractJson(raw);
    if extracted.Some? && extracted.value != "" then
      match parseJson(extracted.value)
      case Some(Obj(d)) => Some(d)
      case _ => None
    else None
  }

  /** Token counters of a returned response: the provider's counts (0 when absent) when usage
      metadata is present, otherwise zero. */
  function StatsOf(r: Response): TokenStats {
    match r.usage
    case None => ZeroStats
    case Some(u) => TokenStats(u.promptTokenCount.GetOr(0), u.candidatesTokenCount.GetOr(0), u.totalTokenCount.GetOr(0))
  }

  /** The result for a returned response: the enriched object when the reply has candidates
      and non-blank text, an object can be recovered from it, enrichment does not raise and
      the object validates. */
  function ResultFor(r: Response, target: TargetAttributes, websiteSummary: Option<string>, partners: seq<Dict>,
                     extractJson: string -> Option<string>, parseJson: string -> Option<Value>, validates: Dict -> bool): Option<Dict>
  {
    var raw := RawText(r);
    if r.hasCandidates && !IsBlank(raw) && ObjectIn(raw, extractJson, parseJson).Some? then
      var e := Enriched(ObjectIn(raw, extractJson, parseJson).value, target, websiteSummary, partners);
      if e.Some? && validates(e.value) then e else None
    else None
  }

  /** Handling a returned response object: counters from its usage metadata, the raw text,
      and the extraction, parsing, enrichment and validation of the object in it. */
  method HandleResponse(
    r: Response,
    attributes: TargetAttributes,
    websiteSummary: Option<string>,
    partners: seq<Dict>,
    extractJson: string -> Option<string>,
    parseJson: string -> Option<Value>,
    validates: Dict -> bool)
    returns (out: Insights)
    ensures out == Insights(ResultFor(r, attributes, websiteSummary, partners, extractJson, parseJson, validates), RawText(r), StatsOf(r))
  {
    var raw := RawText(r);
    var stats := UsageStats(r.usage);
    var parsedOutput: Option<Dict> := None;
    if r.hasCandidates && !IsBlank(raw) {
      // Extraction, json.loads, and the TypeError a non-dict raises on item assignment;
      // every failure here ends with the raw text kept and no result.
      var parsed := ObjectIn(raw, extractJson, parseJson);
      if parsed.Some? {
        var enriched := Enrich(parsed.value, attributes, websiteSummary, partners);
        // A raising `.replace` leaves no result either; otherwise Pydantic decides.
        if enriched.Some? && validates(enriched.value) {
          parsedOutput := enriched;
        }
      }
    }
    return Insights(parsedOutput, raw, stats);
  }

  /** The step once the prompt compiles: the model call, and the triple for each way it ends. */
  method CallModel(
    config: AppConfig,
    target: Option<TargetAttributes>,
    websiteSummary: Option<string>,
    partners: seq<Dict>,
    loadTemplate: string -> TemplateLoad,
    generate: (string, Dict, string) -> CallOutcome,
    extractJson: string -> Option<string>,
    parseJson: string -> Option<Value>,
    validates: Dict -> bool)
    returns (out: Insights)
    requires Compiles(config, target, loadTemplate)
    ensures match CallFor(config, target, partners, loadTemplate, generate)
      case ApiError(m, t) => out == Insights(None, ErrorJson("Gemini API error: " + m, t), ZeroStats)
      case ValidationRaised(m) => out == Insights(None, ValidationMessage(m), ZeroStats)
      case Raised(m, t) => out == Insights(None, ErrorJson("Unexpected error: " + m, t), ZeroStats)
      case Returned(None) => out == Insights(None, NoResponseMessage, ZeroStats)
      case Returned(Some(r)) =>
        out == Insights(ResultFor(r, target.value, websiteSummary, partners, extractJson, parseJson, validates), RawText(r), StatsOf(r))
  {
    var attributes := target.value;
    var prompt := FormatPrompt(loadTemplate(config.promptPath.value).template, attributes.attributesJson, partners);
    var generationConfig := BuildGenerationConfig(config);
    var call := generate(prompt, generationConfig, SystemInstruction);
    match call {
      case ApiError(m, t) =>
        return Insights(None, ErrorJson("Gemini API error: " + m, t), ZeroStats);
      case ValidationRaised(m) =>
        return Insights(None, ValidationMessage(m), ZeroStats);
      case Raised(m, t) =>
        return Insights(None, ErrorJson("Unexpected error: " + m, t), ZeroStats);
      case Returned(response) =>
        if response.None? {
          return Insights(None, NoResponseMessage, ZeroStats);
        }
        out := HandleResponse(response.value, attributes, websiteSummary, partners, extractJson, parseJson, validates);
    }
  }

  /** The step end to end. It never raises: every failure becomes a triple with no result,
      and the counters stay zero unless a response object came back. */
  method GenerateSalesInsights(
    config: AppConfig,
    target: Option<TargetAttributes>,
    websiteSummary: Option<string>,
    partners: seq<Dict>,
    loadTemplate: string -> TemplateLoad,
    generate: (string, Dict, string) -> CallOutcome,
    extractJson: string -> Option<string>,
    parseJson: string -> Option<Value>,
    validates: Dict -> bool)
    returns (out: Insights)
    ensures out.result.Some? ==> validates(out.result.value)
    ensures !PromptPathConfigured(config) ==> out == Insights(None, NotConfiguredMessage, ZeroStats)
    ensures PromptPathConfigured(config) && !loadTemplate(config.promptPath.value).Loaded? ==>
      out == Insights(None, TemplateErrorMessage(config.promptPath.value, loadTemplate(config.promptPath.value)), ZeroStats)
    ensures PromptPathConfigured(config) && loadTemplate(config.promptPath.value).Loaded? && target.None? ==>
      out == Insights(None, MissingTargetMessage, ZeroStats)
    ensures Compiles(config, target, loadTemplate) ==>
      match CallFor(config, target, partners, loadTemplate, generate)
      case ApiError(m, t) => out == Insights(None, ErrorJson("Gemini API error: " + m, t), ZeroStats)
      case ValidationRaised(m) => out == Insights(None, ValidationMessage(m), ZeroStats)
      case Raised(m, t) => out == Insights(None, ErrorJson("Unexpected error: " + m, t), ZeroStats)
      case Returned(None) => out == Insights(None, NoResponseMessage, ZeroStats)
      case Returned(Some(r)) =>
        out == Insights(ResultFor(r, target.value, websiteSummary, partners, extractJson, parseJson, validates), RawText(r), StatsOf(r))
  {
    if !PromptPathConfigured(config) {
      return Insights(None, NotConfiguredMessage, ZeroStats);
    }
    var path := config.promptPath.value;
    var load := loadTemplate(path);
    if !load.Loaded? {
      return Insights(None, TemplateErrorMessage(path, load), ZeroStats);
    }
    if target.None? {
      // `model_dump_json` on None raises AttributeError before any enrichment is reached.
      return Insights(None, MissingTargetMessage, ZeroStats);
    }
    out := CallModel(config, target, websiteSummary, partners, loadTemplate, generate, extractJson, parseJson, validates);
  }
}
