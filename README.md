# Sales-insights generation step, modelled in Dafny

This project models `generate_sales_insights` from the Sales Prompt Pipeline. The step
compares one analysed company with a list of "golden partner" summaries by asking a
language model. It has four parts:

- **Prompt compilation.** The template is loaded. The attributes JSON and a numbered,
  newline-joined list of the partners (each written with `json.dumps`) are substituted
  for two placeholders.
- **Generation config.** The generation parameters are assembled, with the system
  instruction alongside.
- **Reply processing.** The model is called. Token usage is recorded. A JSON object is
  recovered from the reply.
- **Enrichment.** The object is enriched with the analysed company's URL, its attribute
  dump and its website summary. The first golden partner whose name equals the one the
  model matched supplies its description, leads per day and rank. The leads value is
  substituted into the `{programmatic placeholder}` of the phone sales line.

Every outcome becomes a triple: the validated result (or none), the raw reply or a
diagnostic, and three token counters. Within the model that includes every failure, so
the modelled step never raises; the few statements outside any handler that could
still raise in Python are listed under "## Left out".

Modules, one file each:

- `wrappers.dfy` (`Wrappers`): `Option`.
- `text.dfy` (`Text`): models three Python string operations:
  - `str.join` and `str.split` for a single-character separator;
  - `str.replace`: a left-to-right scan that does not overlap matches;
  - `str.isspace` / `strip()`.
- `json.dfy` (`Json`): JSON values with insertion-ordered objects, a model of Python
  dicts (`.get` and `d[k] = v`, truthiness, `str()`), and `json.dumps` with default
  separators and `ensure_ascii` escaping. A `Dict` is an entry list; the predicate
  `UniqueKeys` says no key occurs twice, as in a real dict, and `d[k] = v` is proved to
  keep it.
- `prompt.dfy` (`Prompt`): the numbered partner list and the two placeholder
  substitutions.
- `invocation.dfy` (`Invocation`):
  - the configuration read and the generation-config dict;
  - the fixed system instruction;
  - the shape of a response and of the call's outcome, and the token counters.
- `enrichment.dfy` (`Enrichment`): the in-place enrichment as a method with a partner
  scan loop, specified by the function `Enriched`. The lemmas state what it writes and
  what it leaves alone.
- `pipeline.dfy` (`Pipeline`): the whole step as a method, proved against the outcome of
  every branch.

Collaborators whose code is not part of this model are parameters of
`Pipeline.GenerateSalesInsights`:

| collaborator | how it is modelled |
|---|---|
| template loader | `string -> TemplateLoad` (text, file not found, attribute error, other failure) |
| retrying Gemini call | `(prompt, generation config, system instruction) -> CallOutcome` |
| `extract_json_from_text` | `string -> Option<string>` |
| `json.loads` | `string -> Option<Value>`, where `None` stands for `JSONDecodeError` |
| Pydantic validation of `GoldenPartnerMatchOutput` | `Dict -> bool` |

`model_dump_json(indent=2)` and `model_dump()` of the attributes object are carried as
the fields `attributesJson` and `attributes` of `Enrichment.TargetAttributes`.

Points where the code's behaviour is easy to misread:

- **Missing target attributes.** The enrichment has a branch for absent target attributes
  (lines 235-236), but nothing ever reaches it. A `None` attributes object already raises
  `AttributeError` at `model_dump_json` (line 77), and that error returns the
  configuration-error triple. `Pipeline.GenerateSalesInsights` states this outcome.
- **URL left unset.** When `input_summary_url` is None, the URL key is not written, so it
  keeps whatever value the model produced.
- **Failures after the text was read.** Some failures happen after the reply text has been
  read:
  - `json.loads` returns something other than a dict, so item assignment raises `TypeError`;
  - the sales line is truthy but not a string, so `.replace` raises.

  The inner handler does not catch these. They reach the outer `except Exception`, which
  returns the raw text (non-blank there), no result, and the counters already recorded.
  `Pipeline.ResultFor` states this.

## Model

| member | source | states |
|---|---|---|
| `Text.SplitJoin` | src/extractors/llm_tasks/generate_insights_task.py:79 | joining parts with a character none of them contains and splitting at that character gives back exactly the parts |
| `Text.ReplaceAbsent` | src/extractors/llm_tasks/generate_insights_task.py:81-82 | `str.replace` leaves a string without any occurrence of the pattern unchanged |
| `Text.ReplaceLeftmost` | src/extractors/llm_tasks/generate_insights_task.py:81-82 | `str.replace` replaces the leftmost occurrence, keeps everything before it, and resumes scanning right after it; together with ReplaceAbsent this pins down every result |
| `Text.ReplaceSingle` | src/extractors/llm_tasks/generate_insights_task.py:229-231 | a single occurrence between stretches lacking the pattern's first character is replaced in place and nothing else changes |
| `Json.Get` | src/extractors/llm_tasks/generate_insights_task.py:221-228 | dict lookup finds nothing exactly when the key is absent, and otherwise returns the value of an entry with that key |
| `Json.Update` | src/extractors/llm_tasks/generate_insights_task.py:215-231 | `d[k] = v` makes `k` map to `v` and leaves every other key's value alone; the key set gains `k`; a new key is appended at the end |
| `Json.UpdateKeepsPositions` | src/extractors/llm_tasks/generate_insights_task.py:215-231 | overwriting a key that is present keeps the length and every key in its position, and changes no entry under another key |
| `Json.UpdateKeepsUnique` | src/extractors/llm_tasks/generate_insights_task.py:215-231 | `d[k] = v` on a dict without duplicate keys yields one without duplicate keys |
| `Json.Dumps` | src/extractors/llm_tasks/generate_insights_task.py:79 | `json.dumps` with `ensure_ascii` yields printable ASCII only, so it never contains a newline |
| `Json.IntTextRoundTrip` | src/extractors/llm_tasks/generate_insights_task.py:230 | `str()` of an integer reads back as the same integer |
| `Json.NatDigitsValue` | src/extractors/llm_tasks/generate_insights_task.py:230 | the decimal digits of `n` denote `n` |
| `Json.QuotePlain` | src/extractors/llm_tasks/generate_insights_task.py:269 | a string needing no escape is dumped between plain double quotes |
| `Json.DumpsTwoStrings` | src/extractors/llm_tasks/generate_insights_task.py:269 | a two-entry object of strings is dumped as `{`, entry, `, `, entry, `}` with `: ` between key and value |
| `Prompt.NumberedLineSingle` | src/extractors/llm_tasks/generate_insights_task.py:79 | a numbered partner line never contains a newline |
| `Prompt.PartnerListLines` | src/extractors/llm_tasks/generate_insights_task.py:79 | the partner list splits at newlines into exactly the lines `"{i+1}. " + json.dumps(partner_i)`, in partner order |
| `Prompt.PartnerListShape` | src/extractors/llm_tasks/generate_insights_task.py:79 | the partner list is empty exactly when there are no partners, and never ends in a newline |
| `Prompt.FormatPromptNoPlaceholders` | src/extractors/llm_tasks/generate_insights_task.py:81-82 | a template without either placeholder compiles to itself |
| `Invocation.BaseConfig` | src/extractors/llm_tasks/generate_insights_task.py:112-117 | the fixed entries: mime type `text/plain`, one candidate, the configured max tokens and temperature, and no other key |
| `Invocation.SetIfConfigured` | src/extractors/llm_tasks/generate_insights_task.py:118-121 | an optional entry is added exactly when its value is not None, and nothing else changes |
| `Invocation.GenerationConfigFields` | src/extractors/llm_tasks/generate_insights_task.py:112-121 | the config always has mime type `text/plain` and candidate count 1, the configured max tokens and temperature; it has `top_k` / `top_p` if and only if configured, with the configured values, and no other keys |
| `Invocation.BuildGenerationConfig` | src/extractors/llm_tasks/generate_insights_task.py:112-121 | growing the dict step by step yields exactly the generation config above |
| `Invocation.UsageStats` | src/extractors/llm_tasks/generate_insights_task.py:186-191 | counters are zero without usage metadata; with it, each counter is the provider's count, or 0 when that count is absent |
| `Enrichment.DistinctKeys` | src/extractors/llm_tasks/generate_insights_task.py:215-231 | the keys the enrichment writes are pairwise distinct, and the matched-name key is not among them |
| `Enrichment.FirstMatch` | src/extractors/llm_tasks/generate_insights_task.py:223-224 | the found index holds a partner with the name and no earlier partner has it; nothing is found exactly when no partner has it |
| `Enrichment.InjectedFacts` | src/extractors/llm_tasks/generate_insights_task.py:214-220 | injection writes the attribute dump always, the URL only when known, the summary only when non-empty, and changes no other key |
| `Enrichment.CopiedFacts` | src/extractors/llm_tasks/generate_insights_task.py:225-227 | copying writes the partner's summary, leads and rank under the three partner keys and changes no other key |
| `Enrichment.WithPartnerFacts` | src/extractors/llm_tasks/generate_insights_task.py:225-231 | copying a partner raises exactly when the sales line is truthy, leads are known and the line is not a string; otherwise it writes the three fields, substitutes the placeholder under that same condition, and leaves other keys alone |
| `Enrichment.ClaimedNameKept` | src/extractors/llm_tasks/generate_insights_task.py:214-221 | the name used for the lookup is the one the model produced |
| `Enrichment.EnrichedTargetFields` | src/extractors/llm_tasks/generate_insights_task.py:214-220 | after enrichment the attribute dump is always present, the URL is the target's when known and the model's otherwise, and the summary is the website summary when non-empty and the model's otherwise |
| `Enrichment.EnrichedKeepsOtherKeys` | src/extractors/llm_tasks/generate_insights_task.py:213-232 | every key the enrichment does not write keeps the model's value |
| `Enrichment.EnrichedPartnerHit` | src/extractors/llm_tasks/generate_insights_task.py:221-232 | for a claimed name whose first holder is partner `k`, that partner's fields are copied and later partners play no part; the sales line gets every placeholder replaced by `str(leads)` when it is truthy and leads are known, and is unchanged otherwise |
| `Enrichment.EnrichedPartnerMiss` | src/extractors/llm_tasks/generate_insights_task.py:221-234 | with no name, the sentinel or no matching partner, no partner-derived key and not the sales line is changed, and nothing raises |
| `Enrichment.SubstituteLeadsOnce` | src/extractors/llm_tasks/generate_insights_task.py:229-231 | a sales line with one placeholder and no other `{` gets the leads' text in exactly that spot |
| `Enrichment.InjectedKeys` | src/extractors/llm_tasks/generate_insights_task.py:214-220 | injection adds the attribute key always, the URL key when the URL is known and the summary key when the summary is non-empty, and no other key |
| `Enrichment.ClaimedPartnerKeeps` | src/extractors/llm_tasks/generate_insights_task.py:221-232 | the partner lookup changes no key besides the three partner-derived keys and the sales line |
| `Enrichment.LookUpPartner` | src/extractors/llm_tasks/generate_insights_task.py:221-232 | the scan over the partners with its `break` at the first name hit computes exactly the lookup-and-copy of the first matching partner |
| `Enrichment.InjectTarget` | src/extractors/llm_tasks/generate_insights_task.py:214-220 | the in-place writes produce the injected object |
| `Enrichment.CopyPartner` | src/extractors/llm_tasks/generate_insights_task.py:225-231 | the in-place writes for a matched partner produce the partner-enriched object, or the failure |
| `Enrichment.Enrich` | src/extractors/llm_tasks/generate_insights_task.py:213-232 | the in-place enrichment with its first-hit scan and `break` computes exactly `Enriched` |
| `Pipeline.ErrorJsonText` | src/extractors/llm_tasks/generate_insights_task.py:269 | for a message and class name that need no escaping, the API-error diagnostic is literally `{"error": "<message>", "type": "<class>"}` |
| `Pipeline.HandleResponse` | src/extractors/llm_tasks/generate_insights_task.py:179-264 | a returned response yields its raw text and its usage counters; the result is the enriched object only when there are candidates, the text is non-blank, an object is extracted and parsed, enrichment does not raise and validation succeeds |
| `Pipeline.CallModel` | src/extractors/llm_tasks/generate_insights_task.py:168-281 | once the prompt compiles, each way the call ends gives its triple: API error and other errors as the JSON diagnostic with zero counters, a validation error raised by the call as `"Pydantic validation error: " + message` with zero counters, no response object as its diagnostic, a response as HandleResponse describes |
| `Pipeline.GenerateSalesInsights` | src/extractors/llm_tasks/generate_insights_task.py:65-281 | a result is always a validated object; every branch gives its triple: unconfigured path, template failures, missing attributes, API error, validation error from the call, other error, no response object, and a returned response |

## Left out

- The Gemini client and its retry policy (line 170): the call is a parameter returning a
  `CallOutcome`.
- `extract_json_from_text`, `json.loads`, `model_dump`, `model_dump_json`,
  `load_prompt_template` and Pydantic validation are parameters or input fields, not
  modelled code. Pydantic's coercion of the enriched dict into `GoldenPartnerMatchOutput`
  is not modelled: the result is the validated dict itself.
- Artifact saving (lines 101-109, 158-166, 197-205): file I/O whose failures are only
  logged.
- Filename sanitising and building (lines 95-100, 157) and the request-payload dict
  (lines 151-156) run outside every handler. The model assumes they cannot fail: a
  sanitiser that raises, or a config without `llm_model_name_sales_insights`, would make
  the Python function raise to its caller, and that is not modelled.
- Logging throughout. It has no effect on the returned triple.
- The `serializable_contents` copy loop (lines 143-149): it only feeds the logged payload.
- `genai_types.GenerationConfig(**...)` construction and its two error returns
  (lines 123-129): a library constructor whose failures are not part of this model.
  `Invocation.AppConfig` assumes `llm_max_tokens` and `llm_temperature_creative` exist;
  the model does not cover them being absent.
- Floating-point values are opaque: a float is its `repr` text, passed through to
  `str()` and `json.dumps` (which writes `NaN` / `Infinity` for non-finite ones).
- Json.PyStr: `str()` of a list or dict is rendered as its JSON text, not Python's
  `repr`. Only a leads value that is a list or dict is affected.
- Value equality is structural. Python's `1 == 1.0 == True` and order-insensitive dict
  equality are not modelled, and those only matter for the partner-name comparison.
- Partners are dicts, as the signature says. A caller passing plain strings (as the
  smoke script `test_sales_prompt.py` does) would make `partner.get` raise; that path is
  not modelled.
- The outer `PydanticValidationError` handler (lines 271-274) is modelled only for a
  validation error raised by the model call itself (`CallOutcome.ValidationRaised`).
  One raised while the usage metadata is read (lines 186-189) would return the text
  already read with the counters set so far; exceptions from those reads are not
  modelled.
- Dicts with duplicate keys: a `Dict` is not constrained to `UniqueKeys` by its type, so
  the contracts also speak of entry lists no Python dict produces; for those `Get` reads
  the first entry of a key.
- Messages of exceptions (`str(e)`, the API error's `message` attribute, the class name)
  are opaque strings supplied by the outcome parameters.
