# Perplexity web-UI client: query payload and response accumulation

This project models the protocol core of the Perplexity web-UI client in four
generations of its code:

- `perplexity.py` (`Script`);
- `src/perplexity_api/` (`Api`);
- `src/perplexity_webui_scraper/__init__.py` (`Scraper`);
- `src/perplexity_webui_scraper/core.py` with `utils.py` (`Core`).

All four do the same three things:

- `_prepare_json_data` builds the JSON body of one query. The query text sits at the top level and every setting sits under `params`.
- `_extract_json_line` decodes the server-sent-event lines of the answer stream.
- `_process_data` and `_update_response_data` fold each decoded event into the client's response fields:
  - title, answer, chunks, last chunk and search results;
  - the conversation id;
  - the raw answer data.

  An `AskCall` (or perplexity.py's `ask` itself) either runs this loop to the end or exposes it as a generator.

Modules:

- `json.dfy` (`Json`): decoded JSON values, and the Python operations the client applies to them. These are truthiness, `in`, `.get`, `[]`, `list(...)`, `x[-1] if x else None` and `orjson.loads`. Every operation that can raise returns the exception it raises.
- `enums.dfy` (`Enums`): the generations, and the citation-mode, search-focus, source-focus and time-range enumerations with their wire values.
- `scraper_models.dfy`, `api_models.dfy`, `script_models.dfy`: the three model tables. The scraper's table includes its nested `ModelType` namespace.
- `payload.dfy` (`Payload`): the request body and `ask`'s argument check.
- `sse.dfy` (`Sse`): the line decoder.
- `citations.dfy` (`Citations`): `format_citations`. Its regular expression is modelled as a left-to-right tokenizer.
- `accumulator.dfy` (`Accumulator`): reset, process and update, as functions of the previous response fields. An exception in the middle of an update keeps the fields already assigned, so every step returns the state it reached together with the exception it raised.
- `calls.dfy` (`Calls`): the blocking loop, the generator pulled a given number of times, and the response records built from the fields.
- `client.dfy` (`Client`): the classes `Perplexity` and `AskCall`.
  - `Perplexity` holds the response fields and updates them in place.
  - Its methods are loops with invariants, each proved to reach exactly the state and the exception the functions of `Accumulator` and `Calls` give.

The network is replaced by parameters:

- a call is given the lines of its response;
- `orjson.loads` is a parameter `Decoder` (a function from text to an optional JSON value).

Behaviour of the code worth knowing when reading the model:

- A data line whose payload is not JSON raises `JSONDecodeError` from `loads` (src/perplexity_webui_scraper/core.py:54-58) and ends the call; no frame is skipped.
- HTTP status codes are not classified. `raise_for_status` (src/perplexity_webui_scraper/utils.py:118) is outside the model.
- `ask` raises `ValueError` for more than ten attachments (perplexity.py:316, src/perplexity_api/__init__.py:346, src/perplexity_webui_scraper/__init__.py:255). In core.py the check is commented out (core.py:181), and core.py always sends an empty attachment list.
- The conversation id is taken from the first event that carries `backend_uuid` while the id is still None (core.py:106-107). A `null` id therefore does not block a later one.
- Every event whose `text` decodes to an object updates the answer (core.py:126-127), not only the event holding the `FINAL` step.
- When core.py's `FINAL` step holds an answer that is not a single brace-wrapped line, core.py uses the whole `content` object as the answer data (core.py:118-122).
- perplexity.py converts a list of sources element by element through `.value` (perplexity.py:194-197). A list of plain values therefore raises `AttributeError` unless it is empty; any other value is sent as it is.

## Model

| member | source | states |
|---|---|---|
| Json.Contains | src/perplexity_webui_scraper/core.py:106 | `key in x`: a key of a dict, an element of a list, a substring of a string; a number, a boolean or None raises `TypeError` |
| Json.OccursSpec | src/perplexity_webui_scraper/core.py:106 | `in` on a string is the substring test: true exactly when some slice of the string equals the key |
| Json.DictGet | src/perplexity_webui_scraper/core.py:115 | `.get` succeeds exactly on dicts, giving the stored value when the key is present and the default otherwise; anything else raises `AttributeError` |
| Json.Subscript | src/perplexity_webui_scraper/core.py:107 | `x[key]` succeeds exactly when `x` is a dict holding `key`; a dict without it raises `KeyError` |
| Json.Iterate | src/perplexity_webui_scraper/core.py:137 | iterating a list gives its items; a number, a boolean or None raises |
| Json.LastOrNone | src/perplexity_webui_scraper/core.py:142 | a falsy value gives None; a non-empty list its last item; a non-empty string its last character; a truthy dict, number or `True` raises |
| Json.Loads | src/perplexity_webui_scraper/core.py:110 | only text is decoded; non-text or undecodable text raises `JSONDecodeError`, decodable text gives what the decoder gives |
| Enums.TimeRangeWireValues | src/perplexity_webui_scraper/utils.py:80-96 | `ALL` is the only member sent as null and never as a string; each other member is sent as its upper-case period name, and that name identifies it |
| Enums.WireValuesDistinct | src/perplexity_webui_scraper/utils.py:35-77 | the source-focus, search-focus and citation-mode value tables are injective |
| ScraperModels.ClassMethod | src/perplexity_webui_scraper/models.py:1-13 | only `_get_identifier` and `_get_mode` exist on a model class; they return its identifier and its mode, and any other name raises |
| ScraperModels.Resolve | src/perplexity_webui_scraper/models.py:16-83 | evaluating a dotted name below `ModelType` fails only with `AttributeError` |
| ScraperModels.ResolvePath | src/perplexity_webui_scraper/models.py:16-83 | every model class is reachable under its dotted name (`Pro.Reasoning.o3`, `Research`, ...), and that name resolves to that model |
| ScraperModels.KnownIdentifiers | src/perplexity_webui_scraper/models.py:22-83 | `Pro.Best` is `pplx_pro`, `Research` is `pplx_alpha`, every model runs in `copilot` mode |
| ScraperModels.IdentifiersNotClassNames | src/perplexity_webui_scraper/models.py:34-76 | identifiers are not derived from the class names (`Claude40Sonnet` sends `claude2`) |
| ScraperModels.IdentifiersDistinct | src/perplexity_webui_scraper/models.py:16-83 | no two models share an identifier |
| ScraperModels.BestIsNotTopLevel | src/perplexity_webui_scraper/core.py:150 | the default `ModelType.Best` names no attribute and raises `AttributeError` |
| ScraperModels.DefaultModel | src/perplexity_webui_scraper/core.py:165 | the documented default `ModelType.Pro.Best` resolves, to the model with identifier `pplx_pro` |
| ApiModels.KnownIdentifiers | src/perplexity_api/models.py:16-83 | `Pro.Best`, `Research` and `Pro.Grok3Beta` carry `pplx_pro`, `pplx_alpha` and `grok`; every mode is `copilot` |
| ApiModels.IdentifiersDistinct | src/perplexity_api/models.py:16-83 | no two models share an identifier |
| ScriptModels.TableFacts | perplexity.py:62-129 | every mode is `copilot` and no two models share an identifier |
| Payload.SourcesRoundTrip | src/perplexity_webui_scraper/core.py:73 | the `sources` list reads back as exactly the selected members, in the order given |
| Payload.SingleSource | src/perplexity_webui_scraper/core.py:73 | a single member is sent as the one-element list a list of it would give |
| Payload.PrepareJsonData | src/perplexity_webui_scraper/core.py:60-100 | the body is an object with exactly two entries; it fails, with `AttributeError`, exactly when perplexity.py's source conversion fails |
| Payload.ValueListSources | perplexity.py:194-197 | a non-empty list of plain values makes building the payload raise `AttributeError`, also through `ask`; an empty list is sent as `[]` |
| Payload.QueryTextField | src/perplexity_webui_scraper/core.py:75-100 | a built body holds the query text as the top-level `query_str` and the settings as the `params` object; `query_str` is not among the settings |
| Payload.CopiedFields | src/perplexity_webui_scraper/core.py:78-89 | `language`, `sources`, `model_preference` and `mode` carry the caller's language, sources and model |
| Payload.DerivedFields | src/perplexity_webui_scraper/core.py:80-92 | `client_coordinates` is null exactly when no coordinates are given; `is_incognito` is the negation of `save_to_library`; `search_recency_filter` is null exactly for `ALL` |
| Payload.GenerationFields | perplexity.py:192-213 | `search_focus` is a list exactly in perplexity.py; `use_schematized_api` is false exactly in core.py |
| Payload.OptionalFields | src/perplexity_webui_scraper/core.py:77-79 | `attachments` is always a list, empty when none are given; `timezone` is null exactly when none is given |
| Payload.ParamsKeys | src/perplexity_webui_scraper/core.py:76-98 | `params` lists fifteen keys in a fixed order |
| Payload.ParamNamesDistinct | src/perplexity_webui_scraper/core.py:76-98 | no key of `params` is listed twice |
| Payload.ParamsKeyed | src/perplexity_webui_scraper/core.py:76-98 | each key of `params` finds the value listed beside it |
| Payload.ConstantFields | src/perplexity_webui_scraper/core.py:94-97 | the local-search, prompt-source, send-back-text and version constants |
| Payload.AskAttachmentLimit | src/perplexity_webui_scraper/__init__.py:255-256 | more than ten attachment URLs raise `ValueError`, and exactly ten get through to building the payload; core.py sends an empty attachment list whatever it is given, and outside perplexity.py `ask` fails only on the attachment check |
| Payload.AskPayload | src/perplexity_api/__init__.py:346-361 | core.py always builds its payload; elsewhere more than ten attachments raise `ValueError`; the only other exception is perplexity.py's `AttributeError` from its source conversion; the scraper package's accessors and core.py's default model are taken as corrected (see Findings) |
| Payload.DefaultDescriptor | src/perplexity_api/__init__.py:318 | the default model of `ask` is sent as `pplx_pro` in `copilot` mode |
| Payload.DefaultArguments | src/perplexity_webui_scraper/core.py:145-157 | a plain `ask(query)` builds its payload without raising and sends no attachments, the `web` source, the `internet` focus, no time filter, `pplx_pro`, incognito, and `en-US` with no timezone or coordinates (perplexity.py: its probed locale) |
| Payload.ScraperDescriptor | src/perplexity_webui_scraper/core.py:88-89 | the identifier and mode sent are what `_get_identifier()` and `_get_mode()` return |
| Payload.ScraperAccessorMissing | src/perplexity_webui_scraper/__init__.py:114-115 | as written, reading `get_identifier()` from that package's models raises `AttributeError` for every model |
| Sse.ExtractJsonLine | src/perplexity_webui_scraper/core.py:53-58 | a line without the `data: ` prefix gives None; a data line gives the decoded text after the prefix, or raises when that text is not JSON |
| Sse.FrameRoundTrip | src/perplexity_webui_scraper/core.py:53-58 | framing a payload as a data line and extracting it gives exactly what decoding the payload gives |
| Sse.NonDataLines | src/perplexity_webui_scraper/core.py:53-58 | blank lines, comments, `event:` lines and `data:` without the space are not data lines |
| Citations.MarkerLength | src/perplexity_webui_scraper/utils.py:196 | a marker starts at a position exactly when `[d]` or `[dd]` stands there followed by the end of the text or a non-word character; the length found is that marker's |
| Citations.Tokenize | src/perplexity_webui_scraper/utils.py:196 | every marker the scan finds holds one or two digits |
| Citations.TokenizeSplit | src/perplexity_webui_scraper/utils.py:196 | the scan of a text is the scan up to any `[` followed by the scan from it: no match crosses a `[` |
| Citations.MarkerToken | src/perplexity_webui_scraper/utils.py:196 | a marker at any position of the text is scanned as one marker token, with the text before and after it scanned on their own |
| Citations.TokenizeRoundTrip | src/perplexity_webui_scraper/utils.py:196 | the scan loses nothing: its tokens spell the input again |
| Citations.DigitsValue | src/perplexity_webui_scraper/utils.py:177-182 | a marker's number is at most 99 |
| Citations.FormatCitations | src/perplexity_webui_scraper/utils.py:172-196 | the default mode and a falsy answer return the answer unchanged; a truthy non-string raises; a string answer is rewritten marker by marker |
| Citations.Render | src/perplexity_webui_scraper/utils.py:176-194 | a plain character, and any marker in the default mode or out of range, is kept as written |
| Citations.RenderForms | src/perplexity_webui_scraper/utils.py:176-194 | every token is kept as written, removed (clean mode only), or followed by `(url)` of its result (markdown mode only) |
| Citations.OutOfRangeUntouched | src/perplexity_webui_scraper/utils.py:182-194 | a marker `[0]`, or one past the last search result, is left as it is in every mode |
| Citations.InRangeMarker | src/perplexity_webui_scraper/utils.py:184-192 | an in-range `[n]` refers to result `n-1`: markdown mode links it when the url is non-empty and keeps it otherwise; clean mode deletes it |
| Citations.DefaultModeIdentity | src/perplexity_webui_scraper/utils.py:173-174 | the default mode never changes a text |
| Citations.NoResultsIdentity | src/perplexity_webui_scraper/utils.py:182-194 | without search results no mode changes a text |
| Citations.CleanShortens | src/perplexity_webui_scraper/utils.py:189-190 | clean mode never makes a text longer |
| Citations.NoBracketIdentity | src/perplexity_webui_scraper/utils.py:196 | a text without `[` comes back unchanged in every mode |
| Citations.MarkerRendered | src/perplexity_webui_scraper/utils.py:176-196 | outside the default mode, a marker at any position is replaced by what `citation_replacer` gives for it, and the text on either side is formatted on its own |
| Citations.CleanDeletesMarker | src/perplexity_webui_scraper/utils.py:189-190 | clean mode deletes an in-range marker wherever it stands in the text |
| Citations.MarkdownLinksMarker | src/perplexity_webui_scraper/utils.py:186-188 | markdown mode puts `(url)` of result `n-1` after an in-range marker `[n]` with a non-empty url, wherever it stands in the text |
| Citations.MarkerThree | src/perplexity_webui_scraper/utils.py:184-194 | `[3]` is kept with fewer than three results, becomes `[3](url)` in markdown mode with a url, and disappears in clean mode |
| Citations.WordCharBlocksMarker | src/perplexity_webui_scraper/utils.py:196 | `[12]x` is not a marker and survives clean mode |
| Citations.MarkerAtEnd | src/perplexity_webui_scraper/utils.py:196 | only the following side is checked: `x[1]` loses its marker in clean mode |
| Accumulator.Empty | src/perplexity_webui_scraper/core.py:44-51 | after a reset, title, answer, last chunk and conversation id are None, chunks is `[]`, raw data is `{}`, and search results are an empty list |
| Accumulator.TextOrNone | src/perplexity_webui_scraper/utils.py:12-15 | a record field validates exactly when it is a string or None; anything else raises a validation error |
| Accumulator.ValidateAll | src/perplexity_webui_scraper/core.py:135-139 | the records validate exactly when every dict validates, one record per dict in order; otherwise a validation error |
| Accumulator.Dicts | src/perplexity_webui_scraper/core.py:137-138 | the comprehension never gives more records than entries; `Accumulator.DictsAppend` states that it keeps exactly the dict entries, in order, and `Accumulator.DictsNone`, `Accumulator.DictsAll` and `Accumulator.DictsFromList` spell out the pure cases |
| Accumulator.DictsAppend | src/perplexity_webui_scraper/core.py:137-138 | the filter works entry by entry: a single entry is kept exactly when it is a dict, and the records of a concatenation are those of its parts, in order |
| Accumulator.DictsNone | src/perplexity_webui_scraper/core.py:137-138 | a result list without dicts gives no records |
| Accumulator.DictsAll | src/perplexity_webui_scraper/core.py:137-138 | a result list of dicts gives one record per entry, in order |
| Accumulator.DictsFromList | src/perplexity_webui_scraper/core.py:137-138 | every record comes from a dict entry of the list |
| Accumulator.ItemRenamesName | src/perplexity_webui_scraper/core.py:136 | a result's `name` becomes the record's title; a `title` key is not read; a non-string name fails validation |
| Accumulator.Update | src/perplexity_webui_scraper/core.py:129-143 | the title is always assigned and the conversation id never touched; a non-dict raises `AttributeError` after the title; a completed update leaves raw data equal to the answer data, the chunks it holds and a consistent last chunk; outside core.py the answer and the search results are `answer_data.get("answer")` and `answer_data.get("web_results", [])`, in core.py the search results are validated records; an update of a dict completes exactly when `chunks` has a last element or is falsy and, in core.py, the results validate and the answer can be formatted |
| Accumulator.UpdateReplaces | src/perplexity_webui_scraper/core.py:134-143 | a completed update does not depend on the previous response fields |
| Accumulator.CoreAnswerFormatted | src/perplexity_webui_scraper/core.py:135-140 | core.py stores the answer passed through the citation formatter with the freshly built records: unchanged in the default mode and when there are no records |
| Accumulator.StepIsFinal | src/perplexity_api/__init__.py:228 | the test succeeds on dicts (perplexity.py:230: only on dicts holding `step_type`), and when it succeeds it is true exactly for `step_type == "FINAL"` |
| Accumulator.FirstFinal | src/perplexity_webui_scraper/core.py:114-125 | the scan finds the first `FINAL` step after ordinary ones, finds none exactly when every step is ordinary, or raises at a step after ordinary ones |
| Accumulator.FirstFinalFrom | src/perplexity_webui_scraper/core.py:114-125 | the scan's result depends only on the steps up to the first `FINAL` one |
| Accumulator.OnlyFirstFinalCounts | src/perplexity_webui_scraper/core.py:125 | the steps after the first `FINAL` one can be anything |
| Accumulator.ScanRaises | src/perplexity_webui_scraper/__init__.py:136-137 | a non-dict step before the first `FINAL` one raises `AttributeError` (perplexity.py: a dict without `step_type` raises `KeyError`) |
| Accumulator.UuidFirstWriteWins | src/perplexity_webui_scraper/core.py:106-107 | once known, the conversation id is never overwritten; perplexity.py never sets one |
| Accumulator.Process | src/perplexity_webui_scraper/core.py:102-127 | a known conversation id (and perplexity.py's) is kept; an unknown one becomes the event's `backend_uuid`, or stays None; an event without `text` changes nothing else and raises nothing; the `FINAL` and dict cases are stated by the lemmas below |
| Accumulator.UuidFromFirstCarrier | src/perplexity_webui_scraper/core.py:106-107 | while unknown, an event carrying `backend_uuid` supplies it, whatever else the event does; an event without it leaves it unset |
| Accumulator.EventWithoutText | src/perplexity_webui_scraper/core.py:109 | an event without `text` changes nothing but the conversation id |
| Accumulator.NoFinalStepNoUpdate | src/perplexity_webui_scraper/core.py:113-125 | a list of steps without a `FINAL` one changes nothing but the conversation id |
| Accumulator.WrappedFinalAnswer | src/perplexity_api/__init__.py:226-240 | the `FINAL` step's `content.answer` becomes the answer, with no chunks, no last chunk and no search results |
| Accumulator.ScriptFinalDecoded | perplexity.py:228-245 | perplexity.py decodes the `FINAL` step's answer and updates with it; if it is not a dict the update raises |
| Accumulator.CoreFinalPayload | src/perplexity_webui_scraper/core.py:116-122 | core.py uses the decoded answer when it is a brace-wrapped line and the whole `content` otherwise; a brace-wrapped answer that does not decode raises |
| Accumulator.FinalPayload | src/perplexity_webui_scraper/core.py:116-122 | the answer data of the `FINAL` step: perplexity.py decodes `content["answer"]`, src/perplexity_api and the scraper package wrap it as `{"answer": ...}`, and core.py takes the decoded brace-wrapped answer or the whole `content` |
| Accumulator.DictTextUsedDirectly | src/perplexity_webui_scraper/core.py:126-127 | a `text` that decodes to an object is the answer data itself |
| Accumulator.TitleDefault | src/perplexity_webui_scraper/__init__.py:138 | a missing `thread_title` gives `""`, except in core.py, where it is None |
| Accumulator.LastChunkInvariant | src/perplexity_webui_scraper/core.py:142 | the last chunk is the last of the chunks (or None) after a reset and after every event processed without an exception |
| Calls.FinalFlag | src/perplexity_webui_scraper/utils.py:126 | `data.get("final")` is truthy exactly when the key holds a truthy value; a non-dict event raises |
| Calls.StepLine | src/perplexity_webui_scraper/utils.py:120-127 | a non-data line is skipped without effect; only a processed event can end the loop |
| Calls.Feed | src/perplexity_webui_scraper/utils.py:120-127 | a loop that stops at a `final` event raised nothing |
| Calls.FeedAppend | src/perplexity_webui_scraper/utils.py:120-127 | lines after the one that stopped the loop have no effect; otherwise the loop continues from where it was |
| Calls.SkippedLines | src/perplexity_webui_scraper/utils.py:121-123 | non-data lines and falsy events are skipped |
| Calls.MalformedFrameRaises | src/perplexity_webui_scraper/utils.py:121 | a data line that is not JSON ends the loop with `JSONDecodeError` and no change |
| Calls.FinalEventStops | src/perplexity_webui_scraper/utils.py:126-127 | an event with a truthy `final` is the last one processed |
| Calls.FeedKeepsUuid | src/perplexity_webui_scraper/core.py:106-107 | across a whole loop, a known conversation id stays |
| Calls.FeedKeepsLastChunk | src/perplexity_webui_scraper/core.py:142 | a loop that ends without an exception leaves a consistent last chunk |
| Calls.CopyResults | src/perplexity_webui_scraper/utils.py:164 | copying a list of results gives the same list |
| Calls.SnapshotOf | src/perplexity_webui_scraper/utils.py:159-166 | a snapshot carries the event as raw data, with the current title, answer and last chunk and with `list(...)` copies of the chunks and the search results; it is built exactly when both copies can be made; perplexity.py yields the event itself |
| Calls.StreamFrom | src/perplexity_webui_scraper/utils.py:153-169 | a generator pulled `n` times yields at most `n` values |
| Calls.StreamPrefix | src/perplexity_webui_scraper/utils.py:153-169 | pulling once more only extends what was received |
| Calls.StreamCount | src/perplexity_webui_scraper/utils.py:153-169 | a generator whose pulls raise nothing yields one value per pull until the loop's events run out |
| Calls.StreamEventsPrefix | src/perplexity_webui_scraper/utils.py:153-169 | the yields received carry, in order, the first events the loop processes |
| Calls.StreamMatchesRun | src/perplexity_webui_scraper/utils.py:104-169 | pulled more often than there are lines and without an exception, the generator yields once per processed event and leaves the state the blocking loop leaves, which raised nothing either |
| Calls.ResponseOf | src/perplexity_webui_scraper/utils.py:129-135 | the response carries the title, answer and raw data, with `list(...)` copies of the chunks and the search results; it is built exactly when both copies can be made |
| Calls.RunResult | src/perplexity_webui_scraper/utils.py:104-135 | an exception in the loop escapes `run`; otherwise the result is the response built from the fields the loop left, carrying their title, answer and raw data and copies of their chunks and search results |
| Client.Perplexity.constructor | src/perplexity_webui_scraper/core.py:41-42 | the citation mode starts at `DEFAULT` and the fields are reset |
| Client.Perplexity.ResetResponseData | src/perplexity_webui_scraper/core.py:44-51 | the fields become the reset state |
| Client.Perplexity.UpdateResponseData | src/perplexity_webui_scraper/core.py:129-143 | assigning the fields in the source's order reaches the state and exception `Accumulator.Update` gives |
| Client.Perplexity.ProcessData | src/perplexity_webui_scraper/core.py:102-127 | the uuid step, the text decoding and the update reach the state and exception `Accumulator.Process` gives |
| Client.Perplexity.ScanSteps | src/perplexity_webui_scraper/core.py:113-124 | the step loop stops at the first `FINAL` step and reaches the state and exception `Accumulator.ApplySteps` gives |
| Client.Perplexity.ReadLine | src/perplexity_webui_scraper/utils.py:120-124 | parsing a line and processing a truthy event reach the state `Calls.StepLine` gives; the event is reported exactly when it was processed without an exception |
| Client.Perplexity.Consume | src/perplexity_webui_scraper/utils.py:120-127 | the line loop reaches the state and exception `Calls.Feed` gives |
| Client.Perplexity.Pull | src/perplexity_webui_scraper/utils.py:153-169 | the generator loop reaches the state, the yields and the exception `Calls.StreamFrom` gives |
| Client.Perplexity.Ask | src/perplexity_webui_scraper/core.py:145-197 | core.py stores the citation mode; no response field changes; a fresh call object holds the payload, or `ask` raises `ValueError` |
| Client.Perplexity.AskDefault | src/perplexity_webui_scraper/core.py:145-157 | a plain `ask(query)`, with the corrected default model and accessors (see Findings), never raises, leaves the response fields alone, returns a call holding the default payload, and in core.py sets the citation mode to `CLEAN` |
| Client.Perplexity.AskScript | perplexity.py:278-364 | the fields are reset before the attachment check, and an exception from the check or from building the payload leaves them reset; then the blocking loop runs, or the generator runs only once pulled |
| Client.AskCall.constructor | src/perplexity_webui_scraper/utils.py:99-102 | the call keeps its parent and payload |
| Client.AskCall.Run | src/perplexity_webui_scraper/utils.py:104-135 | reset, loop and response: the parent's fields end where `Calls.Feed` from the reset state ends, and the result is `Calls.RunResult` |
| Client.AskCall.Stream | src/perplexity_webui_scraper/utils.py:137-169 | nothing happens before the first pull; afterwards the parent's fields and the yields are those of `Calls.StreamFrom` from the reset state |

## Left out

- The HTTP exchange is not modelled. This covers the headers, the cookies, the timeout, the priming `GET /search/new`, the `POST` to the ask endpoint and `raise_for_status`. A call is given the lines of its response.
- `orjson.loads` is a parameter. The JSON grammar is not modelled, and numbers are carried as reals.
- A `Json` object may list a key twice; no decoded dict does. `Json.Lookup` takes the first such pair, whereas decoding text with a repeated key keeps the last value.
- Lines are text. Byte lines behave the same, and perplexity.py's `.encode()` before decoding does not change the result.
- perplexity.py probes the locale, time zone and coordinates at import time. These are only defaults, and the model takes the values as arguments.
- `bot.py`, `discord_bot.py` and `server.py` are not part of this model.
- The pydantic validation of `StreamResponse` and `AskResponse` is not modelled. Their field types would reject some values that the fields can hold. The validation of `SearchResultItem` is modelled.
- `\d` and `\w` in the citation pattern are taken over ASCII. Python also matches other Unicode digits and letters.
- Object identity is not modelled. `raw_data` shares the dict it was given, and a value model cannot show the difference. The `list(...)` copies are modelled by their contents.
- perplexity.py's `_process_response` and `_stream_generator` (perplexity.py:247-276) are not modelled separately. `ask` never calls them, and they repeat the loop that `ask` inlines, which is modelled.
- A generator that is closed or abandoned is not modelled. Only the values and the state after a number of pulls are.
- The model is passed to the payload as its identifier and mode (`Payload.ModelDescriptor`), not as a class. `Payload.ScraperDescriptor`, `Payload.ApiDescriptor` and `Payload.ScriptDescriptor` connect each table to it.
- Payload.PrepareJsonData: requires the source argument to be a value each generation's conversion handles. In src/perplexity_api and the scraper packages a value that is neither a member nor a list of members also raises while building `sources`; those two generations declare the types, and the model takes them at their word. perplexity.py passes any other value through (`Unchecked`), and its raising on a non-empty list of plain values is modelled.
- perplexity.py's probed locale (`LOCAL_LANGUAGE`, `LOCAL_TIMEZONE`, `LOCAL_COORDINATES`) is an argument of `Payload.DefaultQuery`; the probing is not modelled.
- Payload.GenerationFields: perplexity.py's `enable_web_search` flag is modelled as the search focus `Web` (true) or `Writing` (false).
- Payload.AskPayload, Client.Perplexity.Ask and Client.Perplexity.AskDefault model the corrected program. In the scraper package as written, every `ask` raises `AttributeError` at src/perplexity_webui_scraper/__init__.py:114-115 (`Payload.ScraperAccessorMissing`). core.py as written fails when its class is defined, at core.py:150 (`ScraperModels.BestIsNotTopLevel`). Both are listed under Findings.
- Client.Perplexity.Ask: models the three `ask` methods that return a call object. Api and Scraper have no citation mode, so the stored mode is only read by core.py.
- Calls.Feed: its own contract says only that a halted loop raised nothing. What the loop computes is stated by `Calls.FeedAppend`, `Calls.SkippedLines`, `Calls.MalformedFrameRaises`, `Calls.FinalEventStops`, `Calls.FeedKeepsUuid` and `Calls.FeedKeepsLastChunk`.

## Findings

| source | as written | input that shows it | evidently intended | confidence | as-written member | corrected member |
|---|---|---|---|---|---|---|
| src/perplexity_webui_scraper/core.py:150 | the default argument of `ask` is `ModelType.Best`; `Best` sits under `ModelType.Pro`, and default arguments are evaluated when the method is defined, so the attribute lookup raises `AttributeError` | importing the module | `ModelType.Pro.Best`, as the docstring at line 165 says | not executed | ScraperModels.BestIsNotTopLevel | ScraperModels.DefaultModel |
| src/perplexity_webui_scraper/__init__.py:114-115 | the payload reads `model.get_identifier()` and `model.get_mode()`, but that package's `ModelBase` defines only `_get_identifier` and `_get_mode` | any `ask` call, e.g. with `ModelType.Pro.Best` | `_get_identifier()` and `_get_mode()`, as core.py:88-89 call them | not executed | Payload.ScraperAccessorMissing | Payload.ScraperDescriptor |
