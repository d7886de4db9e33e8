/** `_prepare_json_data` and the argument check of `ask`: the request body
    posted to the ask endpoint. The query text sits at the top level, every
    other setting under `params`. */
module Payload {
  import opened Json
  import opened Enums
  import ScraperModels
  import ApiModels
  import ScriptModels

  /** What `model._get_identifier()` / `model._get_mode()` (or the unprefixed
      spellings) return for the chosen model. */
  datatype ModelDescriptor = ModelDescriptor(identifier: string, mode: string)

  /** The source argument: one member, a list of members, or (perplexity.py
      only) any other value, which is sent as it is. */
  datatype SourceSelection = Single(source: SourceFocus) | Several(sources: seq<SourceFocus>) | Unchecked(value: Json)

  /** The arguments of `ask` that reach the payload. */
  datatype Query = Query(
    text: string,
    attachments: Option<seq<string>>,
    model: ModelDescriptor,
    saveToLibrary: bool,
    searchFocus: SearchFocus,
    sources: SourceSelection,
    timeRange: TimeRange,
    language: string,
    timezone: Option<string>,
    coordinates: Option<(real, real)>)

  /** The argument types each generation declares: enumeration members it
      defines, and a pass-through value only in perplexity.py. */
  predicate Accepts(gen: Generation, sel: SourceSelection)
  {
    match sel
    case Single(s) => Offers(gen, s)
    case Several(ss) => forall i :: 0 <= i < |ss| ==> Offers(gen, ss[i])
    case Unchecked(_) => gen == Script
  }

  function SourceValues(ss: seq<SourceFocus>): (r: seq<Json>)
  {
    seq(|ss|, i requires 0 <= i < |ss| => JStr(SourceFocusValue(ss[i])))
  }

  /** The `sources` entry: `[value]` for one member, the values in order for a
      list, and anything else unchanged. */
  function SourcesWire(sel: SourceSelection): Json
  {
    match sel
    case Single(s) => JArr([JStr(SourceFocusValue(s))])
    case Several(ss) => JArr(SourceValues(ss))
    case Unchecked(v) => v
  }

  /** Whether perplexity.py's conversion of the source argument succeeds: it
      reads `.value` from every element of a list, so a non-empty list of
      plain values raises `AttributeError`. */
  predicate ConvertsSources(sel: SourceSelection)
  {
    !(sel.Unchecked? && sel.value.JArr? && sel.value.items != [])
  }

  /** Reads a `sources` list back into members. */
  function ParseSources(items: seq<Json>): Option<seq<SourceFocus>>
  {
    if items == [] then Some([])
    else
      match (ParseSource(items[0]), ParseSources(items[1..]))
      case (Some(s), Some(rest)) => Some([s] + rest)
      case _ => None
  }

  function ParseSource(j: Json): Option<SourceFocus>
  {
    match j
    case JStr("web") => Some(SourceFocus.Web)
    case JStr("scholar") => Some(Academic)
    case JStr("social") => Some(Social)
    case JStr("edgar") => Some(Finance)
    case _ => None
  }

  /** The `sources` list names the selected members, in the order given. */
  lemma {:induction false} SourcesRoundTrip(ss: seq<SourceFocus>)
    ensures ParseSources(SourceValues(ss)) == Some(ss)
  {
    if ss != [] {
      SourcesRoundTrip(ss[1..]);
      assert SourceValues(ss) != [];
      assert SourceValues(ss)[1..] == SourceValues(ss[1..]);
      assert ss == [ss[0]] + ss[1..];
      assert ParseSource(SourceValues(ss)[0]) == Some(ss[0]) by {
        match ss[0]
        case Web =>
        case Academic =>
        case Social =>
        case Finance =>
      }
    }
  }

  /** A single member is sent as a one-element list. */
  lemma SingleSource(gen: Generation, s: SourceFocus)
    ensures SourcesWire(Single(s)) == JArr([JStr(SourceFocusValue(s))])
    ensures SourcesWire(Single(s)) == SourcesWire(Several([s]))
  {
  }

  /** `search_focus`: a one-element list in perplexity.py, the bare value elsewhere. */
  function SearchFocusWire(gen: Generation, f: SearchFocus): Json
  {
    if gen == Script then JArr([JStr(SearchFocusValue(f))]) else JStr(SearchFocusValue(f))
  }

  function OptionalText(t: Option<string>): Json
  {
    match t
    case Some(v) => JStr(v)
    case None => JNull
  }

  /** `client_coordinates`: an object when coordinates are given, null otherwise. */
  function CoordinatesWire(c: Option<(real, real)>): Json
  {
    match c
    case Some((lat, lng)) => JObj([("location_lat", JNum(lat)), ("location_lng", JNum(lng)), ("name", JStr(""))])
    case None => JNull
  }

  /** `attachment_urls or []`. */
  function AttachmentsWire(a: Option<seq<string>>): Json
  {
    match a
    case Some(urls) => JArr(seq(|urls|, i requires 0 <= i < |urls| => JStr(urls[i])))
    case None => JArr([])
  }

  function Params(gen: Generation, q: Query): seq<(string, Json)>
  {
    [ ("attachments", AttachmentsWire(q.attachments)),
      ("language", JStr(q.language)),
      ("timezone", OptionalText(q.timezone)),
      ("client_coordinates", CoordinatesWire(q.coordinates)),
      ("sources", SourcesWire(q.sources)),
      ("model_preference", JStr(q.model.identifier)),
      ("mode", JStr(q.model.mode)),
      ("search_focus", SearchFocusWire(gen, q.searchFocus)),
      ("search_recency_filter", TimeRangeWire(q.timeRange)),
      ("is_incognito", JBool(!q.saveToLibrary)),
      ("use_schematized_api", JBool(gen != Core)),
      ("local_search_enabled", JBool(true)),
      ("prompt_source", JStr("user")),
      ("send_back_text_in_streaming_api", JBool(true)),
      ("version", JStr("2.18")) ]
  }

  /** The keys of `params`, in the order the payload lists them. */
  const ParamNames: seq<string> := [
    "attachments", "language", "timezone", "client_coordinates", "sources",
    "model_preference", "mode", "search_focus", "search_recency_filter", "is_incognito",
    "use_schematized_api", "local_search_enabled", "prompt_source",
    "send_back_text_in_streaming_api", "version"]

  /** No key of `params` is listed twice. */
  lemma ParamNamesDistinct()
    ensures forall i, j :: 0 <= i < j < |ParamNames| ==> ParamNames[i] != ParamNames[j]
  {
  }

  /** `params` lists exactly those keys, in that order. */
  lemma ParamsKeys(gen: Generation, q: Query)
    ensures |Params(gen, q)| == |ParamNames|
    ensures forall j :: 0 <= j < |ParamNames| ==> Params(gen, q)[j].0 == ParamNames[j]
  {
  }

  /** So each key of `params` finds the value listed beside it. */
  lemma ParamsKeyed(gen: Generation, q: Query, k: nat)
    requires k < |ParamNames|
    ensures Lookup(Params(gen, q), ParamNames[k]) == Some(Params(gen, q)[k].1)
  {
    ParamNamesDistinct();
    ParamsKeys(gen, q);
    LookupAt(Params(gen, q), k);
  }

  /** `_prepare_json_data`. */
  function PrepareJsonData(gen: Generation, q: Query): (r: Result<Json>)
    requires Accepts(gen, q.sources)
    ensures r.Err? <==> !ConvertsSources(q.sources)
    ensures r.Err? ==> r.error == AttributeError
    ensures r.Ok? ==> r.value.JObj? && |r.value.fields| == 2
  {
    if !ConvertsSources(q.sources) then Err(AttributeError)
    else Ok(JObj([("params", JObj(Params(gen, q))), ("query_str", JStr(q.text))]))
  }

  /** A list passed to perplexity.py is converted element by element through
      `.value`, which plain JSON values lack: only an empty list gets through. */
  lemma ValueListSources(q: Query)
    requires q.sources.Unchecked? && q.sources.value.JArr?
    ensures q.sources.value.items != [] ==> PrepareJsonData(Script, q) == Err(AttributeError)
    ensures q.sources.value.items != [] && !TooManyAttachments(q.attachments) ==> AskPayload(Script, q) == Err(AttributeError)
    ensures q.sources.value.items == [] ==>
      PrepareJsonData(Script, q).Ok? && Lookup(Params(Script, q), "sources") == Some(JArr([]))
  {
    CopiedFields(Script, q);
  }

  /** The language, timezone and coordinates `ask` falls back on. perplexity.py
      probes them once at import time, so they arrive here as a value; the
      other generations write out `"en-US"`, None and None. */
  datatype Locale = Locale(language: string, timezone: Option<string>, coordinates: Option<(real, real)>)

  const FixedLocale: Locale := Locale("en-US", None, None)

  /** The default model of `ask`: `ModelType.Pro.Best` of each table. core.py
      writes `ModelType.Best`, which does not exist; its documented default is
      taken, read through `_get_identifier` as core.py reads it. */
  function DefaultDescriptor(gen: Generation): (d: ModelDescriptor)
    ensures d.identifier == "pplx_pro" && d.mode == "copilot"
  {
    match gen
    case Script => ScriptDescriptor(ScriptModels.Best)
    case Api => ApiDescriptor(ApiModels.Best)
    case _ => ScraperDescriptor(ScraperModels.Best)
  }

  /** The arguments of a plain `ask(query)`: no attachments, the default model,
      not saved, web search, the web source, any time, and the locale
      defaults (`probed` in perplexity.py). */
  function DefaultQuery(gen: Generation, text: string, probed: Locale): Query
  {
    var loc := if gen == Script then probed else FixedLocale;
    Query(text, None, DefaultDescriptor(gen), false, SearchFocus.Web, Single(SourceFocus.Web), All,
          loc.language, loc.timezone, loc.coordinates)
  }

  /** A plain `ask(query)` builds its payload without raising, and sends an
      empty attachment list, the `web` source, the `internet` focus, no time
      filter, `pplx_pro`, an incognito flag of true, and `en-US` with no
      timezone or coordinates outside perplexity.py. */
  lemma DefaultArguments(gen: Generation, text: string, probed: Locale)
    ensures Accepts(gen, DefaultQuery(gen, text, probed).sources)
    ensures var q := DefaultQuery(gen, text, probed);
      var ps := Params(gen, q);
      && AskPayload(gen, q).Ok?
      && Lookup(ps, "attachments") == Some(JArr([]))
      && Lookup(ps, "sources") == Some(JArr([JStr("web")]))
      && Lookup(ps, "search_focus") == Some(if gen == Script then JArr([JStr("internet")]) else JStr("internet"))
      && Lookup(ps, "search_recency_filter") == Some(JNull)
      && Lookup(ps, "is_incognito") == Some(JBool(true))
      && Lookup(ps, "model_preference") == Some(JStr("pplx_pro"))
      && Lookup(ps, "language") == Some(JStr(if gen == Script then probed.language else "en-US"))
      && (gen != Script ==> Lookup(ps, "timezone") == Some(JNull) && Lookup(ps, "client_coordinates") == Some(JNull))
  {
    var q := DefaultQuery(gen, text, probed);
    assert Accepts(gen, q.sources);
    CopiedFields(gen, q);
    DerivedFields(gen, q);
    GenerationFields(gen, q);
    OptionalFields(gen, q);
    TimeRangeWireValues(All);
  }

  /** The query text is the top-level `query_str`, not a parameter. */
  lemma QueryTextField(gen: Generation, q: Query)
    requires Accepts(gen, q.sources)
    ensures PrepareJsonData(gen, q).Ok? ==>
      var p := PrepareJsonData(gen, q).value;
      && Lookup(p.fields, "query_str") == Some(JStr(q.text))
      && Lookup(p.fields, "params") == Some(JObj(Params(gen, q)))
    ensures Lookup(Params(gen, q), "query_str") == None
  {
    var fs := [("params", JObj(Params(gen, q))), ("query_str", JStr(q.text))];
    LookupAt(fs, 0);
    LookupAt(fs, 1);
    var ps := Params(gen, q);
    assert forall j :: 0 <= j < |ps| ==> ps[j].0 != "query_str";
    LookupSpec(ps, "query_str");
  }

  /** The caller's choices are copied under `params`: the model's identifier
      and mode, the language, and the sources. */
  lemma CopiedFields(gen: Generation, q: Query)
    requires Accepts(gen, q.sources)
    ensures var ps := Params(gen, q);
      && Lookup(ps, "language") == Some(JStr(q.language))
      && Lookup(ps, "sources") == Some(SourcesWire(q.sources))
      && Lookup(ps, "model_preference") == Some(JStr(q.model.identifier))
      && Lookup(ps, "mode") == Some(JStr(q.model.mode))
  {
    ParamsKeyed(gen, q, 1);
    ParamsKeyed(gen, q, 4);
    ParamsKeyed(gen, q, 5);
    ParamsKeyed(gen, q, 6);
  }

  /** The fields whose value is derived from an argument rather than copied:
      `client_coordinates` is null exactly when no coordinates are given,
      `is_incognito` is the negation of `save_to_library`, and
      `search_recency_filter` is null exactly for `ALL`. */
  lemma DerivedFields(gen: Generation, q: Query)
    requires Accepts(gen, q.sources)
    ensures var ps := Params(gen, q);
      && (Lookup(ps, "client_coordinates") == Some(JNull) <==> q.coordinates.None?)
      && Lookup(ps, "is_incognito") == Some(JBool(!q.saveToLibrary))
      && Lookup(ps, "search_recency_filter") == Some(TimeRangeWire(q.timeRange))
      && (Lookup(ps, "search_recency_filter") == Some(JNull) <==> q.timeRange == All)
  {
    ParamsKeyed(gen, q, 3);
    ParamsKeyed(gen, q, 9);
    ParamsKeyed(gen, q, 8);
    TimeRangeWireValues(q.timeRange);
  }

  /** The fields that differ between generations: `search_focus` is a
      one-element list only in perplexity.py, and `use_schematized_api` is
      false only in core.py. */
  lemma GenerationFields(gen: Generation, q: Query)
    requires Accepts(gen, q.sources)
    ensures var ps := Params(gen, q);
      && Lookup(ps, "search_focus") == Some(SearchFocusWire(gen, q.searchFocus))
      && (Lookup(ps, "search_focus").value.JArr? <==> gen == Script)
      && Lookup(ps, "use_schematized_api") == Some(JBool(gen != Core))
  {
    ParamsKeyed(gen, q, 7);
    ParamsKeyed(gen, q, 10);
  }

  /** The optional arguments: `attachments` is always a list, empty when none
      are given, and `timezone` is null when none is given. */
  lemma OptionalFields(gen: Generation, q: Query)
    requires Accepts(gen, q.sources)
    ensures var ps := Params(gen, q);
      && Lookup(ps, "attachments") == Some(AttachmentsWire(q.attachments))
      && Lookup(ps, "attachments").value.JArr?
      && (q.attachments.None? ==> Lookup(ps, "attachments") == Some(JArr([])))
      && (Lookup(ps, "timezone") == Some(JNull) <==> q.timezone.None?)
  {
    ParamsKeyed(gen, q, 0);
    ParamsKeyed(gen, q, 2);
  }

  /** The constants every generation sends. */
  lemma ConstantFields(gen: Generation, q: Query)
    requires Accepts(gen, q.sources)
    ensures var ps := Params(gen, q);
      && Lookup(ps, "local_search_enabled") == Some(JBool(true))
      && Lookup(ps, "prompt_source") == Some(JStr("user"))
      && Lookup(ps, "send_back_text_in_streaming_api") == Some(JBool(true))
      && Lookup(ps, "version") == Some(JStr("2.18"))
  {
    ParamsKeyed(gen, q, 11);
    ParamsKeyed(gen, q, 12);
    ParamsKeyed(gen, q, 13);
    ParamsKeyed(gen, q, 14);
  }

  /** The most attachment URLs `ask` accepts. */
  const MaxAttachments: nat := 10

  /** More than ten attachment URLs were given. */
  predicate TooManyAttachments(a: Option<seq<string>>)
  {
    a.Some? && |a.value| > MaxAttachments
  }

  /** The payload `ask` builds, or the exception it raises first: the
      attachment check's `ValueError`, then perplexity.py's failing source
      conversion. core.py takes no attachments and always sends an empty list. */
  function AskPayload(gen: Generation, q: Query): (r: Result<Json>)
    requires Accepts(gen, q.sources)
    ensures gen == Core ==> r.Ok?
    ensures gen != Core && TooManyAttachments(q.attachments) ==> r == Err(ValueError)
    ensures r.Err? ==> r.error == ValueError || (gen == Script && r.error == AttributeError)
  {
    if gen == Core then PrepareJsonData(Core, q.(attachments := Some([])))
    else if TooManyAttachments(q.attachments) then Err(ValueError)
    else PrepareJsonData(gen, q)
  }

  /** `ask` refuses more than ten attachment URLs with `ValueError` and accepts
      ten; core.py sends an empty attachment list whatever it is given. */
  lemma AskAttachmentLimit(gen: Generation, q: Query)
    requires Accepts(gen, q.sources)
    ensures gen != Core ==> (AskPayload(gen, q) == Err(ValueError) <==> q.attachments.Some? && |q.attachments.value| > 10)
    ensures gen != Core && q.attachments.Some? && |q.attachments.value| == 10 ==> AskPayload(gen, q) == PrepareJsonData(gen, q)
    ensures gen != Script ==> (AskPayload(gen, q).Ok? <==> gen == Core || !TooManyAttachments(q.attachments))
    ensures gen == Core ==> var q' := q.(attachments := Some([]));
      && AskPayload(gen, q) == PrepareJsonData(Core, q')
      && Lookup(Params(Core, q'), "attachments") == Some(JArr([]))
  {
    if gen == Core {
      OptionalFields(Core, q.(attachments := Some([])));
      assert AttachmentsWire(Some([])) == JArr([]);
    }
  }

  /** The descriptor core.py sends for a model of its table: `_get_identifier()`
      and `_get_mode()`. */
  function ScraperDescriptor(m: ScraperModels.Model): (d: ModelDescriptor)
    ensures Ok(d.identifier) == ScraperModels.ClassMethod(m, "_get_identifier")
    ensures Ok(d.mode) == ScraperModels.ClassMethod(m, "_get_mode")
  {
    ModelDescriptor(ScraperModels.Identifier(m), ScraperModels.Mode(m))
  }

  /** What src/perplexity_webui_scraper/__init__.py reads as written: it calls
      `get_identifier()`, which the models of its package do not define. */
  function ScraperDescriptorAsWritten(m: ScraperModels.Model): Result<ModelDescriptor>
  {
    match ScraperModels.ClassMethod(m, "get_identifier")
    case Err(e) => Err(e)
    case Ok(id) =>
      match ScraperModels.ClassMethod(m, "get_mode")
      case Err(e) => Err(e)
      case Ok(mode) => Ok(ModelDescriptor(id, mode))
  }

  /** As written, building the payload fails for every model. */
  lemma ScraperAccessorMissing(m: ScraperModels.Model)
    ensures ScraperDescriptorAsWritten(m) == Err(AttributeError)
  {
  }

  /** The descriptors of the two other tables (`get_identifier()`, `get_mode()`). */
  function ApiDescriptor(m: ApiModels.Model): ModelDescriptor
  {
    ModelDescriptor(ApiModels.Identifier(m), ApiModels.Mode(m))
  }

  function ScriptDescriptor(m: ScriptModels.Model): ModelDescriptor
  {
    ModelDescriptor(ScriptModels.Identifier(m), ScriptModels.Mode(m))
  }
}
