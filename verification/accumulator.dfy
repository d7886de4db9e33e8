/** The response accumulator of every generation, as functions of the state
    before an event: `reset_response_data`, `_process_data` and
    `_update_response_data`. An exception half-way through an update leaves
    the fields already assigned in place, so each step returns the state it
    reached together with the exception it raised, if any. */
module Accumulator {
  import opened Json
  import opened Enums
  import opened Citations

  /** `search_results`: the raw `web_results` value in the older generations,
      a list of validated records in core.py. */
  datatype SearchResults = Raw(value: Json) | Items(items: seq<SearchResultItem>)

  /** The response fields of the client. `conversationUuid` stands for
      `conversation_uuid` (`_backend_uuid` in src/perplexity_api/__init__.py;
      perplexity.py has none and leaves it null); `raw` for `raw_data`
      (`raw_response`). Python's None is `JNull`. */
  datatype ResponseState = ResponseState(
    title: Json,
    answer: Json,
    chunks: Json,
    lastChunk: Json,
    searchResults: SearchResults,
    conversationUuid: Json,
    raw: Json)

  /** The state an operation reached and the exception it raised, if any. */
  datatype Applied = Applied(after: ResponseState, raised: Option<PyError>)

  /** What `reset_response_data` leaves. */
  function Empty(gen: Generation): (s: ResponseState)
    ensures s.title == JNull && s.answer == JNull && s.lastChunk == JNull && s.conversationUuid == JNull
    ensures s.chunks == JArr([]) && s.raw == JObj([])
    ensures s.searchResults == (if gen == Core then Items([]) else Raw(JArr([])))
  {
    ResponseState(JNull, JNull, JArr([]), JNull, if gen == Core then Items([]) else Raw(JArr([])), JNull, JObj([]))
  }

  /** `last_chunk` is what `chunks[-1] if chunks else None` gives. */
  predicate LastChunkConsistent(s: ResponseState)
  {
    LastOrNone(s.chunks) == Ok(s.lastChunk)
  }

  /** A `str | None` record field: anything else fails validation. */
  function TextOrNone(v: Json): (r: Result<Option<string>>)
    ensures r.Ok? <==> v.JNull? || v.JStr?
    ensures r.Err? ==> r.error == ValidationError
    ensures v.JStr? ==> r == Ok(Some(v.s))
  {
    match v
    case JNull => Ok(None)
    case JStr(t) => Ok(Some(t))
    case _ => Err(ValidationError)
  }

  /** The record built from one result dict: its `name` becomes the title,
      and `snippet` and `url` are copied; a missing key gives None. */
  function ItemOf(r: seq<(string, Json)>): Result<SearchResultItem>
  {
    match (TextOrNone(GetOr(r, "name", JNull)), TextOrNone(GetOr(r, "snippet", JNull)), TextOrNone(GetOr(r, "url", JNull)))
    case (Ok(t), Ok(sn), Ok(u)) => Ok(SearchResultItem(t, sn, u))
    case _ => Err(ValidationError)
  }

  /** The dict entries of a list, in order. */
  function Dicts(rs: seq<Json>): (ds: seq<seq<(string, Json)>>)
    ensures |ds| <= |rs|
  {
    if rs == [] then []
    else (if rs[0].JObj? then [rs[0].fields] else []) + Dicts(rs[1..])
  }

  /** Validating each dict as a record, in order; the first failure raises. */
  function ValidateAll(ds: seq<seq<(string, Json)>>): (r: Result<seq<SearchResultItem>>)
    ensures r.Ok? <==> forall i :: 0 <= i < |ds| ==> ItemOf(ds[i]).Ok?
    ensures r.Ok? ==> |r.value| == |ds| && forall i :: 0 <= i < |ds| ==> ItemOf(ds[i]) == Ok(r.value[i])
    ensures r.Err? ==> r.error == ValidationError
  {
    if ds == [] then Ok([])
    else
      match (ItemOf(ds[0]), ValidateAll(ds[1..]))
      case (Ok(it), Ok(rest)) => Ok([it] + rest)
      case _ => Err(ValidationError)
  }

  /** The list comprehension over `web_results`: non-dict entries are
      dropped, each dict becomes a record. */
  function ItemsOf(rs: seq<Json>): Result<seq<SearchResultItem>>
  {
    ValidateAll(Dicts(rs))
  }

  /** core.py's `search_results`: `answer_data.get("web_results", [])` iterated
      and filtered. */
  function CoreResults(answerData: seq<(string, Json)>): Result<seq<SearchResultItem>>
  {
    match Iterate(GetOr(answerData, "web_results", JArr([])))
    case Err(e) => Err(e)
    case Ok(rs) => ItemsOf(rs)
  }

  /** `_update_response_data(title, answer_data)`. The title is assigned first;
      `.get` on a non-dict then raises. core.py assigns title, search results,
      answer (through the citation formatter), chunks, last chunk and raw data
      in that order; the other generations title, answer, chunks, last chunk,
      search results and raw data. */
  function Update(gen: Generation, mode: CitationMode, s: ResponseState, title: Json, answerData: Json): (a: Applied)
    ensures a.after.conversationUuid == s.conversationUuid
    ensures a.after.title == title
    ensures !answerData.JObj? ==> a == Applied(s.(title := title), Some(AttributeError))
    ensures a.raised.None? ==> LastChunkConsistent(a.after) && a.after.raw == answerData
    ensures a.raised.None? ==> a.after.chunks == GetOr(answerData.fields, "chunks", JArr([]))
    ensures a.raised.None? && gen != Core ==> a.after.answer == GetOr(answerData.fields, "answer", JNull)
    ensures a.raised.None? && gen != Core ==> a.after.searchResults == Raw(GetOr(answerData.fields, "web_results", JArr([])))
    ensures a.raised.None? && gen == Core ==> a.after.searchResults.Items?
    ensures answerData.JObj? ==>
      (a.raised.None? <==>
        LastOrNone(GetOr(answerData.fields, "chunks", JArr([]))).Ok?
        && (gen == Core ==>
              (CoreResults(answerData.fields).Ok?
               && FormatCitations(mode, GetOr(answerData.fields, "answer", JNull), CoreResults(answerData.fields).value).Ok?)))
  {
    var s1 := s.(title := title);
    if !answerData.JObj? then Applied(s1, Some(AttributeError))
    else
      var fs := answerData.fields;
      var chunks := GetOr(fs, "chunks", JArr([]));
      if gen == Core then
        match CoreResults(fs)
        case Err(e) => Applied(s1, Some(e))
        case Ok(items) =>
          var s2 := s1.(searchResults := Items(items));
          match FormatCitations(mode, GetOr(fs, "answer", JNull), items)
          case Err(e) => Applied(s2, Some(e))
          case Ok(answer) =>
            var s3 := s2.(answer := answer, chunks := chunks);
            match LastOrNone(chunks)
            case Err(e) => Applied(s3, Some(e))
            case Ok(last) => Applied(s3.(lastChunk := last, raw := answerData), None)
      else
        var s2 := s1.(answer := GetOr(fs, "answer", JNull), chunks := chunks);
        match LastOrNone(chunks)
        case Err(e) => Applied(s2, Some(e))
        case Ok(last) =>
          Applied(s2.(lastChunk := last, searchResults := Raw(GetOr(fs, "web_results", JArr([]))), raw := answerData), None)
  }

  /** Whether a step of a list-shaped `text` is the `FINAL` one:
      `item["step_type"] == "FINAL"` in perplexity.py, `item.get("step_type")
      == "FINAL"` elsewhere. */
  function StepIsFinal(gen: Generation, item: Json): (r: Result<bool>)
    ensures gen == Script ==> (r.Ok? <==> Has(item, "step_type"))
    ensures gen != Script ==> (r.Ok? <==> item.JObj?)
    ensures r.Ok? ==> (r.value <==> item.JObj? && Lookup(item.fields, "step_type") == Some(JStr("FINAL")))
  {
    var t := if gen == Script then Subscript(item, "step_type") else DictGet(item, "step_type", JNull);
    match t
    case Err(e) => Err(e)
    case Ok(v) => Ok(v == JStr("FINAL"))
  }

  /** Steps `lo` up to `hi` are all examined without being `FINAL` and
      without raising. */
  predicate Ordinary(gen: Generation, steps: seq<Json>, lo: nat, hi: nat)
    requires lo <= hi <= |steps|
  {
    forall j :: lo <= j < hi ==> StepIsFinal(gen, steps[j]) == Ok(false)
  }

  /** The `for item in ...: if ...: break` scan from index `from`: the index of
      the first `FINAL` step, none, or the exception the scan hit first. */
  function FirstFinal(gen: Generation, steps: seq<Json>, from: nat): (r: Result<Option<nat>>)
    requires from <= |steps|
    ensures r.Ok? && r.value.Some? ==>
      from <= r.value.value < |steps| && StepIsFinal(gen, steps[r.value.value]) == Ok(true)
      && Ordinary(gen, steps, from, r.value.value)
    ensures r == Ok(None) <==> Ordinary(gen, steps, from, |steps|)
    ensures r.Err? ==> exists k :: from <= k < |steps| && StepIsFinal(gen, steps[k]) == Err(r.error)
                                   && Ordinary(gen, steps, from, k)
    decreases |steps| - from
  {
    if from == |steps| then Ok(None)
    else match StepIsFinal(gen, steps[from])
      case Err(e) => Err(e)
      case Ok(true) => Ok(Some(from))
      case Ok(false) => FirstFinal(gen, steps, from + 1)
  }

  predicate NoNewline(m: string)
  {
    forall i :: 0 <= i < |m| ==> m[i] != '\n'
  }

  /** `re.match(r"^\{.*\}$", t)`: a brace, a single line, a closing brace, and
      nothing after it but an optional final newline (where `$` also matches). */
  predicate BraceWrapped(t: string)
  {
    var u := if |t| > 0 && t[|t| - 1] == '\n' then t[..|t| - 1] else t;
    |u| >= 2 && u[0] == '{' && u[|u| - 1] == '}' && NoNewline(u[1..|u| - 1])
  }

  /** The answer data of the first `FINAL` step:
      - perplexity.py decodes `item["content"]["answer"]`;
      - src/perplexity_api and src/perplexity_webui_scraper/__init__.py wrap it
        as `{"answer": item["content"]["answer"]}`;
      - core.py decodes `content.answer` when it is a brace-wrapped line and
        otherwise uses the whole `content` object. */
  function FinalPayload(gen: Generation, loads: Decoder, item: Json): (r: Result<Json>)
    ensures gen != Core && r.Ok? ==> Has(item, "content") && Has(Lookup(item.fields, "content").value, "answer")
    ensures (gen == Api || gen == Scraper) && r.Ok? ==>
      r.value == JObj([("answer", Lookup(Lookup(item.fields, "content").value.fields, "answer").value)])
    ensures gen == Script && r.Ok? ==>
      var answer := Lookup(Lookup(item.fields, "content").value.fields, "answer").value;
      answer.JStr? && loads(answer.s) == Some(r.value)
    ensures gen == Core && r.Ok? ==> item.JObj? && GetOr(item.fields, "content", JObj([])).JObj?
    ensures gen == Core && r.Ok? && item.JObj? ==>
      var content := GetOr(item.fields, "content", JObj([]));
      var answer := if content.JObj? then GetOr(content.fields, "answer", JNull) else JNull;
      r.value == content || (answer.JStr? && BraceWrapped(answer.s) && loads(answer.s) == Some(r.value))
  {
    if gen == Core then
      match DictGet(item, "content", JObj([]))
      case Err(e) => Err(e)
      case Ok(content) =>
        match DictGet(content, "answer", JNull)
        case Err(e) => Err(e)
        case Ok(answer) =>
          if answer.JStr? && BraceWrapped(answer.s) then Loads(loads, answer) else Ok(content)
    else
      match Subscript(item, "content")
      case Err(e) => Err(e)
      case Ok(content) =>
        match Subscript(content, "answer")
        case Err(e) => Err(e)
        case Ok(answer) =>
          if gen == Script then Loads(loads, answer) else Ok(JObj([("answer", answer)]))
  }

  /** `data.get("thread_title")` in core.py, `data.get("thread_title", "")` elsewhere. */
  function Title(gen: Generation, data: Json): Json
    requires data.JObj?
  {
    GetOr(data.fields, "thread_title", if gen == Core then JNull else JStr(""))
  }

  /** The conversation id is taken from the first event carrying
      `backend_uuid` while none is known; perplexity.py has no such step. */
  function UuidStep(gen: Generation, s: ResponseState, data: Json): (r: Result<ResponseState>)
  {
    if gen == Script || s.conversationUuid != JNull then Ok(s)
    else match Contains(data, "backend_uuid")
      case Err(e) => Err(e)
      case Ok(false) => Ok(s)
      case Ok(true) =>
        match Subscript(data, "backend_uuid")
        case Err(e) => Err(e)
        case Ok(v) => Ok(s.(conversationUuid := v))
  }

  /** A list-shaped `text`: the scan for the first `FINAL` step, and the
      update with that step's answer data. */
  function ApplySteps(gen: Generation, mode: CitationMode, loads: Decoder, s: ResponseState, data: Json, steps: seq<Json>): Applied
    requires data.JObj?
  {
    match FirstFinal(gen, steps, 0)
    case Err(e) => Applied(s, Some(e))
    case Ok(None) => Applied(s, None)
    case Ok(Some(k)) =>
      match FinalPayload(gen, loads, steps[k])
      case Err(e) => Applied(s, Some(e))
      case Ok(answerData) => Update(gen, mode, s, Title(gen, data), answerData)
  }

  /** `_process_data(data)` for one decoded event. */
  function Process(gen: Generation, mode: CitationMode, loads: Decoder, s: ResponseState, data: Json): (a: Applied)
    ensures gen == Script || s.conversationUuid != JNull ==> a.after.conversationUuid == s.conversationUuid
    ensures gen != Script && s.conversationUuid == JNull && data.JObj? ==>
      a.after.conversationUuid == GetOr(data.fields, "backend_uuid", JNull)
    ensures data.JObj? && !Has(data, "text") ==> a.raised.None? && a.after == s.(conversationUuid := a.after.conversationUuid)
  {
    match UuidStep(gen, s, data)
    case Err(e) => Applied(s, Some(e))
    case Ok(s1) =>
      match Contains(data, "text")
      case Err(e) => Applied(s1, Some(e))
      case Ok(false) => Applied(s1, None)
      case Ok(true) =>
        match Subscript(data, "text")
        case Err(e) => Applied(s1, Some(e))
        case Ok(text) =>
          match Loads(loads, text)
          case Err(e) => Applied(s1, Some(e))
          case Ok(decoded) =>
            if decoded.JArr? then ApplySteps(gen, mode, loads, s1, data, decoded.items)
            else if decoded.JObj? then Update(gen, mode, s1, Title(gen, data), decoded)
            else Applied(s1, None)
  }

  /** The event's `text` is present and decodes to a list of steps. */
  predicate TextIsSteps(loads: Decoder, data: Json, steps: seq<Json>)
  {
    data.JObj? && Lookup(data.fields, "text").Some? && Loads(loads, Lookup(data.fields, "text").value) == Ok(JArr(steps))
  }

  /** A list without dicts gives no records. */
  lemma {:induction false} DictsNone(rs: seq<Json>)
    requires forall i :: 0 <= i < |rs| ==> !rs[i].JObj?
    ensures Dicts(rs) == []
  {
    if rs != [] {
      assert forall i :: 0 <= i < |rs[1..]| ==> rs[1..][i] == rs[i + 1];
      DictsNone(rs[1..]);
    }
  }

  /** A list of dicts gives one record per entry, in order. */
  lemma {:induction false} DictsAll(rs: seq<Json>)
    requires forall i :: 0 <= i < |rs| ==> rs[i].JObj?
    ensures |Dicts(rs)| == |rs| && forall i :: 0 <= i < |rs| ==> Dicts(rs)[i] == rs[i].fields
  {
    if rs != [] {
      assert forall i :: 0 <= i < |rs[1..]| ==> rs[1..][i] == rs[i + 1];
      DictsAll(rs[1..]);
      assert Dicts(rs) == [rs[0].fields] + Dicts(rs[1..]);
    }
  }

  /** The filter works entry by entry: the dicts of a concatenation are the
      dicts of its first part followed by those of its second, and a single
      entry is kept exactly when it is a dict. Together these fix which
      entries are kept and in what order, for lists that mix dicts with other
      values. */
  lemma {:induction false} DictsAppend(a: seq<Json>, b: seq<Json>)
    ensures Dicts(a + b) == Dicts(a) + Dicts(b)
    ensures |a| == 1 ==> Dicts(a) == (if a[0].JObj? then [a[0].fields] else [])
    decreases |a|
  {
    if a == [] {
      assert a + b == b;
    } else {
      assert (a + b)[0] == a[0];
      assert (a + b)[1..] == a[1..] + b;
      DictsAppend(a[1..], b);
      if |a| == 1 {
        assert a[1..] == [];
      }
    }
  }

  /** Every record comes from a dict entry of the list. */
  lemma {:induction false} DictsFromList(rs: seq<Json>)
    ensures forall d :: d in Dicts(rs) ==> JObj(d) in rs
  {
    if rs != [] {
      DictsFromList(rs[1..]);
      assert forall d :: d in Dicts(rs) ==> d in Dicts(rs[1..]) || (rs[0].JObj? && d == rs[0].fields);
    }
  }

  /** A result's `name` becomes the record's `title`; a missing field is None,
      and a `title` key in the result is not read. */
  lemma ItemRenamesName(n: string, u: string, t: string)
    ensures ItemOf([("name", JStr(n)), ("url", JStr(u))]) == Ok(SearchResultItem(Some(n), None, Some(u)))
    ensures ItemOf([("title", JStr(t))]) == Ok(SearchResultItem(None, None, None))
    ensures ItemOf([("name", JNum(1.0))]) == Err(ValidationError)
  {
    var a := [("name", JStr(n)), ("url", JStr(u))];
    LookupAt(a, 1);
    LookupSpec(a, "snippet");
    LookupSpec([("title", JStr(t))], "name");
    LookupSpec([("title", JStr(t))], "snippet");
    LookupSpec([("title", JStr(t))], "url");
  }

  /** Once set, the conversation id is never overwritten by a later event;
      perplexity.py never sets one. */
  lemma UuidFirstWriteWins(gen: Generation, mode: CitationMode, loads: Decoder, s: ResponseState, data: Json)
    requires s.conversationUuid != JNull || gen == Script
    ensures Process(gen, mode, loads, s, data).after.conversationUuid == s.conversationUuid
  {
    assert UuidStep(gen, s, data) == Ok(s);
  }

  /** While no id is known, the first event carrying `backend_uuid` supplies
      it, whatever else that event does; an event without it leaves it unset. */
  lemma UuidFromFirstCarrier(gen: Generation, mode: CitationMode, loads: Decoder, s: ResponseState, data: Json)
    requires gen != Script && s.conversationUuid == JNull && data.JObj?
    ensures Has(data, "backend_uuid") ==>
      Process(gen, mode, loads, s, data).after.conversationUuid == Lookup(data.fields, "backend_uuid").value
    ensures !Has(data, "backend_uuid") ==> Process(gen, mode, loads, s, data).after.conversationUuid == JNull
  {
    var u := UuidStep(gen, s, data);
    assert u.Ok?;
    assert Has(data, "backend_uuid") ==> u.value.conversationUuid == Lookup(data.fields, "backend_uuid").value;
    assert !Has(data, "backend_uuid") ==> u.value == s;
  }

  /** An event without `text` changes nothing but the conversation id. */
  lemma EventWithoutText(gen: Generation, mode: CitationMode, loads: Decoder, s: ResponseState, data: Json)
    requires data.JObj? && !Has(data, "text")
    ensures var a := Process(gen, mode, loads, s, data);
      a.raised.None? && a.after == s.(conversationUuid := a.after.conversationUuid)
  {
    assert UuidStep(gen, s, data).Ok?;
  }

  /** A list of steps without a `FINAL` step changes nothing but the
      conversation id. */
  lemma NoFinalStepNoUpdate(gen: Generation, mode: CitationMode, loads: Decoder, s: ResponseState, data: Json, steps: seq<Json>)
    requires TextIsSteps(loads, data, steps)
    requires Ordinary(gen, steps, 0, |steps|)
    ensures var a := Process(gen, mode, loads, s, data);
      a.raised.None? && a.after == s.(conversationUuid := a.after.conversationUuid)
  {
    assert UuidStep(gen, s, data).Ok?;
    assert Contains(data, "text") == Ok(true);
    assert FirstFinal(gen, steps, 0) == Ok(None);
  }

  /** A scan that reaches step `k` unchanged finds `k` when it is the first
      `FINAL` step, whatever follows it. */
  lemma {:induction false} FirstFinalFrom(gen: Generation, a: seq<Json>, b: seq<Json>, from: nat, k: nat)
    requires from <= k < |a| && k < |b| && a[..k + 1] == b[..k + 1]
    requires Ordinary(gen, a, from, k) && StepIsFinal(gen, a[k]) == Ok(true)
    ensures FirstFinal(gen, b, from) == Ok(Some(k))
    decreases k - from
  {
    assert a[from] == a[..k + 1][from] == b[..k + 1][from] == b[from];
    if from < k {
      assert StepIsFinal(gen, b[from]) == Ok(false);
      FirstFinalFrom(gen, a, b, from + 1, k);
    }
  }

  /** Only the first `FINAL` step counts: the steps after it can be anything. */
  lemma OnlyFirstFinalCounts(gen: Generation, steps: seq<Json>, k: nat, tail: seq<Json>)
    requires FirstFinal(gen, steps, 0) == Ok(Some(k))
    ensures FirstFinal(gen, steps[..k + 1] + tail, 0) == Ok(Some(k))
  {
    var b := steps[..k + 1] + tail;
    assert b[..k + 1] == steps[..k + 1];
    FirstFinalFrom(gen, steps, b, 0, k);
  }

  /** A step examined before the first `FINAL` one that is not a dict (or, in
      perplexity.py, lacks `step_type`) makes the scan raise. */
  lemma ScanRaises(gen: Generation, steps: seq<Json>, k: nat)
    requires k < |steps| && Ordinary(gen, steps, 0, k)
    requires if gen == Script then !Has(steps[k], "step_type") else !steps[k].JObj?
    ensures FirstFinal(gen, steps, 0).Err?
    ensures gen == Script && steps[k].JObj? ==> FirstFinal(gen, steps, 0) == Err(KeyError)
    ensures gen != Script ==> FirstFinal(gen, steps, 0) == Err(AttributeError)
  {
    var r := FirstFinal(gen, steps, 0);
    if r.Err? {
      var j :| 0 <= j < |steps| && StepIsFinal(gen, steps[j]) == Err(r.error) && Ordinary(gen, steps, 0, j);
      assert j == k by {
        if j < k {
        } else if j > k {
        }
      }
    }
  }

  /** In src/perplexity_api and src/perplexity_webui_scraper/__init__.py the
      first `FINAL` step replaces the answer by `content.answer` and leaves no
      chunks, no last chunk and no search results. */
  lemma WrappedFinalAnswer(gen: Generation, mode: CitationMode, loads: Decoder, s: ResponseState, data: Json,
                           steps: seq<Json>, k: nat, content: Json, v: Json)
    requires gen == Api || gen == Scraper
    requires TextIsSteps(loads, data, steps) && FirstFinal(gen, steps, 0) == Ok(Some(k))
    requires Subscript(steps[k], "content") == Ok(content) && Subscript(content, "answer") == Ok(v)
    ensures var a := Process(gen, mode, loads, s, data);
      && a.raised.None?
      && a.after.title == Title(gen, data)
      && a.after.answer == v
      && a.after.chunks == JArr([]) && a.after.lastChunk == JNull
      && a.after.searchResults == Raw(JArr([]))
      && a.after.raw == JObj([("answer", v)])
  {
    assert UuidStep(gen, s, data).Ok?;
    assert Contains(data, "text") == Ok(true);
    assert FinalPayload(gen, loads, steps[k]) == Ok(JObj([("answer", v)]));
    assert Lookup([("answer", v)], "answer") == Some(v);
    LookupSpec([("answer", v)], "chunks");
    LookupSpec([("answer", v)], "web_results");
  }

  /** perplexity.py decodes the `FINAL` step's `content.answer` and uses what
      it decodes to as the answer data. */
  lemma ScriptFinalDecoded(mode: CitationMode, loads: Decoder, s: ResponseState, data: Json,
                           steps: seq<Json>, k: nat, content: Json, answer: string, decoded: Json)
    requires TextIsSteps(loads, data, steps) && FirstFinal(Script, steps, 0) == Ok(Some(k))
    requires Subscript(steps[k], "content") == Ok(content) && Subscript(content, "answer") == Ok(JStr(answer))
    requires loads(answer) == Some(decoded)
    ensures var a := Process(Script, mode, loads, s, data);
      a == Update(Script, mode, s, Title(Script, data), decoded)
      && (a.raised.None? ==> a.after.raw == decoded)
      && (!decoded.JObj? ==> a.raised == Some(AttributeError))
  {
    assert UuidStep(Script, s, data) == Ok(s);
    assert Contains(data, "text") == Ok(true);
  }

  /** core.py uses the decoded `content.answer` when it is a single
      brace-wrapped line, and the whole `content` object otherwise; a
      brace-wrapped answer that does not decode raises. */
  lemma CoreFinalPayload(mode: CitationMode, loads: Decoder, s: ResponseState, data: Json,
                         steps: seq<Json>, k: nat, content: Json)
    requires TextIsSteps(loads, data, steps) && FirstFinal(Core, steps, 0) == Ok(Some(k))
    requires content == GetOr(steps[k].fields, "content", JObj([])) && content.JObj?
    ensures var answer := GetOr(content.fields, "answer", JNull);
      var a := Process(Core, mode, loads, s, data);
      && (answer.JStr? && BraceWrapped(answer.s) && loads(answer.s).Some? && a.raised.None? ==>
            a.after.raw == loads(answer.s).value)
      && (answer.JStr? && BraceWrapped(answer.s) && loads(answer.s).None? ==> a.raised == Some(JsonDecodeError))
      && (!(answer.JStr? && BraceWrapped(answer.s)) && a.raised.None? ==> a.after.raw == content)
  {
    assert UuidStep(Core, s, data).Ok?;
    assert Contains(data, "text") == Ok(true);
    assert steps[k].JObj?;
  }

  /** A dict-shaped `text` is the answer data itself. */
  lemma DictTextUsedDirectly(gen: Generation, mode: CitationMode, loads: Decoder, s: ResponseState, data: Json, fields: seq<(string, Json)>)
    requires data.JObj? && Lookup(data.fields, "text").Some?
    requires Loads(loads, Lookup(data.fields, "text").value) == Ok(JObj(fields))
    ensures var a := Process(gen, mode, loads, s, data);
      && a.after.title == Title(gen, data)
      && (a.raised.None? ==> a.after.raw == JObj(fields) && a.after.chunks == GetOr(fields, "chunks", JArr([])))
  {
    assert UuidStep(gen, s, data).Ok?;
    assert Contains(data, "text") == Ok(true);
  }

  /** The title falls back to `""`, except in core.py, where it is None. */
  lemma TitleDefault(gen: Generation, data: Json)
    requires data.JObj? && !Has(data, "thread_title")
    ensures Title(gen, data) == (if gen == Core then JNull else JStr(""))
  {
  }

  /** An update replaces every response field: what it leaves does not depend
      on the previous response, only on the conversation id. */
  lemma UpdateReplaces(gen: Generation, mode: CitationMode, s: ResponseState, t: ResponseState, title: Json, answerData: Json)
    requires s.conversationUuid == t.conversationUuid
    requires Update(gen, mode, s, title, answerData).raised.None?
    ensures Update(gen, mode, t, title, answerData) == Update(gen, mode, s, title, answerData)
  {
  }

  /** `last_chunk` is the last chunk (or None) after a reset and after every
      event processed without an exception. */
  lemma LastChunkInvariant(gen: Generation, mode: CitationMode, loads: Decoder, s: ResponseState, data: Json)
    ensures LastChunkConsistent(Empty(gen))
    ensures LastChunkConsistent(s) && Process(gen, mode, loads, s, data).raised.None? ==>
      LastChunkConsistent(Process(gen, mode, loads, s, data).after)
  {
    var u := UuidStep(gen, s, data);
    if u.Ok? {
      assert u.value.chunks == s.chunks && u.value.lastChunk == s.lastChunk;
    }
  }

  /** In core.py the stored answer is the payload's answer passed through the
      citation formatter with the freshly built search results: unchanged in
      `DEFAULT` mode and when no result is a dict. */
  lemma CoreAnswerFormatted(mode: CitationMode, s: ResponseState, title: Json, answerData: Json)
    requires answerData.JObj?
    requires Update(Core, mode, s, title, answerData).raised.None?
    ensures var a := Update(Core, mode, s, title, answerData);
      var answer := GetOr(answerData.fields, "answer", JNull);
      && CoreResults(answerData.fields).Ok?
      && a.after.searchResults == Items(CoreResults(answerData.fields).value)
      && (answer.JStr? ==> a.after.answer == JStr(FormatText(mode, answer.s, CoreResults(answerData.fields).value)))
      && (mode == Default ==> a.after.answer == answer)
      && (CoreResults(answerData.fields).value == [] ==> a.after.answer == answer)
  {
    var items := CoreResults(answerData.fields).value;
    var answer := GetOr(answerData.fields, "answer", JNull);
    if answer.JStr? && items == [] {
      NoResultsIdentity(mode, answer.s);
    }
  }
}
