/** The client object and the call object: the response fields live on
    `Perplexity`, and its methods update them in place. Each method is proved
    to leave exactly the state the accumulator and call-loop functions
    describe. The HTTP exchange is not modelled: a call is given the lines of
    its response. */
module Client {
  import opened Json
  import opened Enums
  import opened Citations
  import opened Sse
  import opened Accumulator
  import opened Calls
  import opened Payload

  class Perplexity {
    /** Which copy of the client this object is. */
    const gen: Generation
    /** `_citation_mode` (core.py only; the others never read it). */
    var citationMode: CitationMode
    var title: Json
    var answer: Json
    var chunks: Json
    var lastChunk: Json
    var searchResults: SearchResults
    var conversationUuid: Json
    var raw: Json

    /** The response fields as one value. */
    function State(): ResponseState
      reads this
    {
      ResponseState(title, answer, chunks, lastChunk, searchResults, conversationUuid, raw)
    }

    /** `__init__`: the citation mode starts at `DEFAULT` and the fields are reset. */
    constructor(gen: Generation)
      ensures this.gen == gen && citationMode == Default
      ensures State() == Empty(gen)
    {
      this.gen := gen;
      citationMode := Default;
      title, answer, chunks, lastChunk := JNull, JNull, JArr([]), JNull;
      searchResults := if gen == Core then Items([]) else Raw(JArr([]));
      conversationUuid, raw := JNull, JObj([]);
    }

    /** `reset_response_data`. */
    method ResetResponseData()
      modifies this
      ensures State() == Empty(gen)
      ensures citationMode == old(citationMode)
    {
      title, answer, chunks, lastChunk := JNull, JNull, JArr([]), JNull;
      searchResults := if gen == Core then Items([]) else Raw(JArr([]));
      conversationUuid, raw := JNull, JObj([]);
    }

    /** `_update_response_data(title, answer_data)`; fields assigned before an
        exception keep their new value. */
    method UpdateResponseData(title: Json, answerData: Json) returns (raised: Option<PyError>)
      modifies this
      ensures citationMode == old(citationMode)
      ensures Applied(State(), raised) == Update(gen, citationMode, old(State()), title, answerData)
    {
      this.title := title;
      if !answerData.JObj? {
        return Some(AttributeError);
      }
      var fields := answerData.fields;
      if gen == Core {
        var items := CoreResults(fields);
        if items.Err? {
          return Some(items.error);
        }
        searchResults := Items(items.value);
        var formatted := FormatCitations(citationMode, GetOr(fields, "answer", JNull), items.value);
        if formatted.Err? {
          return Some(formatted.error);
        }
        answer := formatted.value;
      } else {
        answer := GetOr(fields, "answer", JNull);
      }
      chunks := GetOr(fields, "chunks", JArr([]));
      var last := LastOrNone(chunks);
      if last.Err? {
        return Some(last.error);
      }
      lastChunk := last.value;
      if gen != Core {
        searchResults := Raw(GetOr(fields, "web_results", JArr([])));
      }
      raw := answerData;
      raised := None;
    }

    /** `_process_data(data)`: the conversation id, then the `text` field; a
        list of steps is scanned for the first `FINAL` one. */
    method ProcessData(loads: Decoder, data: Json) returns (raised: Option<PyError>)
      modifies this
      ensures citationMode == old(citationMode)
      ensures Applied(State(), raised) == Process(gen, citationMode, loads, old(State()), data)
    {
      if gen != Script && conversationUuid == JNull {
        var carries := Contains(data, "backend_uuid");
        if carries.Err? {
          return Some(carries.error);
        }
        if carries.value {
          var uuid := Subscript(data, "backend_uuid");
          if uuid.Err? {
            return Some(uuid.error);
          }
          conversationUuid := uuid.value;
        }
      }
      ghost var s1 := State();
      assert UuidStep(gen, old(State()), data) == Ok(s1);
      var hasText := Contains(data, "text");
      if hasText.Err? {
        return Some(hasText.error);
      }
      if !hasText.value {
        return None;
      }
      var text := Subscript(data, "text");
      if text.Err? {
        return Some(text.error);
      }
      var decoded := Loads(loads, text.value);
      if decoded.Err? {
        return Some(decoded.error);
      }
      if decoded.value.JArr? {
        raised := ScanSteps(loads, data, decoded.value.items);
      } else if decoded.value.JObj? {
        raised := UpdateResponseData(Title(gen, data), decoded.value);
      } else {
        raised := None;
      }
    }

    /** The `for item in text_data` loop of `_process_data`: the first
        `FINAL` step's answer data updates the fields. */
    method ScanSteps(loads: Decoder, data: Json, steps: seq<Json>) returns (raised: Option<PyError>)
      requires data.JObj?
      modifies this
      ensures citationMode == old(citationMode)
      ensures Applied(State(), raised) == ApplySteps(gen, citationMode, loads, old(State()), data, steps)
    {
      var i := 0;
      while i < |steps|
        invariant 0 <= i <= |steps|
        invariant FirstFinal(gen, steps, i) == FirstFinal(gen, steps, 0)
        invariant State() == old(State()) && citationMode == old(citationMode)
      {
        var isFinal := StepIsFinal(gen, steps[i]);
        if isFinal.Err? {
          return Some(isFinal.error);
        }
        if isFinal.value {
          var answerData := FinalPayload(gen, loads, steps[i]);
          if answerData.Err? {
            return Some(answerData.error);
          }
          raised := UpdateResponseData(Title(gen, data), answerData.value);
          return;
        }
        i := i + 1;
      }
      raised := None;
    }

    /** The part of one loop iteration the blocking and the streaming loops
        share: parse the line and, for a truthy event, process it. `data` is
        the event when it was processed without an exception. */
    method ReadLine(loads: Decoder, line: string) returns (raised: Option<PyError>, data: Option<Json>)
      modifies this
      ensures citationMode == old(citationMode)
      ensures var o := Stepper(gen, citationMode, loads)(old(State()), line);
        State() == o.after && data == o.processed && raised == (if data.None? then o.raised else None)
    {
      ghost var o := StepLine(gen, citationMode, loads, State(), line);
      assert Stepper(gen, citationMode, loads)(State(), line) == o;
      data := None;
      var extracted := ExtractJsonLine(loads, line);
      if extracted.Err? {
        return Some(extracted.error), None;
      }
      if extracted.value.Some? && Truthy(extracted.value.value) {
        raised := ProcessData(loads, extracted.value.value);
        if raised.None? {
          data := extracted.value;
        }
      } else {
        raised := None;
      }
    }

    /** The blocking loop: every line in turn until a truthy `final` or an
        exception. */
    method Consume(loads: Decoder, lines: seq<string>) returns (raised: Option<PyError>)
      modifies this
      ensures citationMode == old(citationMode)
      ensures var f := Feed(Stepper(gen, citationMode, loads), old(State()), lines);
        State() == f.after && raised == f.raised
    {
      var i := 0;
      while i < |lines|
        invariant 0 <= i <= |lines|
        invariant citationMode == old(citationMode)
        invariant Feed(Stepper(gen, citationMode, loads), old(State()), lines) == Feed(Stepper(gen, citationMode, loads), State(), lines[i..])
      {
        assert lines[i..][0] == lines[i] && lines[i..][1..] == lines[i + 1..];
        var data;
        raised, data := ReadLine(loads, lines[i]);
        if raised.Some? {
          return;
        }
        if data.Some? {
          var final := FinalFlag(data.value);
          if final.Err? {
            return Some(final.error);
          }
          if final.value {
            return None;
          }
        }
        i := i + 1;
      }
      raised := None;
    }

    /** The generator loop pulled `pulls` times: after each event processed
        without an exception it yields a snapshot; after the last pull it
        stays suspended at that yield. */
    method Pull(loads: Decoder, lines: seq<string>, pulls: nat) returns (received: seq<Yield>, raised: Option<PyError>)
      requires pulls > 0
      modifies this
      ensures citationMode == old(citationMode)
      ensures var p := StreamFrom(gen, Stepper(gen, citationMode, loads), old(State()), lines, pulls);
        State() == p.after && received == p.received && raised == p.raised
    {
      received := [];
      var left := pulls;
      var i := 0;
      while i < |lines|
        invariant 0 <= i <= |lines| && left > 0
        invariant citationMode == old(citationMode)
        invariant var p := StreamFrom(gen, Stepper(gen, citationMode, loads), old(State()), lines, pulls);
          var q := StreamFrom(gen, Stepper(gen, citationMode, loads), State(), lines[i..], left);
          p == Pulled(q.after, received + q.received, q.raised)
      {
        assert lines[i..][0] == lines[i] && lines[i..][1..] == lines[i + 1..];
        var data;
        raised, data := ReadLine(loads, lines[i]);
        if raised.Some? {
          return;
        }
        if data.Some? {
          var snapshot := SnapshotOf(gen, State(), data.value);
          if snapshot.Err? {
            return received, Some(snapshot.error);
          }
          received := received + [snapshot.value];
          if left == 1 {
            return received, None;
          }
          left := left - 1;
          var final := FinalFlag(data.value);
          if final.Err? {
            return received, Some(final.error);
          }
          if final.value {
            return received, None;
          }
        }
        i := i + 1;
      }
      raised := None;
    }

    /** `ask` of src/perplexity_api, src/perplexity_webui_scraper/__init__.py
        and core.py: core.py first stores the citation mode; the others refuse
        more than ten attachments. Nothing is sent yet: the returned call
        object carries the payload. */
    method Ask(q: Query, mode: CitationMode) returns (r: Result<AskCall>)
      requires gen != Script && Accepts(gen, q.sources)
      modifies this
      ensures State() == old(State())
      ensures citationMode == (if gen == Core then mode else old(citationMode))
      ensures r.Ok? <==> AskPayload(gen, q).Ok?
      ensures r.Err? ==> r.error == AskPayload(gen, q).error
      ensures r.Ok? ==> fresh(r.value) && r.value.parent == this && r.value.payload == AskPayload(gen, q).value
    {
      if gen == Core {
        citationMode := mode;
      }
      var payload := AskPayload(gen, q);
      if payload.Err? {
        return Err(payload.error);
      }
      var call := new AskCall(this, payload.value);
      r := Ok(call);
    }

    /** A plain `ask(query)` on src/perplexity_api, src/perplexity_webui_scraper/__init__.py
        or core.py: every argument takes its default, and core.py's default
        citation mode is `CLEAN`. */
    method AskDefault(text: string) returns (r: Result<AskCall>)
      requires gen != Script
      modifies this
      ensures State() == old(State())
      ensures citationMode == (if gen == Core then Clean else old(citationMode))
      ensures r.Ok? && fresh(r.value) && r.value.parent == this
      ensures r.value.payload == AskPayload(gen, DefaultQuery(gen, text, FixedLocale)).value
    {
      DefaultArguments(gen, text, FixedLocale);
      r := Ask(DefaultQuery(gen, text, FixedLocale), Clean);
    }

    /** perplexity.py's `ask`: it clears the response fields before checking
        its arguments, and an exception from the attachment check or from
        building the payload leaves them cleared; otherwise it either runs the
        blocking loop or returns a generator, here pulled `pulls` times. */
    method AskScript(q: Query, loads: Decoder, lines: seq<string>, stream: bool, pulls: nat)
      returns (received: seq<Yield>, raised: Option<PyError>)
      requires gen == Script && Accepts(Script, q.sources)
      modifies this
      ensures citationMode == old(citationMode)
      ensures TooManyAttachments(q.attachments) ==> State() == Empty(Script) && received == [] && raised == Some(ValueError)
      ensures AskPayload(Script, q).Err? ==>
        State() == Empty(Script) && received == [] && raised == Some(AskPayload(Script, q).error)
      ensures AskPayload(Script, q).Ok? && !stream ==>
        var f := Feed(Stepper(Script, citationMode, loads), Empty(Script), lines);
        State() == f.after && received == [] && raised == f.raised
      ensures AskPayload(Script, q).Ok? && stream && pulls == 0 ==>
        State() == Empty(Script) && received == [] && raised == None
      ensures AskPayload(Script, q).Ok? && stream && pulls > 0 ==>
        var p := StreamFrom(Script, Stepper(Script, citationMode, loads), Empty(Script), lines, pulls);
        State() == p.after && received == p.received && raised == p.raised
    {
      ResetResponseData();
      var payload := AskPayload(Script, q);
      if payload.Err? {
        return [], Some(payload.error);
      }
      if !stream {
        raised := Consume(loads, lines);
        received := [];
      } else if pulls == 0 {
        received, raised := [], None;
      } else {
        received, raised := Pull(loads, lines, pulls);
      }
    }
  }

  /** `AskCall`: the payload of one `ask`, run or streamed against the
      client's response fields. */
  class AskCall {
    const parent: Perplexity
    const payload: Json

    constructor(parent: Perplexity, payload: Json)
      ensures this.parent == parent && this.payload == payload
    {
      this.parent := parent;
      this.payload := payload;
    }

    /** `run`: reset the fields, consume the lines, return the response built
        from the fields. */
    method Run(loads: Decoder, lines: seq<string>) returns (r: Result<AskResponse>)
      modifies parent
      ensures parent.citationMode == old(parent.citationMode)
      ensures parent.State() == Feed(Stepper(parent.gen, parent.citationMode, loads), Empty(parent.gen), lines).after
      ensures r == RunResult(parent.gen, parent.citationMode, loads, lines)
    {
      parent.ResetResponseData();
      var raised := parent.Consume(loads, lines);
      if raised.Some? {
        return Err(raised.value);
      }
      r := ResponseOf(parent.State());
    }

    /** `stream`, pulled `pulls` times: the body of the generator, reset
        included, only starts with the first pull. */
    method Stream(loads: Decoder, lines: seq<string>, pulls: nat) returns (received: seq<Yield>, raised: Option<PyError>)
      modifies parent
      ensures parent.citationMode == old(parent.citationMode)
      ensures pulls == 0 ==> parent.State() == old(parent.State()) && received == [] && raised == None
      ensures pulls > 0 ==>
        var p := StreamFrom(parent.gen, Stepper(parent.gen, parent.citationMode, loads), Empty(parent.gen), lines, pulls);
        parent.State() == p.after && received == p.received && raised == p.raised
    {
      if pulls == 0 {
        return [], None;
      }
      parent.ResetResponseData();
      received, raised := parent.Pull(loads, lines, pulls);
    }
  }
}
