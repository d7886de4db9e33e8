/** The call loop shared by `AskCall.run`, `AskCall.stream` and the two
    branches of perplexity.py's `ask`, as functions of the state before the
    loop and the response lines: extract each line, skip what is not a truthy
    event, process the event, stop after the first truthy `final`. */
module Calls {
  import opened Json
  import opened Enums
  import opened Sse
  import opened Accumulator

  /** What handling one response line did: the state it left, the exception
      it raised, the event it processed without an exception (the point where
      the generator yields), and whether that event ended the loop. */
  datatype Outcome = Outcome(after: ResponseState, raised: Option<PyError>, processed: Option<Json>, halted: bool)

  /** `data.get("final")` taken as a truth value. */
  function FinalFlag(data: Json): (r: Result<bool>)
    ensures r.Err? <==> !data.JObj?
    ensures data.JObj? ==> r == Ok(Has(data, "final") && Truthy(Lookup(data.fields, "final").value))
  {
    match DictGet(data, "final", JNull)
    case Err(e) => Err(e)
    case Ok(v) => Ok(Truthy(v))
  }

  /** One iteration of `for line in response.iter_lines()`. */
  function StepLine(gen: Generation, mode: CitationMode, loads: Decoder, s: ResponseState, line: string): (o: Outcome)
    ensures !IsDataLine(line) ==> o == Outcome(s, None, None, false)
    ensures o.processed.None? ==> !o.halted
    ensures o.processed.None? && o.raised.None? ==> o.after == s
  {
    match ExtractJsonLine(loads, line)
    case Err(e) => Outcome(s, Some(e), None, false)
    case Ok(None) => Outcome(s, None, None, false)
    case Ok(Some(data)) =>
      if !Truthy(data) then Outcome(s, None, None, false)
      else
        var a := Process(gen, mode, loads, s, data);
        if a.raised.Some? then Outcome(a.after, a.raised, None, false)
        else match FinalFlag(data)
          case Err(e) => Outcome(a.after, Some(e), Some(data), false)
          case Ok(f) => Outcome(a.after, None, Some(data), f)
  }

  /** One iteration of the loop as a function of the state and the line. */
  type Step = (ResponseState, string) -> Outcome

  /** The iteration every generation runs. */
  function Stepper(gen: Generation, mode: CitationMode, loads: Decoder): Step
  {
    (s: ResponseState, line: string) => StepLine(gen, mode, loads, s, line)
  }

  /** Where the blocking loop ends: the state, the exception that escaped it,
      and whether it stopped at a `final` event. */
  datatype Fed = Fed(after: ResponseState, raised: Option<PyError>, halted: bool)

  /** The blocking loop over `lines`, from state `s`. */
  function Feed(step: Step, s: ResponseState, lines: seq<string>): (f: Fed)
    ensures f.halted ==> f.raised.None?
    decreases |lines|
  {
    if lines == [] then Fed(s, None, false)
    else
      var o := step(s, lines[0]);
      if o.raised.Some? || o.halted then Fed(o.after, o.raised, o.raised.None? && o.halted)
      else Feed(step, o.after, lines[1..])
  }

  /** The events the loop processes without an exception, in order. */
  function Events(step: Step, s: ResponseState, lines: seq<string>): seq<Json>
    decreases |lines|
  {
    if lines == [] then []
    else
      var o := step(s, lines[0]);
      var here := if o.processed.Some? then [o.processed.value] else [];
      if o.raised.Some? || o.halted then here
      else here + Events(step, o.after, lines[1..])
  }

  /** What the generators yield: a `StreamResponse` snapshot whose raw field is
      the event, or, in perplexity.py, the event itself. */
  datatype Yield =
    | Snapshot(title: Json, answer: Json, chunks: seq<Json>, lastChunk: Json, searchResults: SearchResults, raw: Json)
    | RawEvent(event: Json)

  /** The event a yield was made for. */
  function EventOf(y: Yield): Json
  {
    if y.RawEvent? then y.event else y.raw
  }

  /** `list(search_results)`. */
  function CopyResults(r: SearchResults): (c: Result<SearchResults>)
    ensures r.Items? ==> c == Ok(r)
    ensures r.Raw? && r.value.JArr? ==> c == Ok(r)
  {
    match r
    case Items(_) => Ok(r)
    case Raw(v) =>
      match Iterate(v)
      case Err(e) => Err(e)
      case Ok(xs) => Ok(Raw(JArr(xs)))
  }

  /** The value yielded after an event: a snapshot of the fields with
      `list(...)` copies of chunks and search results, in the order the
      keyword arguments are evaluated. */
  function SnapshotOf(gen: Generation, s: ResponseState, event: Json): (r: Result<Yield>)
    ensures gen == Script ==> r == Ok(RawEvent(event))
    ensures r.Ok? ==> EventOf(r.value) == event
    ensures gen != Script && r.Ok? ==>
      r.value.Snapshot? && r.value.title == s.title && r.value.answer == s.answer && r.value.lastChunk == s.lastChunk
    ensures gen != Script && s.chunks.JArr? ==> (r.Ok? ==> r.value.chunks == s.chunks.items)
    ensures gen != Script && r.Ok? ==>
      Iterate(s.chunks) == Ok(r.value.chunks) && CopyResults(s.searchResults) == Ok(r.value.searchResults)
    ensures gen != Script ==> (r.Ok? <==> Iterate(s.chunks).Ok? && CopyResults(s.searchResults).Ok?)
  {
    if gen == Script then Ok(RawEvent(event))
    else
      match Iterate(s.chunks)
      case Err(e) => Err(e)
      case Ok(chunks) =>
        match CopyResults(s.searchResults)
        case Err(e) => Err(e)
        case Ok(results) => Ok(Snapshot(s.title, s.answer, chunks, s.lastChunk, results, event))
  }

  /** Where a consumer of the generator is after pulling: the state, what it
      received, and the exception its last pull raised. */
  datatype Pulled = Pulled(after: ResponseState, received: seq<Yield>, raised: Option<PyError>)

  /** A generator over `lines`, started from state `s` and pulled at most
      `pulls` times. After the last pull it stays suspended at its yield, so
      the `final` check of that event is never run. */
  function StreamFrom(gen: Generation, step: Step, s: ResponseState, lines: seq<string>, pulls: nat): (p: Pulled)
    requires pulls > 0
    ensures |p.received| <= pulls
    decreases |lines|
  {
    if lines == [] then Pulled(s, [], None)
    else
      var o := step(s, lines[0]);
      if o.processed.None? then
        if o.raised.Some? || o.halted then Pulled(o.after, [], o.raised)
        else StreamFrom(gen, step, o.after, lines[1..], pulls)
      else
        match SnapshotOf(gen, o.after, o.processed.value)
        case Err(e) => Pulled(o.after, [], Some(e))
        case Ok(y) =>
          if pulls == 1 then Pulled(o.after, [y], None)
          else if o.raised.Some? || o.halted then Pulled(o.after, [y], o.raised)
          else
            var rest := StreamFrom(gen, step, o.after, lines[1..], pulls - 1);
            Pulled(rest.after, [y] + rest.received, rest.raised)
  }

  /** The `AskResponse` record `run` returns. */
  datatype AskResponse = AskResponse(title: Json, answer: Json, chunks: seq<Json>, searchResults: SearchResults, raw: Json)

  /** Building the response from the fields, with `list(...)` copies. */
  function ResponseOf(s: ResponseState): (r: Result<AskResponse>)
    ensures r.Ok? ==> r.value.title == s.title && r.value.answer == s.answer && r.value.raw == s.raw
    ensures s.chunks.JArr? ==> (r.Ok? ==> r.value.chunks == s.chunks.items)
    ensures r.Ok? <==> Iterate(s.chunks).Ok? && CopyResults(s.searchResults).Ok?
    ensures r.Ok? ==> Iterate(s.chunks) == Ok(r.value.chunks) && CopyResults(s.searchResults) == Ok(r.value.searchResults)
  {
    match Iterate(s.chunks)
    case Err(e) => Err(e)
    case Ok(chunks) =>
      match CopyResults(s.searchResults)
      case Err(e) => Err(e)
      case Ok(results) => Ok(AskResponse(s.title, s.answer, chunks, results, s.raw))
  }

  /** `run`: reset, loop, build the response; an exception escapes instead. */
  function RunResult(gen: Generation, mode: CitationMode, loads: Decoder, lines: seq<string>): (r: Result<AskResponse>)
    ensures var f := Feed(Stepper(gen, mode, loads), Empty(gen), lines);
      && (f.raised.Some? ==> r == Err(f.raised.value))
      && (r.Ok? ==> r.value.title == f.after.title && r.value.answer == f.after.answer && r.value.raw == f.after.raw)
      && (f.raised.None? ==> r == ResponseOf(f.after))
      && (r.Ok? ==> Iterate(f.after.chunks) == Ok(r.value.chunks)
                    && CopyResults(f.after.searchResults) == Ok(r.value.searchResults))
  {
    var f := Feed(Stepper(gen, mode, loads), Empty(gen), lines);
    if f.raised.Some? then Err(f.raised.value) else ResponseOf(f.after)
  }

  /** No line after the one that stopped the loop (a truthy `final`, or an
      exception) has any effect; otherwise the loop over `a + b` continues
      over `b` from where `a` left it. */
  lemma {:induction false} FeedAppend(step: Step, s: ResponseState, a: seq<string>, b: seq<string>)
    ensures var f := Feed(step, s, a);
      if f.raised.Some? || f.halted then Feed(step, s, a + b) == f
      else Feed(step, s, a + b) == Feed(step, f.after, b)
    decreases |a|
  {
    if a == [] {
      assert a + b == b;
    } else {
      assert (a + b)[0] == a[0];
      assert (a + b)[1..] == a[1..] + b;
      var o := step(s, a[0]);
      if !(o.raised.Some? || o.halted) {
        FeedAppend(step, o.after, a[1..], b);
      }
    }
  }

  /** A line without the `data: ` prefix, and a data line whose event is
      falsy (`{}`, `[]`, `null`, ...), is skipped. */
  lemma SkippedLines(gen: Generation, mode: CitationMode, loads: Decoder, s: ResponseState, line: string, rest: seq<string>)
    requires !IsDataLine(line) || (loads(line[6..]).Some? && !Truthy(loads(line[6..]).value))
    ensures Feed(Stepper(gen, mode, loads), s, [line] + rest) == Feed(Stepper(gen, mode, loads), s, rest)
    ensures Events(Stepper(gen, mode, loads), s, [line] + rest) == Events(Stepper(gen, mode, loads), s, rest)
  {
    assert ([line] + rest)[1..] == rest;
    assert StepLine(gen, mode, loads, s, line) == Outcome(s, None, None, false);
  }

  /** A malformed data line ends the loop with the decoder's exception. */
  lemma MalformedFrameRaises(gen: Generation, mode: CitationMode, loads: Decoder, s: ResponseState, line: string, rest: seq<string>)
    requires IsDataLine(line) && loads(line[6..]).None?
    ensures Feed(Stepper(gen, mode, loads), s, [line] + rest) == Fed(s, Some(JsonDecodeError), false)
    ensures Events(Stepper(gen, mode, loads), s, [line] + rest) == []
  {
    assert StepLine(gen, mode, loads, s, line) == Outcome(s, Some(JsonDecodeError), None, false);
  }

  /** An event with a truthy `final` is the last one processed. */
  lemma FinalEventStops(gen: Generation, mode: CitationMode, loads: Decoder, s: ResponseState, line: string, rest: seq<string>)
    requires IsDataLine(line) && loads(line[6..]).Some?
    requires var data := loads(line[6..]).value;
      data.JObj? && Truthy(data) && Has(data, "final") && Truthy(Lookup(data.fields, "final").value)
    requires Process(gen, mode, loads, s, loads(line[6..]).value).raised.None?
    ensures Feed(Stepper(gen, mode, loads), s, [line] + rest) == Fed(Process(gen, mode, loads, s, loads(line[6..]).value).after, None, true)
    ensures Events(Stepper(gen, mode, loads), s, [line] + rest) == [loads(line[6..]).value]
  {
    var data := loads(line[6..]).value;
    assert StepLine(gen, mode, loads, s, line) == Outcome(Process(gen, mode, loads, s, data).after, None, Some(data), true);
  }

  /** Across the whole loop the conversation id, once known, stays. */
  lemma {:induction false} FeedKeepsUuid(gen: Generation, mode: CitationMode, loads: Decoder, s: ResponseState, lines: seq<string>)
    requires s.conversationUuid != JNull || gen == Script
    ensures Feed(Stepper(gen, mode, loads), s, lines).after.conversationUuid == s.conversationUuid
    decreases |lines|
  {
    if lines != [] {
      var e := ExtractJsonLine(loads, lines[0]);
      if e.Ok? && e.value.Some? && Truthy(e.value.value) {
        UuidFirstWriteWins(gen, mode, loads, s, e.value.value);
      }
      var o := StepLine(gen, mode, loads, s, lines[0]);
      assert o.after.conversationUuid == s.conversationUuid;
      FeedKeepsUuid(gen, mode, loads, o.after, lines[1..]);
    }
  }

  /** A loop that ends without an exception leaves `last_chunk` equal to the
      last chunk, or None. */
  lemma {:induction false} FeedKeepsLastChunk(gen: Generation, mode: CitationMode, loads: Decoder, s: ResponseState, lines: seq<string>)
    requires LastChunkConsistent(s)
    ensures var f := Feed(Stepper(gen, mode, loads), s, lines);
      f.raised.None? ==> LastChunkConsistent(f.after)
    decreases |lines|
  {
    if lines != [] {
      var e := ExtractJsonLine(loads, lines[0]);
      if e.Ok? && e.value.Some? && Truthy(e.value.value) {
        LastChunkInvariant(gen, mode, loads, s, e.value.value);
      }
      var o := StepLine(gen, mode, loads, s, lines[0]);
      if o.raised.None? {
        FeedKeepsLastChunk(gen, mode, loads, o.after, lines[1..]);
      }
    }
  }

  /** Pulling once more only extends what was received. */
  lemma {:induction false} StreamPrefix(gen: Generation, step: Step, s: ResponseState, lines: seq<string>, pulls: nat)
    requires pulls > 0
    ensures StreamFrom(gen, step, s, lines, pulls).received <= StreamFrom(gen, step, s, lines, pulls + 1).received
    decreases |lines|
  {
    if lines != [] {
      var o := step(s, lines[0]);
      if o.processed.None? {
        if !(o.raised.Some? || o.halted) {
          StreamPrefix(gen, step, o.after, lines[1..], pulls);
        }
      } else if pulls > 1 && SnapshotOf(gen, o.after, o.processed.value).Ok? && o.raised.None? && !o.halted {
        StreamPrefix(gen, step, o.after, lines[1..], pulls - 1);
      }
    }
  }

  /** The events of the yields received are, in order, the first events the
      loop processes. */
  lemma {:induction false} StreamEventsPrefix(gen: Generation, step: Step, s: ResponseState, lines: seq<string>, pulls: nat)
    requires pulls > 0
    ensures var p := StreamFrom(gen, step, s, lines, pulls);
      var evs := Events(step, s, lines);
      && |p.received| <= |evs|
      && (forall i :: 0 <= i < |p.received| ==> EventOf(p.received[i]) == evs[i])
    decreases |lines|
  {
    if lines != [] {
      var o := step(s, lines[0]);
      if o.processed.None? {
        if !(o.raised.Some? || o.halted) {
          StreamEventsPrefix(gen, step, o.after, lines[1..], pulls);
        }
      } else if pulls > 1 && SnapshotOf(gen, o.after, o.processed.value).Ok? && o.raised.None? && !o.halted {
        StreamEventsPrefix(gen, step, o.after, lines[1..], pulls - 1);
        var rest := StreamFrom(gen, step, o.after, lines[1..], pulls - 1);
        assert Events(step, s, lines) == [o.processed.value] + Events(step, o.after, lines[1..]);
        assert StreamFrom(gen, step, s, lines, pulls).received == [SnapshotOf(gen, o.after, o.processed.value).value] + rest.received;
      }
    }
  }

  /** Each pull that raises nothing yields one value: a generator pulled
      fewer times than the loop has events yields once per pull, and
      otherwise once per event. */
  lemma {:induction false} StreamCount(gen: Generation, step: Step, s: ResponseState, lines: seq<string>, pulls: nat)
    requires pulls > 0
    ensures var p := StreamFrom(gen, step, s, lines, pulls);
      var evs := Events(step, s, lines);
      p.raised.None? ==> |p.received| == (if pulls < |evs| then pulls else |evs|)
    decreases |lines|
  {
    if lines != [] {
      var o := step(s, lines[0]);
      if o.processed.None? {
        if !(o.raised.Some? || o.halted) {
          StreamCount(gen, step, o.after, lines[1..], pulls);
        }
      } else if pulls > 1 && SnapshotOf(gen, o.after, o.processed.value).Ok? && o.raised.None? && !o.halted {
        StreamCount(gen, step, o.after, lines[1..], pulls - 1);
        assert |Events(step, s, lines)| == 1 + |Events(step, o.after, lines[1..])|;
      }
    }
  }

  /** A generator pulled more often than there are lines, whose pulls raise
      nothing, yields once per processed event and leaves the state the
      blocking loop leaves. */
  lemma {:induction false} StreamMatchesRun(gen: Generation, step: Step, s: ResponseState, lines: seq<string>, pulls: nat)
    requires pulls > |lines|
    ensures var p := StreamFrom(gen, step, s, lines, pulls);
      var f := Feed(step, s, lines);
      p.raised.None? ==>
        p.after == f.after && f.raised.None? && |p.received| == |Events(step, s, lines)|
    decreases |lines|
  {
    if lines != [] {
      var o := step(s, lines[0]);
      if o.processed.None? {
        if !(o.raised.Some? || o.halted) {
          StreamMatchesRun(gen, step, o.after, lines[1..], pulls);
        }
      } else if SnapshotOf(gen, o.after, o.processed.value).Ok? && o.raised.None? && !o.halted {
        StreamMatchesRun(gen, step, o.after, lines[1..], pulls - 1);
        assert |Events(step, s, lines)| == 1 + |Events(step, o.after, lines[1..])|;
      }
    }
  }
}
