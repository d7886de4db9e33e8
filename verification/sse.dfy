/** `_extract_json_line`: the server-sent-event line decoder, the same in all
    four generations. Bytes and text lines behave alike, so lines are text. */
module Sse {
  import opened Json

  /** The six-character prefix of a data line. */
  const DataPrefix: string := "data: "

  predicate IsDataLine(line: string)
  {
    |line| >= |DataPrefix| && line[..|DataPrefix|] == DataPrefix
  }

  /** The decoded payload of a data line, `None` for any other line; a data
      line whose payload is not JSON raises. */
  function ExtractJsonLine(loads: Decoder, line: string): (r: Result<Option<Json>>)
    ensures !IsDataLine(line) ==> r == Ok(None)
    ensures IsDataLine(line) ==> (r.Ok? <==> loads(line[6..]).Some?)
    ensures IsDataLine(line) && r.Ok? ==> r.value == loads(line[6..])
  {
    if IsDataLine(line) then
      match loads(line[6..])
      case Some(v) => Ok(Some(v))
      case None => Err(JsonDecodeError)
    else Ok(None)
  }

  /** Framing a payload as a data line and extracting it gives back exactly
      what decoding the payload gives. */
  lemma FrameRoundTrip(loads: Decoder, payload: string)
    ensures ExtractJsonLine(loads, DataPrefix + payload) ==
      (match loads(payload) case Some(v) => Ok(Some(v)) case None => Err(JsonDecodeError))
  {
    var line := DataPrefix + payload;
    assert line[..6] == DataPrefix && line[6..] == payload;
  }

  /** Blank lines, comments and event names are never data lines, whatever follows. */
  lemma NonDataLines(loads: Decoder, rest: string)
    ensures ExtractJsonLine(loads, "") == Ok(None)
    ensures ExtractJsonLine(loads, ":" + rest) == Ok(None)
    ensures ExtractJsonLine(loads, "event: " + rest) == Ok(None)
    ensures ExtractJsonLine(loads, "data:" + rest) == Ok(None) <==> rest == [] || rest[0] != ' '
  {
    var c := ":" + rest;
    assert c[0] == ':';
    var e := "event: " + rest;
    assert e[0] == 'e';
    var d := "data:" + rest;
    if |d| >= 6 {
      assert d[5] == rest[0];
      if rest[0] == ' ' {
        assert d[..6] == DataPrefix;
      }
    }
  }
}
