/** `format_citations` of src/perplexity_webui_scraper/utils.py: rewrites the
    citation markers `[n]` of an answer according to the citation mode.

    The regular expression `\[(\d{1,2})\](?![\d\w])` is modelled as a
    tokenizer: scanning left to right, a marker is taken wherever one starts,
    and every other character is a one-character text token. The rewrite
    renders each token; the default rendering gives the input back. */
module Citations {
  import opened Json
  import opened Enums

  /** `SearchResultItem`: the fields are `str | None`. */
  datatype SearchResultItem = SearchResultItem(title: Option<string>, snippet: Option<string>, url: Option<string>)

  predicate IsDigit(c: char)
  {
    '0' <= c <= '9'
  }

  /** What `\w` matches, restricted to ASCII. */
  predicate IsWordChar(c: char)
  {
    IsDigit(c) || 'a' <= c <= 'z' || 'A' <= c <= 'Z' || c == '_'
  }

  /** Whether the text ends at `i` or continues with a non-word character:
      the lookahead `(?![\d\w])`. */
  predicate BoundaryAt(s: string, i: nat)
  {
    i >= |s| || !IsWordChar(s[i])
  }

  /** The length of the marker starting at `s[i]` (`[d]` or `[dd]` followed by
      a boundary), or 0 when none starts there. */
  function MarkerLength(s: string, i: nat): (n: nat)
    requires i <= |s|
    ensures n == 0 || n == 3 || n == 4
    ensures i + n <= |s|
    ensures n != 0 ==> s[i] == '[' && s[i + n - 1] == ']' && BoundaryAt(s, i + n)
    ensures n != 0 ==> forall k :: i < k < i + n - 1 ==> IsDigit(s[k])
    ensures i + 3 <= |s| && s[i] == '[' && IsDigit(s[i + 1]) && s[i + 2] == ']' && BoundaryAt(s, i + 3) ==> n == 3
    ensures (i + 4 <= |s| && s[i] == '[' && IsDigit(s[i + 1]) && IsDigit(s[i + 2]) && s[i + 3] == ']'
             && BoundaryAt(s, i + 4)) ==> n == 4
  {
    if i + 3 <= |s| && s[i] == '[' && IsDigit(s[i + 1]) && s[i + 2] == ']' && BoundaryAt(s, i + 3) then 3
    else if i + 4 <= |s| && s[i] == '[' && IsDigit(s[i + 1]) && IsDigit(s[i + 2]) && s[i + 3] == ']'
            && BoundaryAt(s, i + 4) then 4
    else 0
  }

  /** A token of the scanned answer: one character copied as it is, or a
      marker carrying its one or two digits. */
  datatype Token = Text(c: char) | Marker(digits: string)

  predicate WellFormedMarker(t: Token)
  {
    t.Marker? ==> 1 <= |t.digits| <= 2 && forall k :: 0 <= k < |t.digits| ==> IsDigit(t.digits[k])
  }

  /** The scan `re.sub` performs, as a token sequence. */
  function Tokenize(s: string): (ts: seq<Token>)
    ensures forall k :: 0 <= k < |ts| ==> WellFormedMarker(ts[k])
    decreases |s|
  {
    if s == [] then []
    else
      var n := MarkerLength(s, 0);
      if n == 0 then [Text(s[0])] + Tokenize(s[1..])
      else [Marker(s[1..n - 1])] + Tokenize(s[n..])
  }

  /** The text a token stands for in the input. */
  function Spelling(t: Token): string
  {
    match t
    case Text(c) => [c]
    case Marker(d) => "[" + d + "]"
  }

  function Detokenize(ts: seq<Token>): string
  {
    if ts == [] then "" else Spelling(ts[0]) + Detokenize(ts[1..])
  }

  /** Scanning loses nothing: the tokens spell the input again, every
      character verbatim and in order. */
  lemma {:induction false} TokenizeRoundTrip(s: string)
    ensures Detokenize(Tokenize(s)) == s
    decreases |s|
  {
    if s != [] {
      var n := MarkerLength(s, 0);
      if n == 0 {
        TokenizeRoundTrip(s[1..]);
        RoundTripText(s);
      } else {
        TokenizeRoundTrip(s[n..]);
        RoundTripMarker(s);
      }
    }
  }

  /** The round trip extends over a character where no marker starts. */
  lemma RoundTripText(s: string)
    requires s != [] && MarkerLength(s, 0) == 0
    requires Detokenize(Tokenize(s[1..])) == s[1..]
    ensures Detokenize(Tokenize(s)) == s
  {
    TokenizeText(s);
    DetokenizeCons(Text(s[0]), Tokenize(s[1..]));
    assert s == [s[0]] + s[1..];
  }

  /** The round trip extends over a marker. */
  lemma RoundTripMarker(s: string)
    requires s != [] && MarkerLength(s, 0) != 0
    requires Detokenize(Tokenize(s[MarkerLength(s, 0)..])) == s[MarkerLength(s, 0)..]
    ensures Detokenize(Tokenize(s)) == s
  {
    var n := MarkerLength(s, 0);
    TokenizeMarker(s);
    DetokenizeCons(Marker(s[1..n - 1]), Tokenize(s[n..]));
    MarkerSpelling(s, 0);
    assert s == s[0..n] + s[n..];
  }

  /** Spelling a token in front of a sequence puts its text in front. */
  lemma DetokenizeCons(t: Token, ts: seq<Token>)
    ensures Detokenize([t] + ts) == Spelling(t) + Detokenize(ts)
  {
    assert ([t] + ts)[1..] == ts;
  }

  function DigitValue(c: char): (v: nat)
    requires IsDigit(c)
    ensures v <= 9
  {
    c as int - '0' as int
  }

  /** The number a marker's digits spell; `int(num)` in the source. */
  function DigitsValue(d: string): (v: nat)
    requires 1 <= |d| <= 2 && forall k :: 0 <= k < |d| ==> IsDigit(d[k])
    ensures v <= 99
    ensures |d| == 1 ==> v <= 9
  {
    assert IsDigit(d[0]);
    if |d| == 1 then DigitValue(d[0])
    else assert IsDigit(d[1]); 10 * DigitValue(d[0]) + DigitValue(d[1])
  }

  /** The url of a search result: `getattr(r, "url", "") or ""`. */
  function UrlOf(r: SearchResultItem): string
  {
    match r.url
    case Some(u) => u
    case None => ""
  }

  /** What `citation_replacer` returns for one token. */
  function Render(mode: CitationMode, t: Token, results: seq<SearchResultItem>): (r: string)
    requires WellFormedMarker(t)
    ensures t.Text? || mode == Default ==> r == Spelling(t)
    ensures t.Marker? && !(1 <= DigitsValue(t.digits) <= |results|) ==> r == Spelling(t)
  {
    match t
    case Text(c) => [c]
    case Marker(d) =>
      var n := DigitsValue(d);
      if 1 <= n <= |results| then
        var url := UrlOf(results[n - 1]);
        if mode == Markdown && url != "" then "[" + d + "](" + url + ")"
        else if mode == Clean then ""
        else "[" + d + "]"
      else "[" + d + "]"
  }

  /** A token renders in one of three forms: as written, removed (clean
      mode only), or followed by its result's url (markdown mode only). */
  lemma RenderForms(mode: CitationMode, t: Token, results: seq<SearchResultItem>)
    requires WellFormedMarker(t)
    ensures var r := Render(mode, t, results);
      || r == Spelling(t)
      || (mode == Clean && t.Marker? && r == "")
      || (mode == Markdown && t.Marker? && 1 <= DigitsValue(t.digits) <= |results|
          && r == Spelling(t) + "(" + UrlOf(results[DigitsValue(t.digits) - 1]) + ")")
  {
  }

  function RenderAll(mode: CitationMode, ts: seq<Token>, results: seq<SearchResultItem>): string
    requires forall k :: 0 <= k < |ts| ==> WellFormedMarker(ts[k])
  {
    if ts == [] then "" else Render(mode, ts[0], results) + RenderAll(mode, ts[1..], results)
  }

  /** `format_citations` on a text: the default mode and the empty text are
      returned as they are, without a scan. */
  function FormatText(mode: CitationMode, text: string, results: seq<SearchResultItem>): string
  {
    if mode == Default || text == "" then text
    else RenderAll(mode, Tokenize(text), results)
  }

  /** `format_citations` on the answer field as the accumulator holds it: a
      falsy answer (None, "") is returned as it is, as is everything in the
      default mode; a truthy answer that is not a string makes `re.sub` raise. */
  function FormatCitations(mode: CitationMode, answer: Json, results: seq<SearchResultItem>): (r: Result<Json>)
    ensures mode == Default || !Truthy(answer) ==> r == Ok(answer)
    ensures r.Err? <==> mode != Default && Truthy(answer) && !answer.JStr?
    ensures answer.JStr? ==> r == Ok(JStr(FormatText(mode, answer.s, results)))
  {
    if mode == Default || !Truthy(answer) then Ok(answer)
    else if answer.JStr? then Ok(JStr(FormatText(mode, answer.s, results)))
    else Err(TypeError)
  }

  /** A marker out of range (`[0]`, or a number past the last search result)
      is left as it is in every mode. */
  lemma OutOfRangeUntouched(mode: CitationMode, t: Token, results: seq<SearchResultItem>)
    requires t.Marker? && WellFormedMarker(t)
    requires DigitsValue(t.digits) == 0 || DigitsValue(t.digits) > |results|
    ensures Render(mode, t, results) == Spelling(t)
  {
  }

  /** An in-range marker `[n]` refers to `results[n-1]`: in markdown mode it
      becomes the link `[n](url)` when that url is non-empty and stays as it is
      otherwise; in clean mode it is deleted. */
  lemma InRangeMarker(mode: CitationMode, t: Token, results: seq<SearchResultItem>)
    requires t.Marker? && WellFormedMarker(t)
    requires 1 <= DigitsValue(t.digits) <= |results|
    ensures var url := UrlOf(results[DigitsValue(t.digits) - 1]);
      && (mode == Markdown && url != "" ==> Render(mode, t, results) == "[" + t.digits + "](" + url + ")")
      && (mode == Markdown && url == "" ==> Render(mode, t, results) == Spelling(t))
      && (mode == Clean ==> Render(mode, t, results) == "")
  {
  }

  /** Rendering in the default mode is spelling. */
  lemma {:induction false} RenderDefault(ts: seq<Token>, results: seq<SearchResultItem>)
    requires forall k :: 0 <= k < |ts| ==> WellFormedMarker(ts[k])
    ensures RenderAll(Default, ts, results) == Detokenize(ts)
  {
    if ts != [] {
      RenderDefault(ts[1..], results);
    }
  }

  /** With no search results every marker is out of range, so nothing changes. */
  lemma {:induction false} RenderNoResults(mode: CitationMode, ts: seq<Token>)
    requires forall k :: 0 <= k < |ts| ==> WellFormedMarker(ts[k])
    ensures RenderAll(mode, ts, []) == Detokenize(ts)
  {
    if ts != [] {
      RenderNoResults(mode, ts[1..]);
    }
  }

  /** The default mode never changes a text. */
  lemma DefaultModeIdentity(text: string, results: seq<SearchResultItem>)
    ensures FormatText(Default, text, results) == text
  {
  }

  /** Without search results no mode changes a text: every marker is out of range. */
  lemma NoResultsIdentity(mode: CitationMode, text: string)
    ensures FormatText(mode, text, []) == text
  {
    if mode != Default && text != "" {
      RenderNoResults(mode, Tokenize(text));
      TokenizeRoundTrip(text);
    }
  }

  /** Rendering never lengthens a text in clean mode. */
  lemma {:induction false} CleanNeverLonger(ts: seq<Token>, results: seq<SearchResultItem>)
    requires forall k :: 0 <= k < |ts| ==> WellFormedMarker(ts[k])
    ensures |RenderAll(Clean, ts, results)| <= |Detokenize(ts)|
  {
    if ts != [] {
      CleanNeverLonger(ts[1..], results);
    }
  }

  /** Clean mode only deletes: the result is never longer than the text. */
  lemma CleanShortens(text: string, results: seq<SearchResultItem>)
    ensures |FormatText(Clean, text, results)| <= |text|
  {
    if text != "" {
      CleanNeverLonger(Tokenize(text), results);
      TokenizeRoundTrip(text);
    }
  }

  /** A text without `[` holds no marker and comes back unchanged in every mode. */
  lemma {:induction false} NoBracketNoMarker(s: string)
    requires forall k :: 0 <= k < |s| ==> s[k] != '['
    ensures forall k :: 0 <= k < |Tokenize(s)| ==> Tokenize(s)[k].Text?
    decreases |s|
  {
    if s != [] {
      assert MarkerLength(s, 0) == 0;
      NoBracketNoMarker(s[1..]);
    }
  }

  lemma {:induction false} RenderTextOnly(mode: CitationMode, ts: seq<Token>, results: seq<SearchResultItem>)
    requires forall k :: 0 <= k < |ts| ==> ts[k].Text?
    ensures RenderAll(mode, ts, results) == Detokenize(ts)
  {
    if ts != [] {
      RenderTextOnly(mode, ts[1..], results);
    }
  }

  lemma NoBracketIdentity(mode: CitationMode, text: string, results: seq<SearchResultItem>)
    requires forall k :: 0 <= k < |text| ==> text[k] != '['
    ensures FormatText(mode, text, results) == text
  {
    if mode != Default && text != "" {
      NoBracketNoMarker(text);
      RenderTextOnly(mode, Tokenize(text), results);
      TokenizeRoundTrip(text);
    }
  }

  /** Scanning past a character where no marker starts. */
  lemma TokenizeText(s: string)
    requires s != [] && MarkerLength(s, 0) == 0
    ensures Tokenize(s) == [Text(s[0])] + Tokenize(s[1..])
  {
  }

  /** Scanning past a marker. */
  lemma TokenizeMarker(s: string)
    requires s != [] && MarkerLength(s, 0) != 0
    ensures Tokenize(s) == [Marker(s[1..MarkerLength(s, 0) - 1])] + Tokenize(s[MarkerLength(s, 0)..])
  {
  }

  /** Whether a marker starts at `i` depends only on the text from `i` on. */
  lemma MarkerShift(s: string, i: nat)
    requires i <= |s|
    ensures MarkerLength(s[i..], 0) == MarkerLength(s, i)
  {
    var t := s[i..];
    assert forall k :: 0 <= k < |t| ==> t[k] == s[i + k];
    assert BoundaryAt(t, 3) == BoundaryAt(s, i + 3);
    assert BoundaryAt(t, 4) == BoundaryAt(s, i + 4);
  }

  /** The scan's first step agrees on `s` and on its prefix `s[..i]` when `s[i]`
      is a `[` (or `i` is the end): a marker holds no `[` after its first
      character, so none crosses `i`, and `[` satisfies the lookahead. */
  lemma FirstStepOfPrefix(s: string, i: nat)
    requires 0 < i <= |s|
    requires i < |s| ==> s[i] == '['
    ensures var n := MarkerLength(s, 0);
      n <= i && MarkerLength(s[..i], 0) == n
  {
    var p := s[..i];
    var n := MarkerLength(s, 0);
    var m := MarkerLength(p, 0);
    assert forall k :: 0 <= k < i ==> p[k] == s[k];
    if n != 0 {
      assert forall k :: 0 < k < n ==> s[k] != '[' by {
        forall k | 0 < k < n ensures s[k] != '[' {
          if k < n - 1 { assert IsDigit(s[k]); }
        }
      }
      assert n <= i;
      assert BoundaryAt(p, n);
    }
    if m != 0 {
      assert BoundaryAt(s, m);
    }
  }

  /** Scanning up to a `[` and scanning on from it is scanning the whole text. */
  lemma {:induction false} TokenizeSplit(s: string, i: nat)
    requires i <= |s|
    requires i < |s| ==> s[i] == '['
    ensures Tokenize(s) == Tokenize(s[..i]) + Tokenize(s[i..])
    decreases i
  {
    if i == 0 {
      assert s[..0] == [] && s[0..] == s;
    } else {
      var k, tok := SharedFirstToken(s, i);
      var rest := s[k..];
      SliceOfSlice(s, k, 0, i - k);
      SliceOfSlice(s, k, i - k, |s| - k);
      assert rest[..i - k] == s[..i][k..];
      assert rest[i - k..] == s[i..];
      TokenizeSplit(rest, i - k);
      ConcatAssoc([tok], Tokenize(s[..i][k..]), Tokenize(s[i..]));
    }
  }

  /** The text and its prefix up to a `[` begin with the same token. */
  lemma SharedFirstToken(s: string, i: nat) returns (k: nat, tok: Token)
    requires 0 < i <= |s|
    requires i < |s| ==> s[i] == '['
    ensures 0 < k <= i
    ensures Tokenize(s) == [tok] + Tokenize(s[k..])
    ensures Tokenize(s[..i]) == [tok] + Tokenize(s[..i][k..])
  {
    var p := s[..i];
    var n := MarkerLength(s, 0);
    FirstStepOfPrefix(s, i);
    if n == 0 {
      k, tok := 1, Text(s[0]);
      TokenizeText(s);
      TokenizeText(p);
    } else {
      k, tok := n, Marker(s[1..n - 1]);
      TokenizeMarker(s);
      TokenizeMarker(p);
      assert p[1..n - 1] == s[1..n - 1];
    }
  }

  lemma ConcatAssoc<T>(a: seq<T>, b: seq<T>, c: seq<T>)
    ensures a + (b + c) == (a + b) + c
  {
  }

  /** Every marker in the text, wherever it starts, is scanned as one marker
      token: the scan never runs into it from an earlier position. */
  lemma MarkerToken(s: string, i: nat)
    requires i < |s| && MarkerLength(s, i) != 0
    ensures var n := MarkerLength(s, i);
      Tokenize(s) == Tokenize(s[..i]) + [Marker(s[i + 1..i + n - 1])] + Tokenize(s[i + n..])
  {
    var n := MarkerLength(s, i);
    var t := s[i..];
    TokenizeSplit(s, i);
    MarkerShift(s, i);
    TokenizeMarker(t);
    SliceOfSlice(s, i, 1, n - 1);
    SliceOfSlice(s, i, n, |s| - i);
    var m := Marker(s[i + 1..i + n - 1]);
    assert Tokenize(t) == [m] + Tokenize(s[i + n..]);
    ConcatAssoc(Tokenize(s[..i]), [m], Tokenize(s[i + n..]));
  }

  /** A slice of a suffix is a slice of the whole. */
  lemma SliceOfSlice<T>(s: seq<T>, i: nat, a: nat, b: nat)
    requires i <= |s| && a <= b <= |s| - i
    ensures s[i..][a..b] == s[i + a..i + b]
    ensures b == |s| - i ==> s[i..][a..] == s[i + a..]
  {
  }

  /** Rendering a concatenation of token sequences renders each in turn. */
  lemma {:induction false} RenderAllAppend(mode: CitationMode, a: seq<Token>, b: seq<Token>, results: seq<SearchResultItem>)
    requires forall k :: 0 <= k < |a| ==> WellFormedMarker(a[k])
    requires forall k :: 0 <= k < |b| ==> WellFormedMarker(b[k])
    ensures RenderAll(mode, a + b, results) == RenderAll(mode, a, results) + RenderAll(mode, b, results)
    decreases |a|
  {
    if a == [] {
      assert a + b == b;
    } else {
      assert (a + b)[0] == a[0];
      assert (a + b)[1..] == a[1..] + b;
      RenderAllAppend(mode, a[1..], b, results);
    }
  }

  /** Outside the default mode, formatting renders the scanned tokens; the
      empty text scans to no tokens, so its shortcut agrees. */
  lemma FormatRendersTokens(mode: CitationMode, text: string, results: seq<SearchResultItem>)
    requires mode != Default
    ensures FormatText(mode, text, results) == RenderAll(mode, Tokenize(text), results)
  {
  }

  /** A single token renders as itself. */
  lemma RenderAllSingle(mode: CitationMode, t: Token, results: seq<SearchResultItem>)
    requires WellFormedMarker(t)
    ensures RenderAll(mode, [t], results) == Render(mode, t, results)
  {
    assert [t][1..] == [];
    assert RenderAll(mode, [t], results) == Render(mode, t, results) + "";
  }

  /** Formatting renders a marker found at any position in place, and
      formats the text on either side of it on its own. */
  lemma MarkerRendered(mode: CitationMode, s: string, i: nat, results: seq<SearchResultItem>)
    requires mode != Default
    requires i < |s| && MarkerLength(s, i) != 0
    ensures var n := MarkerLength(s, i);
      var t := Marker(s[i + 1..i + n - 1]);
      && WellFormedMarker(t)
      && FormatText(mode, s, results)
         == FormatText(mode, s[..i], results) + Render(mode, t, results) + FormatText(mode, s[i + n..], results)
  {
    var n := MarkerLength(s, i);
    var t := Marker(s[i + 1..i + n - 1]);
    MarkerToken(s, i);
    var a := Tokenize(s[..i]);
    var b := Tokenize(s[i + n..]);
    assert WellFormedMarker(t);
    var at := a + [t];
    assert forall k :: 0 <= k < |at| ==> WellFormedMarker(at[k]);
    RenderAllAppend(mode, a, [t], results);
    RenderAllAppend(mode, at, b, results);
    RenderAllSingle(mode, t, results);
    FormatRendersTokens(mode, s, results);
    FormatRendersTokens(mode, s[..i], results);
    FormatRendersTokens(mode, s[i + n..], results);
  }

  /** Clean mode deletes every in-range marker, wherever it stands. */
  lemma CleanDeletesMarker(s: string, i: nat, results: seq<SearchResultItem>)
    requires i < |s| && MarkerLength(s, i) != 0
    requires 1 <= DigitsValue(s[i + 1..i + MarkerLength(s, i) - 1]) <= |results|
    ensures FormatText(Clean, s, results)
         == FormatText(Clean, s[..i], results) + FormatText(Clean, s[i + MarkerLength(s, i)..], results)
  {
    MarkerRendered(Clean, s, i, results);
  }

  /** Markdown mode appends the url of result `n-1` to every in-range marker
      `[n]` whose url is non-empty, wherever it stands. */
  lemma MarkdownLinksMarker(s: string, i: nat, results: seq<SearchResultItem>)
    requires i < |s| && MarkerLength(s, i) != 0
    requires 1 <= DigitsValue(s[i + 1..i + MarkerLength(s, i) - 1]) <= |results|
    requires UrlOf(results[DigitsValue(s[i + 1..i + MarkerLength(s, i) - 1]) - 1]) != ""
    ensures var n := MarkerLength(s, i);
      FormatText(Markdown, s, results)
      == FormatText(Markdown, s[..i], results)
         + (s[i..i + n] + "(" + UrlOf(results[DigitsValue(s[i + 1..i + n - 1]) - 1]) + ")")
         + FormatText(Markdown, s[i + n..], results)
  {
    MarkerRendered(Markdown, s, i, results);
    MarkdownMarkerAt(s, i, results);
  }

  /** The markdown rendering of the marker scanned at `i`. */
  lemma MarkdownMarkerAt(s: string, i: nat, results: seq<SearchResultItem>)
    requires i < |s| && MarkerLength(s, i) != 0
    requires 1 <= DigitsValue(s[i + 1..i + MarkerLength(s, i) - 1]) <= |results|
    requires UrlOf(results[DigitsValue(s[i + 1..i + MarkerLength(s, i) - 1]) - 1]) != ""
    ensures var n := MarkerLength(s, i);
      Render(Markdown, Marker(s[i + 1..i + n - 1]), results)
      == s[i..i + n] + "(" + UrlOf(results[DigitsValue(s[i + 1..i + n - 1]) - 1]) + ")"
  {
    MarkerSpelling(s, i);
    MarkdownLink(Marker(s[i + 1..i + MarkerLength(s, i) - 1]), results);
  }

  /** A marker token spells the text it was scanned from. */
  lemma MarkerSpelling(s: string, i: nat)
    requires i < |s| && MarkerLength(s, i) != 0
    ensures var n := MarkerLength(s, i);
      Spelling(Marker(s[i + 1..i + n - 1])) == s[i..i + n]
  {
    var n := MarkerLength(s, i);
    assert s[i..i + n] == [s[i]] + s[i + 1..i + n - 1] + [s[i + n - 1]];
  }

  /** The markdown rendering of an in-range marker with a url is its spelling
      followed by the url in parentheses. */
  lemma MarkdownLink(t: Token, results: seq<SearchResultItem>)
    requires t.Marker? && WellFormedMarker(t)
    requires 1 <= DigitsValue(t.digits) <= |results|
    requires UrlOf(results[DigitsValue(t.digits) - 1]) != ""
    ensures Render(Markdown, t, results) == Spelling(t) + "(" + UrlOf(results[DigitsValue(t.digits) - 1]) + ")"
  {
    var url := UrlOf(results[DigitsValue(t.digits) - 1]);
    assert Render(Markdown, t, results) == "[" + t.digits + "](" + url + ")";
    assert "[" + t.digits + "](" + url + ")" == ("[" + t.digits + "]") + "(" + url + ")";
  }

  /** The single marker `[3]`: untouched with fewer than three search results;
      with three or more and a non-empty url at index 2 it becomes `[3](url)`
      in markdown mode and disappears in clean mode. */
  lemma MarkerThree(results: seq<SearchResultItem>)
    ensures |results| < 3 ==> (FormatText(Markdown, "[3]", results) == "[3]"
                               && FormatText(Clean, "[3]", results) == "[3]")
    ensures |results| >= 3 && UrlOf(results[2]) != "" ==>
      FormatText(Markdown, "[3]", results) == "[3](" + UrlOf(results[2]) + ")"
    ensures |results| >= 3 ==> FormatText(Clean, "[3]", results) == ""
  {
    FormatThree(Markdown, results);
    FormatThree(Clean, results);
    assert DigitsValue("3") == 3;
    if |results| >= 3 && UrlOf(results[2]) != "" {
      MarkdownThree(results);
    }
  }

  /** In markdown mode `[3]` gains the url of the third result. */
  lemma MarkdownThree(results: seq<SearchResultItem>)
    requires |results| >= 3 && UrlOf(results[2]) != ""
    ensures Render(Markdown, Marker("3"), results) == "[3](" + UrlOf(results[2]) + ")"
  {
    var url := UrlOf(results[2]);
    assert DigitsValue("3") == 3;
    assert Render(Markdown, Marker("3"), results) == "[" + "3" + "](" + url + ")";
    assert "[" + "3" + "](" == "[3](";
  }

  /** `[3]` scans as one marker, so formatting it renders that marker. */
  lemma FormatThree(mode: CitationMode, results: seq<SearchResultItem>)
    requires mode != Default
    ensures FormatText(mode, "[3]", results) == Render(mode, Marker("3"), results)
  {
    var s := "[3]";
    assert MarkerLength(s, 0) == 3;
    TokenizeMarker(s);
    assert s[1..2] == "3" && s[3..] == [];
    assert Tokenize(s) == [Marker("3")];
    var ts := [Marker("3")];
    assert ts[1..] == [];
    assert RenderAll(mode, ts, results) == Render(mode, Marker("3"), results) + "";
  }

  /** A word character right after the closing bracket blocks the marker:
      `see[12]x` is left alone even in clean mode. */
  lemma WordCharBlocksMarker(results: seq<SearchResultItem>)
    ensures FormatText(Clean, "[12]x", results) == "[12]x"
  {
    var a := "[12]x";
    assert MarkerLength(a, 0) == 0;
    NoBracketIdentity(Clean, a[1..], results);
    TokenizeText(a);
    NoBracketNoMarker(a[1..]);
    var ts := Tokenize(a);
    assert ts[1..] == Tokenize(a[1..]);
    assert forall k :: 0 <= k < |ts| ==> ts[k].Text?;
    RenderTextOnly(Clean, ts, results);
    TokenizeRoundTrip(a);
  }

  /** A marker followed by a non-word character, or by the end of the text, is
      deleted in clean mode when in range; only the following side is
      checked, so `x[1]` loses its marker. */
  lemma MarkerAtEnd(results: seq<SearchResultItem>)
    requires |results| >= 1
    ensures FormatText(Clean, "x[1]", results) == "x"
  {
    var c := "x[1]";
    assert MarkerLength(c, 0) == 0;
    TokenizeText(c);
    assert c[1..] == "[1]" && MarkerLength(c[1..], 0) == 3;
    TokenizeMarker(c[1..]);
    assert c[1..][1..2] == "1" && c[1..][3..] == [];
    var ts := Tokenize(c);
    assert ts == [Text('x'), Marker("1")];
    assert DigitsValue("1") == 1;
    assert Render(Clean, Marker("1"), results) == "";
    assert ts[1..] == [Marker("1")] && ts[1..][1..] == [];
    assert RenderAll(Clean, ts[1..], results) == "";
    assert RenderAll(Clean, ts, results) == "x" + "";
  }
}
