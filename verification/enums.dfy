/** The four generations of the client, and the enumerations each of them
    serialises into the request: citation mode, search focus, source focus and
    time range, with their wire values. */
module Enums {
  import opened Json

  /** Which copy of the client is meant:
      - `Script`:  perplexity.py
      - `Api`:     src/perplexity_api/__init__.py (with models.py and utils.py)
      - `Scraper`: src/perplexity_webui_scraper/__init__.py
      - `Core`:    src/perplexity_webui_scraper/core.py with utils.py */
  datatype Generation = Script | Api | Scraper | Core

  /** Only `Script` keeps no conversation identifier. */
  predicate TracksConversation(gen: Generation)
  {
    gen != Script
  }

  /** `CitationMode`, defined only next to core.py. */
  datatype CitationMode = Default | Markdown | Clean

  function CitationModeValue(m: CitationMode): (v: string)
  {
    match m
    case Default => "default"
    case Markdown => "markdown"
    case Clean => "clean"
  }

  /** `SearchFocus`; perplexity.py has a boolean `enable_web_search` instead,
      which is `true` exactly for `SearchFocus.Web`. */
  datatype SearchFocus = Web | Writing

  function SearchFocusValue(f: SearchFocus): (v: string)
  {
    match f
    case Web => "internet"
    case Writing => "writing"
  }

  /** `SourceFocus` (`Source` in perplexity.py); `Finance` exists only in
      src/perplexity_webui_scraper/utils.py. */
  datatype SourceFocus = Web | Academic | Social | Finance

  function SourceFocusValue(s: SourceFocus): (v: string)
  {
    match s
    case Web => "web"
    case Academic => "scholar"
    case Social => "social"
    case Finance => "edgar"
  }

  /** Whether a generation's enumeration has this member at all. */
  predicate Offers(gen: Generation, s: SourceFocus)
  {
    s == SourceFocus.Finance ==> gen == Scraper || gen == Core
  }

  /** `TimeRange`: the same five members in every generation. */
  datatype TimeRange = All | Today | LastWeek | LastMonth | LastYear

  /** The member's `.value`: `ALL` has the Python value `None`. */
  function TimeRangeValue(t: TimeRange): (v: Option<string>)
  {
    match t
    case All => None
    case Today => Some("DAY")
    case LastWeek => Some("WEEK")
    case LastMonth => Some("MONTH")
    case LastYear => Some("YEAR")
  }

  /** How `.value` serialises: `None` becomes JSON null. */
  function TimeRangeWire(t: TimeRange): (j: Json)
  {
    match TimeRangeValue(t)
    case None => JNull
    case Some(v) => JStr(v)
  }

  /** `ALL` is the only member whose value is `None`, and it goes on the wire as
      null, never as a string; the others are the upper-case period names. */
  lemma TimeRangeWireValues(t: TimeRange)
    ensures TimeRangeWire(t) == JNull <==> t == All
    ensures !TimeRangeWire(t).JStr? <==> t == All
    ensures TimeRangeWire(t) == JStr("DAY") <==> t == Today
    ensures TimeRangeWire(t) == JStr("WEEK") <==> t == LastWeek
    ensures TimeRangeWire(t) == JStr("MONTH") <==> t == LastMonth
    ensures TimeRangeWire(t) == JStr("YEAR") <==> t == LastYear
  {
  }

  /** The value tables are injective, so the wire value names the member. */
  lemma WireValuesDistinct(a: SourceFocus, b: SourceFocus, f: SearchFocus, g: SearchFocus,
                           m: CitationMode, n: CitationMode)
    ensures SourceFocusValue(a) == SourceFocusValue(b) ==> a == b
    ensures SearchFocusValue(f) == SearchFocusValue(g) ==> f == g
    ensures CitationModeValue(m) == CitationModeValue(n) ==> m == n
  {
  }
}
