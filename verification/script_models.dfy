/** The model table of perplexity.py: classes under `ModelType` holding an
    `_identifier` and a `_mode`, read through `get_identifier` and `get_mode`. */
module ScriptModels {

  datatype Model =
    | Best | Sonar | Claude37Sonnet | GPT4o | Gemini20Flash | Grok2
    | R11776 | O3mini | Claude37SonnetThinking
    | DeepResearch

  /** `get_identifier()`: the class constant `_identifier`. */
  function Identifier(m: Model): string
  {
    match m
    case Best => "pplx_pro"
    case Sonar => "experimental"
    case Claude37Sonnet => "claude2"
    case GPT4o => "gpt4o"
    case Gemini20Flash => "gemini2flash"
    case Grok2 => "grok"
    case R11776 => "r1"
    case O3mini => "o3mini"
    case Claude37SonnetThinking => "claude37sonnetthinking"
    case DeepResearch => "pplx_alpha"
  }

  /** `get_mode()`: the class constant `_mode`. */
  function Mode(m: Model): string
  {
    "copilot"
  }

  /** Every model runs in `copilot` mode, and the ten identifiers are pairwise
      distinct. */
  lemma TableFacts(a: Model, b: Model)
    ensures Mode(a) == "copilot"
    ensures Identifier(a) == Identifier(b) ==> a == b
  {
  }
}
