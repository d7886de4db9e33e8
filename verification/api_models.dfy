/** The model table of src/perplexity_api/models.py (repeated verbatim in
    src/perplexity_api/__init__.py): classes under `ModelType` holding an
    `_identifier` and a `_mode`, read through `get_identifier` and `get_mode`. */
module ApiModels {

  datatype Model =
    | Best | Sonar | Claude37Sonnet | GPT41 | Gemini25Pro | Grok3Beta
    | R11776 | O4mini | Claude37SonnetThinking
    | Research

  /** `get_identifier()`: the class constant `_identifier`. */
  function Identifier(m: Model): string
  {
    match m
    case Best => "pplx_pro"
    case Sonar => "experimental"
    case Claude37Sonnet => "claude2"
    case GPT41 => "gpt41"
    case Gemini25Pro => "gemini2flash"
    case Grok3Beta => "grok"
    case R11776 => "r1"
    case O4mini => "o4mini"
    case Claude37SonnetThinking => "claude37sonnetthinking"
    case Research => "pplx_alpha"
  }

  /** `get_mode()`: the class constant `_mode`. */
  function Mode(m: Model): string
  {
    "copilot"
  }

  /** `Pro.Best`, `Research` and `Pro.Grok3Beta` carry `pplx_pro`, `pplx_alpha`
      and `grok`; every model runs in `copilot` mode. */
  lemma KnownIdentifiers(m: Model)
    ensures Identifier(Best) == "pplx_pro" && Identifier(Research) == "pplx_alpha"
    ensures Identifier(Grok3Beta) == "grok"
    ensures Mode(m) == "copilot"
  {
  }

  /** The ten identifiers are pairwise distinct. */
  lemma IdentifiersDistinct(a: Model, b: Model)
    ensures Identifier(a) == Identifier(b) ==> a == b
  {
  }
}
