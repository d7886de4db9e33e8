/** The model table of src/perplexity_webui_scraper/models.py: nested classes
    under `ModelType`, each holding an `_identifier` and a `_mode` constant,
    read back through the classmethods `_get_identifier` and `_get_mode`. */
module ScraperModels {
  import opened Json

  datatype Model =
    | Best | Sonar | Claude40Sonnet | GPT41 | Gemini25Pro0605
    | R11776 | Grok4 | O3 | Claude40SonnetThinking
    | Research

  /** The class constant `_identifier`. */
  function Identifier(m: Model): string
  {
    match m
    case Best => "pplx_pro"
    case Sonar => "experimental"
    case Claude40Sonnet => "claude2"
    case GPT41 => "gpt41"
    case Gemini25Pro0605 => "gemini2flash"
    case R11776 => "r1"
    case Grok4 => "grok4"
    case O3 => "o3"
    case Claude40SonnetThinking => "claude37sonnetthinking"
    case Research => "pplx_alpha"
  }

  /** The class constant `_mode`. */
  function Mode(m: Model): string
  {
    "copilot"
  }

  /** Calling the classmethod `name` on the model class: only `_get_identifier`
      and `_get_mode` exist on `ModelBase`. */
  function ClassMethod(m: Model, name: string): (r: Result<string>)
    ensures r.Ok? <==> name == "_get_identifier" || name == "_get_mode"
    ensures name == "_get_identifier" ==> r == Ok(Identifier(m))
    ensures name == "_get_mode" ==> r == Ok(Mode(m))
  {
    if name == "_get_identifier" then Ok(Identifier(m))
    else if name == "_get_mode" then Ok(Mode(m))
    else Err(AttributeError)
  }

  /** An attribute of `ModelType`: a nested namespace class, or a model class. */
  datatype Namespace = Class(model: Model) | Nested(members: seq<(string, Namespace)>)

  /** The class tree below `ModelType`. */
  function ModelType(): Namespace
  {
    Nested([("Pro", Pro()), ("Research", Class(Research))])
  }

  /** `ModelType.Pro`. */
  function Pro(): Namespace
  {
    Nested([
      ("Best", Class(Best)),
      ("Sonar", Class(Sonar)),
      ("Claude40Sonnet", Class(Claude40Sonnet)),
      ("GPT41", Class(GPT41)),
      ("Gemini25Pro0605", Class(Gemini25Pro0605)),
      ("Reasoning", Reasoning())])
  }

  /** `ModelType.Pro.Reasoning`. */
  function Reasoning(): Namespace
  {
    Nested([
      ("R11776", Class(R11776)),
      ("Grok4", Class(Grok4)),
      ("o3", Class(O3)),
      ("Claude40SonnetThinking", Class(Claude40SonnetThinking))])
  }

  function Member(members: seq<(string, Namespace)>, name: string): Option<Namespace>
  {
    if members == [] then None
    else if members[0].0 == name then Some(members[0].1)
    else Member(members[1..], name)
  }

  /** Evaluating the dotted name `ns.path[0].path[1]...` and using the result as
      a model: a missing attribute, or a namespace where a model class is
      needed, raises `AttributeError`. */
  function Resolve(ns: Namespace, path: seq<string>): (r: Result<Model>)
    ensures r.Err? ==> r.error == AttributeError
    decreases path
  {
    if path == [] then
      if ns.Class? then Ok(ns.model) else Err(AttributeError)
    else if ns.Class? then Err(AttributeError)
    else match Member(ns.members, path[0])
      case None => Err(AttributeError)
      case Some(child) => Resolve(child, path[1..])
  }

  /** Where each model class sits below `ModelType`. */
  function Path(m: Model): seq<string>
  {
    match m
    case Best => ["Pro", "Best"]
    case Sonar => ["Pro", "Sonar"]
    case Claude40Sonnet => ["Pro", "Claude40Sonnet"]
    case GPT41 => ["Pro", "GPT41"]
    case Gemini25Pro0605 => ["Pro", "Gemini25Pro0605"]
    case R11776 => ["Pro", "Reasoning", "R11776"]
    case Grok4 => ["Pro", "Reasoning", "Grok4"]
    case O3 => ["Pro", "Reasoning", "o3"]
    case Claude40SonnetThinking => ["Pro", "Reasoning", "Claude40SonnetThinking"]
    case Research => ["Research"]
  }

  /** One attribute access: `ns.name` followed by the rest of the path. */
  lemma ResolveStep(ns: Namespace, name: string, rest: seq<string>, child: Namespace)
    requires ns.Nested? && Member(ns.members, name) == Some(child)
    ensures Resolve(ns, [name] + rest) == Resolve(child, rest)
  {
    assert ([name] + rest)[1..] == rest;
  }

  /** A model class directly inside `ModelType.Pro` resolves under
      `Pro.<name>`. */
  lemma ResolveUnderPro(name: string, m: Model)
    requires Member(Pro().members, name) == Some(Class(m))
    ensures Resolve(ModelType(), ["Pro", name]) == Ok(m)
  {
    assert Member(ModelType().members, "Pro") == Some(Pro());
    ResolveStep(ModelType(), "Pro", [name], Pro());
    ResolveStep(Pro(), name, [], Class(m));
    assert ["Pro", name] == ["Pro"] + [name] && [name] == [name] + [];
  }

  /** A model class inside `ModelType.Pro.Reasoning` resolves under
      `Pro.Reasoning.<name>`. */
  lemma ResolveUnderReasoning(name: string, m: Model)
    requires Member(Reasoning().members, name) == Some(Class(m))
    ensures Resolve(ModelType(), ["Pro", "Reasoning", name]) == Ok(m)
  {
    assert Member(ModelType().members, "Pro") == Some(Pro());
    assert Member(Pro().members, "Reasoning") == Some(Reasoning());
    ResolveStep(ModelType(), "Pro", ["Reasoning", name], Pro());
    ResolveStep(Pro(), "Reasoning", [name], Reasoning());
    ResolveStep(Reasoning(), name, [], Class(m));
    assert ["Pro", "Reasoning", name] == ["Pro"] + ["Reasoning", name];
    assert ["Reasoning", name] == ["Reasoning"] + [name] && [name] == [name] + [];
  }

  /** Every model class is reachable under its dotted name, and that name
      resolves to that model. */
  lemma ResolvePath(m: Model)
    ensures Resolve(ModelType(), Path(m)) == Ok(m)
  {
    match m
    case Best => ResolveUnderPro("Best", m);
    case Sonar => ResolveUnderPro("Sonar", m);
    case Claude40Sonnet => ResolveUnderPro("Claude40Sonnet", m);
    case GPT41 => ResolveUnderPro("GPT41", m);
    case Gemini25Pro0605 => ResolveUnderPro("Gemini25Pro0605", m);
    case R11776 => ResolveUnderReasoning("R11776", m);
    case Grok4 => ResolveUnderReasoning("Grok4", m);
    case O3 => ResolveUnderReasoning("o3", m);
    case Claude40SonnetThinking => ResolveUnderReasoning("Claude40SonnetThinking", m);
    case Research =>
      assert Member(ModelType().members, "Research") == Some(Class(Research));
      ResolveStep(ModelType(), "Research", [], Class(Research));
      assert ["Research"] == ["Research"] + [];
  }

  /** `ModelType.Pro.Best` is `pplx_pro` and `ModelType.Research` is
      `pplx_alpha`; every model runs in `copilot` mode. */
  lemma KnownIdentifiers(m: Model)
    ensures Identifier(Best) == "pplx_pro" && Identifier(Research) == "pplx_alpha"
    ensures Mode(m) == "copilot"
    ensures ClassMethod(m, "_get_mode") == Ok("copilot")
  {
  }

  /** Identifiers are not derived from the class names. */
  lemma IdentifiersNotClassNames()
    ensures Identifier(Claude40Sonnet) == "claude2"
    ensures Identifier(Claude40SonnetThinking) == "claude37sonnetthinking"
    ensures Identifier(Gemini25Pro0605) == "gemini2flash"
  {
  }

  /** The ten identifiers are pairwise distinct, so the identifier names the model. */
  lemma IdentifiersDistinct(a: Model, b: Model)
    ensures Identifier(a) == Identifier(b) ==> a == b
  {
  }

  /** `ModelType.Best` names nothing: `Best` sits under `ModelType.Pro`, so
      evaluating that dotted name raises `AttributeError`. */
  lemma BestIsNotTopLevel()
    ensures Resolve(ModelType(), ["Best"]) == Err(AttributeError)
  {
    assert Member(ModelType().members, "Best") == None;
  }

  /** The default model `ask` is documented to use, `ModelType.Pro.Best`. */
  function DefaultModel(): (m: Model)
    ensures Resolve(ModelType(), ["Pro", "Best"]) == Ok(m)
    ensures Identifier(m) == "pplx_pro"
  {
    ResolvePath(Best);
    Best
  }
}
