/**
 * The server actions: choosing a model provider from the credentials in the
 * environment, building the request for the model, cutting the JSON object out of
 * its reply, falling back to the rule-based recommender when there is no provider
 * or anything fails, and the tools section of the generated README.
 */
module Actions {
  import opened Options
  import opened Text
  import opened Stack
  import opened MockRecommendations

  // ---------------------------------------------------------------------------
  // Provider selection: getAIModel
  // ---------------------------------------------------------------------------

  /** The three credentials read from the process environment; `None` when a variable is unset. */
  datatype Env = Env(anthropicApiKey: Option<string>, googleApiKey: Option<string>, openaiApiKey: Option<string>)

  datatype Provider = Anthropic | Google | OpenAI

  /** The name stored in the configuration, also the key of `providerOptions`. */
  function ProviderName(p: Provider): string
  {
    match p
    case Anthropic => "anthropic"
    case Google => "google"
    case OpenAI => "openai"
  }

  /** The model each provider is asked for. */
  function ModelId(p: Provider): string
  {
    match p
    case Anthropic => "claude-3-haiku-20240307"
    case Google => "gemini-1.5-flash"
    case OpenAI => "gpt-4o-mini"
  }

  /** Position of each provider in the order the credentials are tried. */
  function Priority(p: Provider): nat
  {
    match p
    case Anthropic => 0
    case Google => 1
    case OpenAI => 2
  }

  /** The environment variable that holds each provider's credential. */
  function Credential(env: Env, p: Provider): Option<string>
  {
    match p
    case Anthropic => env.anthropicApiKey
    case Google => env.googleApiKey
    case OpenAI => env.openaiApiKey
  }

  /** The configuration `getAIModel` returns: the model, the provider's name and its key. */
  datatype AIConfig = AIConfig(model: string, provider: Provider, apiKey: string)

  /**
   * `getAIModel`: the first provider, in the order Anthropic, Google, OpenAI, whose
   * credential is set to a non-empty string; no provider when none is.
   */
  function GetAIModel(env: Env): (r: Option<AIConfig>)
    ensures r.None? <==> forall p :: !Truthy(Credential(env, p))
    ensures r.Some? ==>
      && Truthy(Credential(env, r.value.provider))
      && r.value.apiKey == Credential(env, r.value.provider).value
      && r.value.model == ModelId(r.value.provider)
      && forall p :: Priority(p) < Priority(r.value.provider) ==> !Truthy(Credential(env, p))
  {
    if Truthy(env.anthropicApiKey) then
      assert Truthy(Credential(env, Anthropic));
      Some(AIConfig(ModelId(Anthropic), Anthropic, env.anthropicApiKey.value))
    else if Truthy(env.googleApiKey) then
      assert Truthy(Credential(env, Google));
      assert forall p :: Priority(p) < Priority(Google) ==> p == Anthropic;
      Some(AIConfig(ModelId(Google), Google, env.googleApiKey.value))
    else if Truthy(env.openaiApiKey) then
      assert Truthy(Credential(env, OpenAI));
      assert forall p :: Priority(p) < Priority(OpenAI) ==> p == Anthropic || p == Google;
      Some(AIConfig(ModelId(OpenAI), OpenAI, env.openaiApiKey.value))
    else
      assert forall p :: Credential(env, p) in {env.anthropicApiKey, env.googleApiKey, env.openaiApiKey};
      None
  }

  /** The provider chosen is the one of highest priority with a usable credential, and every such one is a candidate. */
  lemma ProviderIsFirstUsable(env: Env, p: Provider)
    requires Truthy(Credential(env, p))
    ensures GetAIModel(env).Some?
    ensures Priority(GetAIModel(env).value.provider) <= Priority(p)
  {
  }

  // ---------------------------------------------------------------------------
  // The request: generateOptions
  // ---------------------------------------------------------------------------

  /**
   * The options object handed to `generateText`. `providerOptions` maps a provider's
   * name to the API key sent under it; `None` until it is assigned.
   */
  datatype GenerateOptions = GenerateOptions(model: string, prompt: string, providerOptions: Option<map<string, string>>)

  /** A request for `config` carrying `prompt`: its model, its prompt, and the key under the provider's name only. */
  predicate RequestFor(options: GenerateOptions, config: AIConfig, prompt: string)
  {
    && options.model == config.model
    && options.prompt == prompt
    && options.providerOptions == Some(map[ProviderName(config.provider) := config.apiKey])
  }

  /** Builds `generateOptions` and then assigns the provider-specific options into it. */
  method BuildOptions(config: AIConfig, prompt: string) returns (options: GenerateOptions)
    ensures RequestFor(options, config, prompt)
  {
    options := GenerateOptions(config.model, prompt, None);
    var provider := ProviderName(config.provider);
    if provider == "openai" {
      options := options.(providerOptions := Some(map["openai" := config.apiKey]));
    } else if provider == "anthropic" {
      options := options.(providerOptions := Some(map["anthropic" := config.apiKey]));
    } else if provider == "google" {
      options := options.(providerOptions := Some(map["google" := config.apiKey]));
    }
  }

  /** What was sent for `config`: nothing without a provider, otherwise one request for `prompt`. */
  predicate Sent(request: Option<GenerateOptions>, config: Option<AIConfig>, prompt: string)
  {
    match config
    case None => request.None?
    case Some(c) => request.Some? && RequestFor(request.value, c, prompt)
  }

  /** What `getRecommendation(formData)` sends: the structured prompt to the chosen provider, if any. */
  predicate SentStructured(request: Option<GenerateOptions>, env: Env, formData: FormData)
  {
    Sent(request, GetAIModel(env), StructuredPrompt(formData))
  }

  /** What `getNaturalLanguageRecommendation(description)` sends: the free-text prompt to the chosen provider, if any. */
  predicate SentFromText(request: Option<GenerateOptions>, env: Env, description: string)
  {
    Sent(request, GetAIModel(env), NaturalPrompt(description))
  }

  /** With a provider configured, the request for the free-text prompt pins down the description. */
  lemma SentFromTextDeterminesDescription(request: Option<GenerateOptions>, env: Env, a: string, b: string)
    requires GetAIModel(env).Some?
    requires SentFromText(request, env, a) && SentFromText(request, env, b)
    ensures a == b
  {
    NaturalPromptInjective(a, b);
  }

  /** The key is sent under exactly one name, the selected provider's, and the names tell the providers apart. */
  lemma RequestKeyedByProvider(options: GenerateOptions, config: AIConfig, prompt: string, q: Provider)
    requires RequestFor(options, config, prompt)
    ensures options.providerOptions.value.Keys == {ProviderName(config.provider)}
    ensures ProviderName(q) in options.providerOptions.value <==> q == config.provider
    ensures options.providerOptions.value[ProviderName(config.provider)] == config.apiKey
  {
  }

  // ---------------------------------------------------------------------------
  // The prompts
  // ---------------------------------------------------------------------------

  /** A template-literal interpolation of a form field; an absent field prints as "undefined". */
  function Shown(v: Option<string>): string
  {
    if v.Some? then v.value else "undefined"
  }

  /**
   * `formData.features?.join(", ") || "No especificadas"`: the features joined by ", "
   * in order, or "No especificadas" when they are absent or the join is empty.
   */
  function FeaturesText(features: Option<seq<string>>): (r: string)
    ensures features.None? || features.value == [] || features.value == [""] ==> r == "No especificadas"
    ensures features.Some? && features.value != [] && features.value != [""] ==> r == Join(features.value, ", ")
  {
    if features.Some? then
      JoinEmpty(features.value, ", ");
      var joined := Join(features.value, ", ");
      if joined != "" then joined else "No especificadas"
    else
      "No especificadas"
  }

  const StructuredHead: string :=
    "\n" +
    "      Actúa como un experto en desarrollo web que recomienda stacks " +
    "tecnológicos.\n" +
    "      \n" +
    "      Necesito una recomendación de stack tecnológico para un proyecto con " +
    "las siguientes características:\n" +
    "      - Tipo de proyecto: "
  const ExperienceLabel: string :=
    "\n" +
    "      - Nivel de experiencia del desarrollador: "
  const FeaturesLabel: string := "Funcionalidades necesarias: "
  const BackendLabel: string :=
    "      - Preferencia de backend: "
  const TechnologyLabel: string :=
    "\n" +
    "      - Preferencia de tecnologías: "
  const StructuredShape: string :=
    "\n" +
    "      \n" +
    "      Por favor, proporciona una recomendación en formato JSON con la " +
    "siguiente estructura:\n" +
    "      {\n" +
    "        \"frontend\": { \"name\": \"nombre de la tecnología\", \"description\": " +
    "\"breve descripción de por qué es adecuada\" },\n" +
    "        \"styling\": { \"name\": \"nombre de la tecnología\", \"description\": " +
    "\"breve descripción de por qué es adecuada\" },\n" +
    "        \"backend\": { \"name\": \"nombre de la tecnología\", \"description\": " +
    "\"breve descripción de por qué es adecuada\" },\n" +
    "        \"database\": { \"name\": \"nombre de la tecnología\", \"description\": " +
    "\"breve descripción de por qué es adecuada\" },\n" +
    "        \"additionalTools\": [\n" +
    "          { \"name\": \"nombre de la herramienta\", \"description\": \"breve " +
    "descripción de por qué es adecuada\" }\n" +
    "        ],\n" +
    "        \"explanation\": \"explicación general de por qué este stack es " +
    "adecuado para el proyecto\"\n" +
    "      }\n" +
    "    "

  /** The prompt of the structured path: the fixed instructions with the five form fields filled in. */
  function StructuredPrompt(f: FormData): string
  {
    StructuredHead + Shown(f.projectType) + ExperienceLabel + Shown(f.experienceLevel) + "\n      "
    + ("- " + FeaturesLabel + FeaturesText(f.features) + "\n")
    + (BackendLabel + Shown(f.backendPreference) + TechnologyLabel + Shown(f.technologyPreference) + StructuredShape)
  }

  /** The structured prompt has a line listing the features, or saying there are none. */
  lemma StructuredPromptListsFeatures(f: FormData)
    ensures Includes(StructuredPrompt(f), "- " + FeaturesLabel + FeaturesText(f.features) + "\n")
  {
    IncludesInfix(
      StructuredHead + Shown(f.projectType) + ExperienceLabel + Shown(f.experienceLevel) + "\n      ",
      "- " + FeaturesLabel + FeaturesText(f.features) + "\n",
      BackendLabel + Shown(f.backendPreference) + TechnologyLabel + Shown(f.technologyPreference) + StructuredShape);
  }

  const NaturalHead: string :=
    "\n" +
    "      Actúa como un experto en desarrollo web que recomienda stacks " +
    "tecnológicos.\n" +
    "      \n" +
    "      Un usuario ha descrito su proyecto de la siguiente manera:\n" +
    "      "
  const NaturalShape: string :=
    "\n" +
    "      \n" +
    "      Analiza esta descripción e infiere:\n" +
    "      - Qué tipo de proyecto es\n" +
    "      - Qué funcionalidades necesitará\n" +
    "      - Cuál sería el nivel de complejidad\n" +
    "      \n" +
    "      Luego, proporciona una recomendación de stack tecnológico en formato " +
    "JSON con la siguiente estructura:\n" +
    "      {\n" +
    "        \"frontend\": { \"name\": \"nombre de la tecnología\", \"description\": " +
    "\"breve descripción de por qué es adecuada\" },\n" +
    "        \"styling\": { \"name\": \"nombre de la tecnología\", \"description\": " +
    "\"breve descripción de por qué es adecuada\" },\n" +
    "        \"backend\": { \"name\": \"nombre de la tecnología\", \"description\": " +
    "\"breve descripción de por qué es adecuada\" },\n" +
    "        \"database\": { \"name\": \"nombre de la tecnología\", \"description\": " +
    "\"breve descripción de por qué es adecuada\" },\n" +
    "        \"additionalTools\": [\n" +
    "          { \"name\": \"nombre de la herramienta\", \"description\": \"breve " +
    "descripción de por qué es adecuada\" }\n" +
    "        ],\n" +
    "        \"explanation\": \"explicación general de por qué este stack es " +
    "adecuado para el proyecto, mencionando específicamente cómo se adapta a la " +
    "descripción proporcionada\"\n" +
    "      }\n" +
    "    "

  /** The prompt of the free-text path: the fixed instructions with the description quoted, unmodified. */
  function NaturalPrompt(description: string): string
  {
    NaturalHead + ("\"" + description + "\"") + NaturalShape
  }

  /** The free-text prompt carries the whole description between quotes. */
  lemma NaturalPromptQuotesDescription(description: string)
    ensures Includes(NaturalPrompt(description), "\"" + description + "\"")
  {
    IncludesInfix(NaturalHead, "\"" + description + "\"", NaturalShape);
  }

  /** Different descriptions give different free-text prompts. */
  lemma NaturalPromptInjective(a: string, b: string)
    requires NaturalPrompt(a) == NaturalPrompt(b)
    ensures a == b
  {
    AppendCancel(NaturalHead, "\"" + a + "\"", "\"" + b + "\"", NaturalShape);
    AppendCancel("\"", a, b, "\"");
  }

  // ---------------------------------------------------------------------------
  // Reading the reply: text.match(/\{[\s\S]*\}/)
  // ---------------------------------------------------------------------------

  /**
   * The greedy match of `/\{[\s\S]*\}/`: not a balanced-brace matcher, but the span
   * from the first `{` to the last `}`, when the last `}` comes after the first `{`.
   */
  function ExtractJson(text: string): (r: Option<string>)
    ensures r.Some? <==> exists i, j :: 0 <= i < j < |text| && text[i] == '{' && text[j] == '}'
    ensures r.Some? ==> exists i, j ::
      && 0 <= i < j < |text| && r.value == text[i..j + 1]
      && text[i] == '{' && '{' !in text[..i]
      && text[j] == '}' && '}' !in text[j + 1..]
  {
    match (FirstIndexOf(text, '{'), LastIndexOf(text, '}'))
    case (Some(i), Some(j)) =>
      if i < j then
        Some(text[i..j + 1])
      else
        ExtractJsonNone(text, i, j);
        None
    case _ => None
  }

  /** When the last `}` is not after the first `{`, no `{` precedes any `}`. */
  lemma ExtractJsonNone(text: string, first: nat, last: nat)
    requires first < |text| && text[first] == '{' && '{' !in text[..first]
    requires last < |text| && text[last] == '}' && '}' !in text[last + 1..]
    requires last <= first
    ensures forall i, j :: 0 <= i < j < |text| && text[i] == '{' ==> text[j] != '}'
  {
    forall i, j | 0 <= i < j < |text| && text[i] == '{'
      ensures text[j] != '}'
    {
      if i < first {
        assert false;
      } else if j <= last {
        assert false;
      } else if text[j] == '}' {
        assert false;
      }
    }
  }

  /** A span from a `{` with none before it to a `}` with none after it covers every `{`...`}` span. */
  lemma OutermostSpanCovers(text: string, span: string, s: nat, e: nat, i: nat, j: nat)
    requires i < j < |text| && text[i] == '{' && text[j] == '}'
    requires s < e < |text| && span == text[s..e + 1] && '{' !in text[..s] && '}' !in text[e + 1..]
    ensures Includes(span, text[i..j + 1])
  {
    if i < s {
      assert false;
    }
    if e < j {
      assert false;
    }
    IncludesSubslice(text, s, i, j + 1, e + 1);
  }

  /** Every `{`...`}` span of the reply lies inside the extracted text: the match is leftmost and longest. */
  lemma ExtractJsonCovers(text: string, i: nat, j: nat)
    requires i < j < |text| && text[i] == '{' && text[j] == '}'
    ensures ExtractJson(text).Some?
    ensures Includes(ExtractJson(text).value, text[i..j + 1])
  {
    var r := ExtractJson(text).value;
    var s, e :| && 0 <= s < e < |text| && r == text[s..e + 1]
      && text[s] == '{' && '{' !in text[..s]
      && text[e] == '}' && '}' !in text[e + 1..];
    OutermostSpanCovers(text, r, s, e, i, j);
  }

  // ---------------------------------------------------------------------------
  // Routing: getRecommendation and getNaturalLanguageRecommendation
  // ---------------------------------------------------------------------------

  /** What the remote model call gives back: the reply text, or a failure it throws. */
  datatype Reply = Answered(text: string) | Failed

  /**
   * The outcome of the `try` block: the parsed JSON span of the reply, or `fallback`
   * when the call fails, no span is found, or `parse` (JSON.parse; `None` when it
   * throws) rejects the span.
   */
  function FromReply(reply: Reply, parse: string -> Option<Recommendation>, fallback: Recommendation): Recommendation
  {
    match reply
    case Failed => fallback
    case Answered(text) =>
      match ExtractJson(text)
      case None => fallback
      case Some(json) =>
        match parse(json)
        case None => fallback
        case Some(parsed) => parsed
  }

  /** Both server actions: the fallback when there is no provider, otherwise the outcome of the `try` block. */
  function Route(config: Option<AIConfig>, reply: Reply, parse: string -> Option<Recommendation>, fallback: Recommendation): Recommendation
  {
    if config.None? then fallback else FromReply(reply, parse, fallback)
  }

  /** `getRecommendation`, routed around the project-type table. */
  function RecommendStructured(env: Env, formData: FormData, reply: Reply, parse: string -> Option<Recommendation>): Recommendation
  {
    Route(GetAIModel(env), reply, parse, GetMockRecommendation(formData))
  }

  /** `getNaturalLanguageRecommendation`, routed around the keyword classifier. */
  function RecommendFromText(env: Env, description: string, reply: Reply, parse: string -> Option<Recommendation>): Recommendation
  {
    Route(GetAIModel(env), reply, parse, GetMockNaturalLanguageRecommendation(description))
  }

  /**
   * Runs the `try` block on `reply`: cuts out the JSON span and parses it, and on any
   * thrown error returns the fallback.
   */
  method TryReply(reply: Reply, parse: string -> Option<Recommendation>, fallback: Recommendation)
    returns (result: Recommendation)
    ensures result == FromReply(reply, parse, fallback)
    ensures result == fallback || (reply.Answered? && ExtractJson(reply.text).Some? && parse(ExtractJson(reply.text).value) == Some(result))
  {
    if reply.Failed? {
      return fallback;
    }
    var jsonMatch := ExtractJson(reply.text);
    if jsonMatch.None? {
      return fallback;
    }
    var parsed := parse(jsonMatch.value);
    if parsed.None? {
      return fallback;
    }
    result := parsed.value;
  }

  /**
   * The body both server actions share, given the configuration `getAIModel` chose,
   * the prompt and the rule-based fallback: no call without a provider, otherwise one
   * request and the `try` block on its reply.
   */
  method Serve(config: Option<AIConfig>, prompt: string, reply: Reply, parse: string -> Option<Recommendation>,
               fallback: Recommendation)
    returns (result: Recommendation, request: Option<GenerateOptions>)
    ensures result == Route(config, reply, parse, fallback)
    ensures Sent(request, config, prompt)
  {
    if config.None? {
      return fallback, None;
    }
    var options := BuildOptions(config.value, prompt);
    request := Some(options);
    result := TryReply(reply, parse, fallback);
  }

  /**
   * `getRecommendation(formData)` against a model that would answer `reply`: returns
   * the recommendation and the request sent, if one was.
   */
  method GetRecommendation(env: Env, formData: FormData, reply: Reply, parse: string -> Option<Recommendation>)
    returns (result: Recommendation, request: Option<GenerateOptions>)
    ensures result == RecommendStructured(env, formData, reply, parse)
    ensures SentStructured(request, env, formData)
  {
    var aiConfig := GetAIModel(env);
    result, request := Serve(aiConfig, StructuredPrompt(formData), reply, parse, GetMockRecommendation(formData));
  }

  /**
   * `getNaturalLanguageRecommendation(description)` against a model that would answer
   * `reply`: returns the recommendation and the request sent, if one was.
   */
  method GetNaturalLanguageRecommendation(env: Env, description: string, reply: Reply, parse: string -> Option<Recommendation>)
    returns (result: Recommendation, request: Option<GenerateOptions>)
    ensures result == RecommendFromText(env, description, reply, parse)
    ensures SentFromText(request, env, description)
  {
    var aiConfig := GetAIModel(env);
    result, request := Serve(aiConfig, NaturalPrompt(description), reply, parse,
      GetMockNaturalLanguageRecommendation(description));
  }

  /** A reply is usable when it holds a `{`...`}` span that parses. */
  predicate Usable(reply: Reply, parse: string -> Option<Recommendation>)
  {
    reply.Answered? && ExtractJson(reply.text).Some? && parse(ExtractJson(reply.text).value).Some?
  }

  /**
   * The routing returns the fallback exactly when there is no provider or the reply
   * is not usable, and the parsed span otherwise; the error message never matters.
   */
  lemma RouteAnswer(config: Option<AIConfig>, reply: Reply, parse: string -> Option<Recommendation>, fallback: Recommendation)
    ensures config.None? || !Usable(reply, parse) ==> Route(config, reply, parse, fallback) == fallback
    ensures config.Some? && Usable(reply, parse) ==>
      Route(config, reply, parse, fallback) == parse(ExtractJson(reply.text).value).value
  {
  }

  /** Without any credential both paths answer with the rule-based fallback, whatever the model would say. */
  lemma NoProviderUsesMock(env: Env, formData: FormData, description: string, reply: Reply, parse: string -> Option<Recommendation>)
    requires forall p :: !Truthy(Credential(env, p))
    ensures RecommendStructured(env, formData, reply, parse) == GetMockRecommendation(formData)
    ensures RecommendFromText(env, description, reply, parse) == GetMockNaturalLanguageRecommendation(description)
  {
    RouteAnswer(GetAIModel(env), reply, parse, GetMockRecommendation(formData));
    RouteAnswer(GetAIModel(env), reply, parse, GetMockNaturalLanguageRecommendation(description));
  }

  /** A failed call, a reply without a `{`...`}` span or a span that does not parse gives exactly the fallback for the same input. */
  lemma FailureFallsBack(env: Env, formData: FormData, description: string, reply: Reply, parse: string -> Option<Recommendation>)
    requires !Usable(reply, parse)
    ensures RecommendStructured(env, formData, reply, parse) == GetMockRecommendation(formData)
    ensures RecommendFromText(env, description, reply, parse) == GetMockNaturalLanguageRecommendation(description)
  {
    RouteAnswer(GetAIModel(env), reply, parse, GetMockRecommendation(formData));
    RouteAnswer(GetAIModel(env), reply, parse, GetMockNaturalLanguageRecommendation(description));
  }

  /** With a provider and a usable reply, the parsed span is the answer on both paths. */
  lemma UsableReplyWins(env: Env, formData: FormData, description: string, reply: Reply, parse: string -> Option<Recommendation>)
    requires GetAIModel(env).Some? && Usable(reply, parse)
    ensures RecommendStructured(env, formData, reply, parse) == parse(ExtractJson(reply.text).value).value
    ensures RecommendFromText(env, description, reply, parse) == parse(ExtractJson(reply.text).value).value
  {
    RouteAnswer(GetAIModel(env), reply, parse, GetMockRecommendation(formData));
    RouteAnswer(GetAIModel(env), reply, parse, GetMockNaturalLanguageRecommendation(description));
  }

  // ---------------------------------------------------------------------------
  // generateReadme: the tools section
  // ---------------------------------------------------------------------------

  /** One tool's README line: "- **name**: description". */
  function ToolLine(t: Technology): string
  {
    "- **" + t.name + "**: " + t.description
  }

  /** The tool lines in `additionalTools` order. */
  function ToolLines(tools: seq<Technology>): seq<string>
  {
    seq(|tools|, i requires 0 <= i < |tools| => ToolLine(tools[i]))
  }

  /** The "Herramientas adicionales" section: the tool lines joined by newlines. */
  function ToolsSection(r: Recommendation): string
  {
    Join(ToolLines(r.additionalTools), "\n")
  }

  /** A tool whose name and description fit on one line. */
  predicate OneLine(t: Technology)
  {
    '\n' !in t.name && '\n' !in t.description
  }

  /** Read back line by line, the section has one line per tool, in order; at least one tool is needed, as `split` always yields a line. */
  lemma ToolsSectionLines(r: Recommendation)
    requires |r.additionalTools| > 0
    requires forall i :: 0 <= i < |r.additionalTools| ==> OneLine(r.additionalTools[i])
    ensures |Split(ToolsSection(r), '\n')| == |r.additionalTools|
    ensures forall i :: 0 <= i < |r.additionalTools| ==> Split(ToolsSection(r), '\n')[i] == ToolLine(r.additionalTools[i])
  {
    var lines := ToolLines(r.additionalTools);
    forall i | 0 <= i < |lines|
      ensures '\n' !in lines[i]
    {
      var t := r.additionalTools[i];
      assert OneLine(t);
      assert lines[i] == "- **" + t.name + "**: " + t.description;
    }
    SplitJoin(lines, '\n');
    assert "\n" == ['\n'];
  }
}
