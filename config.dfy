/**
 * The bot's settings, read from the process environment, and the rule that
 * picks the API key for the configured language model.
 */
module Config {
  import opened Wrappers
  import opened Strings

  /** The process environment: variable name to value. A variable may be present with an empty value. */
  type Env = map<string, string>

  const SlackBotTokenVar := "SLACK_BOT_TOKEN"
  const SlackAppTokenVar := "SLACK_APP_TOKEN"
  const OpenAiBaseUrlVar := "OPENAI_API_BASE_URL"
  const OpenAiKeyVar := "OPENAI_API_KEY"
  const OpenRouterKeyVar := "OPENROUTER_API_KEY"
  const ModelVar := "LLM_MODEL"
  const OllamaBaseUrlVar := "OLLAMA_BASE_URL"

  const DefaultOpenAiBaseUrl := "https://api.openai.com/v1/"
  const DefaultModel := "gpt-4-turbo"
  const DefaultOllamaBaseUrl := "http://localhost:11434"

  /** Model identifiers with this prefix are served by a local Ollama process. */
  const OllamaPrefix := "ollama/"

  /** `os.getenv(name)`: the value when the variable is present, `None` otherwise. */
  function GetEnv(env: Env, name: string): (v: Option<string>)
    ensures v.Some? <==> name in env
    ensures v.Some? ==> v.value == env[name]
  {
    if name in env then Some(env[name]) else None
  }

  /** `os.getenv(name, default)`: the default replaces only an absent variable, never an empty one. */
  function GetEnvOr(env: Env, name: string, default: string): (v: string)
    ensures name in env ==> v == env[name]
    ensures name !in env ==> v == default
  {
    if name in env then env[name] else default
  }

  /** The settings record built once at start-up. Fields read with a default are always strings. */
  datatype Configuration = Configuration(
    slackBotToken: Option<string>,
    slackAppToken: Option<string>,
    openAiBaseUrl: string,
    openAiKey: Option<string>,
    openRouterKey: Option<string>,
    model: string,
    ollamaBaseUrl: string)

  /** Building the settings from the environment. */
  function Load(env: Env): (c: Configuration)
    ensures c.slackBotToken.Some? <==> SlackBotTokenVar in env
    ensures c.slackAppToken.Some? <==> SlackAppTokenVar in env
    ensures c.openAiKey.Some? <==> OpenAiKeyVar in env
    ensures c.openRouterKey.Some? <==> OpenRouterKeyVar in env
    ensures c.slackBotToken.Some? ==> c.slackBotToken.value == env[SlackBotTokenVar]
    ensures c.slackAppToken.Some? ==> c.slackAppToken.value == env[SlackAppTokenVar]
    ensures c.openAiKey.Some? ==> c.openAiKey.value == env[OpenAiKeyVar]
    ensures c.openRouterKey.Some? ==> c.openRouterKey.value == env[OpenRouterKeyVar]
    ensures c.openAiBaseUrl == if OpenAiBaseUrlVar in env then env[OpenAiBaseUrlVar] else DefaultOpenAiBaseUrl
    ensures c.model == if ModelVar in env then env[ModelVar] else DefaultModel
    ensures c.ollamaBaseUrl == if OllamaBaseUrlVar in env then env[OllamaBaseUrlVar] else DefaultOllamaBaseUrl
  {
    Configuration(
      GetEnv(env, SlackBotTokenVar),
      GetEnv(env, SlackAppTokenVar),
      GetEnvOr(env, OpenAiBaseUrlVar, DefaultOpenAiBaseUrl),
      GetEnv(env, OpenAiKeyVar),
      GetEnv(env, OpenRouterKeyVar),
      GetEnvOr(env, ModelVar, DefaultModel),
      GetEnvOr(env, OllamaBaseUrlVar, DefaultOllamaBaseUrl))
  }

  /** The fixed sentence that opens the configuration error. */
  const ErrorPrefix := "No API key found for the selected model: "

  /** What the key lookup yields: no key for a local model, a key, or the configuration error. */
  datatype KeyResolution = NoKeyNeeded | Key(key: string) | ConfigError(model: string) {
    /** The text of the raised error: the fixed sentence immediately followed by the model. */
    function Message(): (m: string)
      requires ConfigError?
      ensures StartsWith(m, ErrorPrefix)
      ensures |m| == |ErrorPrefix| + |model|
      ensures m[|ErrorPrefix|..] == model
    {
      ErrorPrefix + model
    }
  }

  /** The model is served locally: it is the prefix followed by a (possibly empty) local name. */
  function IsLocalModel(model: string): (b: bool)
    ensures b <==> |OllamaPrefix| <= |model| && model == OllamaPrefix + model[|OllamaPrefix|..]
    ensures b ==> model != ""
  {
    StartsWith(model, OllamaPrefix)
  }

  /** The OpenRouter rule: a non-empty OpenRouter key and a base URL in which "openrouter" occurs. */
  function OpenRouterApplies(c: Configuration): (b: bool)
    ensures b <==> Truthy(c.openRouterKey) && HasSubstring(c.openAiBaseUrl, "openrouter")
  {
    Truthy(c.openRouterKey) && Contains(c.openAiBaseUrl, "openrouter")
  }

  /** The OpenAI rule: the model mentions "gpt" in any mix of cases and the OpenAI key is non-empty. */
  function OpenAiApplies(c: Configuration): (b: bool)
    ensures b <==> MentionsGpt(c.model) && Truthy(c.openAiKey)
  {
    GptInLowerIffMentionsGpt(c.model);
    Contains(Lower(c.model), "gpt") && Truthy(c.openAiKey)
  }

  /**
   * `Configuration.llm_api_key`: the rules are tried in order, local model,
   * OpenRouter, OpenAI, and the first that applies decides.
   */
  function LlmApiKey(c: Configuration): (r: KeyResolution)
    ensures r.NoKeyNeeded? <==> IsLocalModel(c.model)
    ensures r.Key? ==> r.key != "" && (Some(r.key) == c.openRouterKey || Some(r.key) == c.openAiKey)
    ensures r.ConfigError? ==> r.model == c.model
  {
    if IsLocalModel(c.model) then NoKeyNeeded
    else if OpenRouterApplies(c) then Key(c.openRouterKey.value)
    else if OpenAiApplies(c) then Key(c.openAiKey.value)
    else ConfigError(c.model)
  }

  /** A local model needs no key whatever keys and base URL are configured, so it never gets the OpenRouter key. */
  lemma LocalModelBeatsOpenRouter(c: Configuration)
    requires IsLocalModel(c.model)
    ensures LlmApiKey(c) == NoKeyNeeded
    ensures forall k, u :: LlmApiKey(c.(openRouterKey := k, openAiBaseUrl := u)) == NoKeyNeeded
  {
  }

  /**
   * For a model that is not local, a non-empty OpenRouter key and a base URL in
   * which "openrouter" occurs yield the OpenRouter key, whether or not the model
   * mentions "gpt" and an OpenAI key is set.
   */
  lemma OpenRouterRule(c: Configuration)
    requires !IsLocalModel(c.model)
    requires Truthy(c.openRouterKey) && HasSubstring(c.openAiBaseUrl, "openrouter")
    ensures LlmApiKey(c) == Key(c.openRouterKey.value)
  {
  }

  /**
   * When neither earlier rule fires, a model that mentions "gpt" in any mix of
   * cases together with a non-empty OpenAI key yields the OpenAI key.
   */
  lemma OpenAiRule(c: Configuration)
    requires !IsLocalModel(c.model)
    requires !(Truthy(c.openRouterKey) && HasSubstring(c.openAiBaseUrl, "openrouter"))
    requires MentionsGpt(c.model) && Truthy(c.openAiKey)
    ensures LlmApiKey(c) == Key(c.openAiKey.value)
  {
  }

  /** Resolution fails, naming the model, exactly when no rule applies. */
  lemma ConfigErrorIffNoRule(c: Configuration)
    ensures LlmApiKey(c) == ConfigError(c.model) <==>
      !IsLocalModel(c.model)
      && !(Truthy(c.openRouterKey) && HasSubstring(c.openAiBaseUrl, "openrouter"))
      && !(MentionsGpt(c.model) && Truthy(c.openAiKey))
  {
  }

  /** The OpenAI key is used exactly under the third rule. */
  lemma OpenAiKeyIffRule(c: Configuration)
    requires c.openAiKey != c.openRouterKey
    ensures (LlmApiKey(c).Key? && Some(LlmApiKey(c).key) == c.openAiKey) <==>
      !IsLocalModel(c.model)
      && !(Truthy(c.openRouterKey) && HasSubstring(c.openAiBaseUrl, "openrouter"))
      && MentionsGpt(c.model) && Truthy(c.openAiKey)
  {
  }

  /** "GPT-4" with a non-empty OpenAI key and no OpenRouter key resolves to the OpenAI key. */
  lemma UpperCaseGptUsesOpenAiKey(c: Configuration)
    requires c.model == "GPT-4" && c.openRouterKey == None && Truthy(c.openAiKey)
    ensures LlmApiKey(c) == Key(c.openAiKey.value)
  {
    assert GptAt(c.model, 0);
    OpenAiRule(c);
  }

  /**
   * With the default model and only a non-empty OpenAI key in the environment,
   * the OpenAI key is returned.
   */
  lemma DefaultModelUsesOpenAiKey(env: Env)
    requires ModelVar !in env && OpenRouterKeyVar !in env
    requires OpenAiKeyVar in env && env[OpenAiKeyVar] != ""
    ensures LlmApiKey(Load(env)) == Key(env[OpenAiKeyVar])
  {
    var c := Load(env);
    assert GptAt(c.model, 0);
    OpenAiRule(c);
  }

  /**
   * A model variable that is present but empty is kept, not replaced by the
   * default; without an OpenRouter key no key is then found.
   */
  lemma EmptyModelIsAnError(env: Env)
    requires ModelVar in env && env[ModelVar] == "" && OpenRouterKeyVar !in env
    ensures Load(env).model == ""
    ensures LlmApiKey(Load(env)) == ConfigError("")
  {
    var c := Load(env);
    ConfigErrorIffNoRule(c);
  }

  /** "ollama/llama3:8b" needs no key, whatever else is configured. */
  lemma OllamaExample(c: Configuration)
    ensures LlmApiKey(c.(model := "ollama/llama3:8b")) == NoKeyNeeded
  {
    assert IsLocalModel("ollama/llama3:8b");
  }

  /** "claude-3" with no keys set matches no rule, so resolution fails naming it. */
  lemma NoRuleExample(c: Configuration)
    requires c.openAiKey == None && c.openRouterKey == None
    ensures LlmApiKey(c.(model := "claude-3")) == ConfigError("claude-3")
  {
    var claude := c.(model := "claude-3");
    assert claude.model[..|OllamaPrefix|][0] != OllamaPrefix[0];
  }
}
