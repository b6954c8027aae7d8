/**
 * How the bot binds its chat client: the resolved API key, the configured model
 * and the base URL from the settings are handed to the client, and an
 * unresolved key makes binding fail before any client is built.
 */
module Wiring {
  import opened Wrappers
  import opened Strings
  import Config
  import Llm

  /** The outcome of binding the chat client: its backend, or the configuration error raised while reading the key. */
  datatype ClientBinding = Bound(backend: Llm.Backend) | Failed(error: Config.KeyResolution)

  /** The key as the client receives it: `None` when no key is needed. */
  function KeyArgument(r: Config.KeyResolution): (k: Option<string>)
    requires !r.ConfigError?
    ensures k.None? <==> r.NoKeyNeeded?
    ensures k.Some? ==> k.value == r.key
  {
    if r.NoKeyNeeded? then None else Some(r.key)
  }

  /**
   * Building the chat client from the settings. Binding fails exactly when the
   * key lookup fails; a local backend runs the model's name after the prefix; a
   * hosted backend gets the resolved key (never empty), the configured model and
   * base URL, and the fixed parameters.
   */
  function BindChatClient(c: Config.Configuration): (s: ClientBinding)
    ensures s.Failed? <==> Config.LlmApiKey(c).ConfigError?
    ensures s.Failed? ==> s.error == Config.ConfigError(c.model)
    ensures s.Bound? ==> (s.backend.Local? <==> Config.LlmApiKey(c).NoKeyNeeded?)
    ensures s.Bound? && s.backend.Local? ==> Llm.OllamaPrefix + s.backend.name == c.model
    ensures s.Bound? && s.backend.Hosted? ==>
      Truthy(s.backend.apiKey) && s.backend.apiKey == Some(Config.LlmApiKey(c).key)
      && s.backend.model == Some(c.model) && s.backend.baseUrl == Some(c.openAiBaseUrl)
      && s.backend.maxCompletionTokens == Llm.HostedMaxCompletionTokens
      && s.backend.streaming == Llm.HostedStreaming
  {
    var r := Config.LlmApiKey(c);
    if r.ConfigError? then Failed(r)
    else
      LocalExactlyWhenNoKey(KeyArgument(r), c, Some(c.openAiBaseUrl));
      Bound(Llm.Route(KeyArgument(r), Some(c.model), Some(c.openAiBaseUrl)))
  }

  /**
   * Both files test the same "ollama/" prefix: a configured model is routed to
   * the local backend exactly when the key lookup says no key is needed,
   * whatever key and base URL the client is given.
   */
  lemma LocalExactlyWhenNoKey(apiKey: Option<string>, c: Config.Configuration, baseUrl: Option<string>)
    ensures Llm.Route(apiKey, Some(c.model), baseUrl).Local? <==> Config.LlmApiKey(c).NoKeyNeeded?
  {
    assert Llm.OllamaPrefix == Config.OllamaPrefix;
  }
}
