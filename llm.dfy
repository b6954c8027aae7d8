/**
 * The chat client's choice of backend: a local Ollama server for model
 * identifiers prefixed "ollama/", a hosted OpenAI-compatible API otherwise.
 */
module Llm {
  import opened Wrappers
  import opened Strings

  /** The prefix that marks a model served by a local Ollama process (the configuration tests the same literal). */
  const OllamaPrefix := "ollama/"

  /** Fixed parameters of the hosted client. */
  const HostedMaxCompletionTokens := 1500
  const HostedStreaming := false

  /** The backend the client is bound to, with the arguments its constructor receives. */
  datatype Backend =
    | Local(name: string)
    | Hosted(apiKey: Option<string>, model: Option<string>, baseUrl: Option<string>,
             maxCompletionTokens: nat, streaming: bool)

  /**
   * `ChatClient.__init__`: a truthy model starting with "ollama/" goes to the
   * local backend under the text after its first "/"; anything else, including
   * a missing or empty model, goes to the hosted backend with the key, model
   * and base URL passed through and the fixed parameters.
   */
  function Route(apiKey: Option<string>, model: Option<string>, baseUrl: Option<string>): (b: Backend)
    ensures b.Local? <==> model.Some? && StartsWith(model.value, OllamaPrefix)
    ensures b.Local? ==> OllamaPrefix + b.name == model.value
    ensures b.Hosted? ==> b == Hosted(apiKey, model, baseUrl, HostedMaxCompletionTokens, HostedStreaming)
  {
    if Truthy(model) && StartsWith(model.value, OllamaPrefix) then
      SplitOnceAfter(model.value, "ollama", '/');
      Local(SplitOnce(model.value, '/')[1])
    else
      Hosted(apiKey, model, baseUrl, HostedMaxCompletionTokens, HostedStreaming)
  }

  /** Round trip from the other side: prefixing any name with "ollama/" routes locally under that very name. */
  lemma {:induction false} RouteOfPrefixedName(apiKey: Option<string>, name: string, baseUrl: Option<string>)
    ensures Route(apiKey, Some(OllamaPrefix + name), baseUrl) == Local(name)
  {
    var model := OllamaPrefix + name;
    assert model[..|OllamaPrefix|] == OllamaPrefix;
    var b := Route(apiKey, Some(model), baseUrl);
    assert b.name == (OllamaPrefix + b.name)[|OllamaPrefix|..] == model[|OllamaPrefix|..] == name;
  }

  /** The local branch uses neither the API key nor the base URL. */
  lemma LocalIgnoresKeyAndUrl(k1: Option<string>, k2: Option<string>, model: Option<string>,
                              u1: Option<string>, u2: Option<string>)
    requires Route(k1, model, u1).Local?
    ensures Route(k2, model, u2) == Route(k1, model, u1)
  {
    var name := Route(k1, model, u1).name;
    RouteOfPrefixedName(k1, name, u1);
    RouteOfPrefixedName(k2, name, u2);
  }

  /** A missing or empty model goes to the hosted backend. */
  lemma MissingOrEmptyModelIsHosted(apiKey: Option<string>, baseUrl: Option<string>)
    ensures Route(apiKey, None, baseUrl).Hosted?
    ensures Route(apiKey, Some(""), baseUrl) == Hosted(apiKey, Some(""), baseUrl, HostedMaxCompletionTokens, HostedStreaming)
  {
  }

  /** "ollama/llama3:8b" runs locally as "llama3:8b". */
  lemma LocalNameExample(apiKey: Option<string>, model: string, baseUrl: Option<string>)
    requires model == "ollama/llama3:8b"
    ensures Route(apiKey, Some(model), baseUrl) == Local("llama3:8b")
  {
    assert model == OllamaPrefix + "llama3:8b";
    RouteOfPrefixedName(apiKey, "llama3:8b", baseUrl);
  }

  /** Slashes after the first stay in the local name. */
  lemma LaterSlashesStayInName(apiKey: Option<string>, model: string, baseUrl: Option<string>)
    requires model == "ollama/library/qwen2"
    ensures Route(apiKey, Some(model), baseUrl) == Local("library/qwen2")
  {
    assert model == OllamaPrefix + "library/qwen2";
    RouteOfPrefixedName(apiKey, "library/qwen2", baseUrl);
  }

  /** The prefix test is case-sensitive: "Ollama/x" is sent to the hosted backend. */
  lemma PrefixIsCaseSensitive(apiKey: Option<string>, baseUrl: Option<string>)
    ensures Route(apiKey, Some("Ollama/x"), baseUrl).Hosted?
  {
    assert "Ollama/x"[..|OllamaPrefix|][0] != OllamaPrefix[0];
  }
}
