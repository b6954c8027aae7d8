# Model of the Slack assistant's configuration and model routing

The bot relays Slack messages to a language-model agent. This project models the two
pieces of deterministic decision logic in it:

- **Settings and API-key resolution** (`src/config.py`). The settings record is built
  from environment variables. Some variables have a fallback default, and the default
  applies only when the variable is absent. `llm_api_key` is an ordered rule chain:
  1. A model prefixed `ollama/` needs no key.
  2. Otherwise, a non-empty OpenRouter key is used when the base URL contains `openrouter`.
  3. Otherwise, a non-empty OpenAI key is used when the lower-cased model contains `gpt`.
  4. Otherwise a configuration error naming the model is raised.
- **Backend routing** (`src/llm.py`). The chat client goes to a local Ollama backend
  when the model identifier is non-empty and starts with `ollama/`. The local model name
  is the text after the first `/`. Every other identifier goes to a hosted
  OpenAI-compatible backend. That backend receives the key, model and base URL unchanged,
  plus `max_completion_tokens = 1500` and `streaming = False`.
- **Wiring** (`src/slack.py:28-32`, only those lines). The resolved key, the model and
  the base URL are passed to the chat client. This is where the two files meet: a model
  is routed locally exactly when the key lookup says no key is needed.

Modules:
- `Wrappers` holds `Option`.
- `Strings` holds the Python string operations used: `startswith`, `in`, ASCII
  `lower()`, `split(sep, 1)` and truthiness.
- `Config` models `src/config.py`, `Llm` models `src/llm.py` and `Wiring` models the
  binding in `src/slack.py`.

The environment is a `map<string, string>`. A variable can be present with the empty
string as its value. Python treats `None` and `""` alike as false, so `Strings.Truthy`
does the same.

Two details of the code that the model follows:
- The OpenAI rule tests whether `"gpt"` occurs anywhere in `llm_model.lower()`
  (src/config.py:67).
- `llm_api_key` raises `ValueError` when it is read at src/slack.py:29, while the chat
  client is being bound. `Wiring.BindChatClient` models that binding step only.

## Model

| member | source | states |
|---|---|---|
| `Config.GetEnv` | src/config.py:14-20 | `os.getenv(name)` is present exactly when the variable is set, and then holds its value (possibly empty) |
| `Config.GetEnvOr` | src/config.py:16-18 | the default is used only when the variable is absent; a present variable, even an empty one, is kept |
| `Config.Load` | src/config.py:11-24 | every settings field comes from its variable; the base URL, model and Ollama URL fall back to `https://api.openai.com/v1/`, `gpt-4-turbo` and `http://localhost:11434` only when their variable is absent |
| `Config.IsLocalModel` | src/config.py:59 | a model is local exactly when it is `ollama/` followed by some name, so a local model is never empty |
| `Config.OpenRouterApplies` | src/config.py:63 | the OpenRouter rule fires exactly when the OpenRouter key is non-empty and `openrouter` occurs at some position of the base URL |
| `Config.OpenAiApplies` | src/config.py:67 | the OpenAI rule fires exactly when `gpt` occurs in the model in some mix of cases and the OpenAI key is non-empty |
| `Config.LlmApiKey` | src/config.py:48-70 | no key is needed exactly when the model starts with `ollama/`; a returned key is never empty and is one of the two configured keys; an error carries the model identifier |
| `Config.KeyResolution.Message` | src/config.py:70 | the error text is exactly the fixed sentence immediately followed by the model identifier |
| `Config.LocalModelBeatsOpenRouter` | src/config.py:59-64 | an `ollama/` model needs no key, whatever OpenRouter key and base URL are configured |
| `Config.OpenRouterRule` | src/config.py:59-64 | for a non-local model, a non-empty OpenRouter key and a base URL containing `openrouter` always yield the OpenRouter key, whatever the model and the OpenAI key are |
| `Config.OpenAiRule` | src/config.py:62-68 | when the first two rules do not fire, a model containing `gpt` in any mix of cases plus a non-empty OpenAI key yields the OpenAI key |
| `Config.OpenAiKeyIffRule` | src/config.py:59-68 | when the two keys differ, the OpenAI key is returned exactly when the model is not local, the OpenRouter rule does not fire, the model mentions `gpt` case-insensitively and the OpenAI key is non-empty |
| `Config.ConfigErrorIffNoRule` | src/config.py:59-70 | resolution fails, naming the model, exactly when none of the three rules applies |
| `Config.UpperCaseGptUsesOpenAiKey` | src/config.py:67-68 | `GPT-4` with a non-empty OpenAI key and no OpenRouter key resolves to the OpenAI key |
| `Config.DefaultModelUsesOpenAiKey` | src/config.py:21-68 | with `LLM_MODEL` and `OPENROUTER_API_KEY` absent and a non-empty `OPENAI_API_KEY`, the default model resolves to the OpenAI key |
| `Config.EmptyModelIsAnError` | src/config.py:21 | an empty `LLM_MODEL` is kept rather than replaced by the default; with no OpenRouter key it then fails to resolve |
| `Config.OllamaExample` | src/config.py:59-60 | `ollama/llama3:8b` needs no key whatever else is configured |
| `Config.NoRuleExample` | src/config.py:70 | `claude-3` with no keys set fails, naming `claude-3` |
| `Strings.Truthy` | src/config.py:63-67 | an optional string is false exactly when it is `None` or `""` |
| `Strings.StartsWith` | src/config.py:59 | `s.startswith(p)` holds exactly when `p` occurs at position 0, and then `s` is `p` followed by the rest of `s` |
| `Strings.SubstringPastFirst` | src/config.py:63 | when `sub` does not start `s`, it occurs in `s` exactly when it occurs in `s` without its first character |
| `Strings.Contains` | src/config.py:63 | the scan used for Python's `in` is true exactly when the substring occurs at some position |
| `Strings.Lower` | src/config.py:67 | lower-casing keeps the length and lower-cases each character in place |
| `Strings.GptInLowerIffMentionsGpt` | src/config.py:67 | `"gpt" in model.lower()` holds exactly when `g`, `p`, `t` occur consecutively in the model, each in either case |
| `Strings.SplitOnce` | src/llm.py:35 | `split(sep, 1)` gives one part (the whole string) exactly when `sep` does not occur; otherwise a head without `sep` and a tail that rejoin to the input |
| `Strings.SplitOnceAfter` | src/llm.py:35 | when the string starts with a `sep`-free head followed by `sep`, the split is exactly at that `sep` |
| `Llm.Route` | src/llm.py:33-47 | local exactly when the model is present and starts with `ollama/`; then `"ollama/" + name` is the model; otherwise hosted with key, model and base URL unchanged, 1500 completion tokens and no streaming |
| `Llm.RouteOfPrefixedName` | src/llm.py:33-35 | round trip: `ollama/` followed by any name is routed locally under that same name |
| `Llm.LocalIgnoresKeyAndUrl` | src/llm.py:33-36 | the local backend does not depend on the API key or the base URL |
| `Llm.MissingOrEmptyModelIsHosted` | src/llm.py:33-46 | a missing or empty model goes to the hosted backend |
| `Llm.LocalNameExample` | src/llm.py:34-35 | `ollama/llama3:8b` runs locally as `llama3:8b` |
| `Llm.LaterSlashesStayInName` | src/llm.py:35 | only the first `/` separates: `ollama/library/qwen2` runs locally as `library/qwen2` |
| `Llm.PrefixIsCaseSensitive` | src/llm.py:33 | `Ollama/x` goes to the hosted backend |
| `Wiring.KeyArgument` | src/slack.py:29 | the client gets `None` exactly when no key is needed, and otherwise the resolved key |
| `Wiring.BindChatClient` | src/slack.py:28-32 | binding the chat client fails exactly when the key lookup fails; otherwise the backend is local exactly when no key is needed and then runs the model's name after `ollama/`; a hosted backend gets the resolved (never empty) key, the configured model and base URL, 1500 completion tokens and no streaming |
| `Wiring.LocalExactlyWhenNoKey` | src/llm.py:33 | a configured model is routed locally exactly when `llm_api_key` needs no key, for any key and base URL given to the client |

## Left out

- `Strings.Lower`: models `str.lower()` on ASCII letters only. Python lower-cases every Unicode cased character. The `gpt` test is only affected when the model identifier contains non-ASCII characters that lower-case to `g`, `p` or `t`.
- `Configuration.load_env` and `Configuration.load_config` read a `.env` file and a JSON file. That is file I/O, so they are not modelled.
- Reading the real process environment is I/O. The environment is a parameter here.
- The hosted client's `temperature = 0.7` is a floating-point constant and is not modelled.
- The `ChatOllama` and `ChatOpenAI` library constructors, and the logging, are opaque. The model records the arguments they receive.
- `ChatClient` keeps its three arguments as fields and sets `agent` to `None`. These are plain stores that are never read in the core, so they are not modelled.
- Start-up can fail before the chat client is bound, so `Wiring.BindChatClient` describes only that binding step. `SlackAgent.__init__` first reads `servers_config.json` (src/slack.py:26), and main.py:28 passes two arguments to an `__init__` that takes none (src/slack.py:15-17).
- `src/slack.py` beyond lines 28-32 is not part of this model. That covers the Slack event handlers, socket-mode start and stop, and the identity and profile lookups, which are all asynchronous I/O over libraries.
- `src/agent.py` is not part of this model. It is a wrapper around an external agent loop and a tool-protocol client.
- `main.py` is not part of this model. It covers the keep-alive loop and interrupt handling.
