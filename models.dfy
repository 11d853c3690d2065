/** The model registry built by `createModels` in models.ts. */
module Models {
  import opened Common
  import opened Schema

  /** `modelProviders`: who made the model. */
  datatype ModelProvider = ByOpenAI | ByAnthropic | ByGoogle | ByMeta | ByDeepSeek {
    function Label(): string {
      match this
      case ByOpenAI => "OpenAI"
      case ByAnthropic => "Anthropic"
      case ByGoogle => "Google"
      case ByMeta => "Meta"
      case ByDeepSeek => "DeepSeek"
    }
  }

  /** An AI SDK provider instance (`createOpenAI({ apiKey })` and the like): which API, with which key. */
  datatype Client = Client(api: Provider, apiKey: Option<string>)

  /** A language model handle such as `openai.responses("gpt-5")` or `groq("llama-3.1-8b-instant")`. */
  datatype LanguageModel = LanguageModel(client: Client, name: string)

  /** `openai.tools.webSearchPreview({ searchContextSize })`. */
  datatype Tool = WebSearchPreview(client: Client, searchContextSize: string)

  /** The optional `webSearch` entry of a model: the tool and the name it is offered under. */
  datatype WebSearch = WebSearch(tool: Tool, name: string)

  datatype ModelConfig = ModelConfig(displayName: string,
     model: LanguageModel, provider: ModelProvider, api: Provider, webSearch: Option<WebSearch>)

  /** One property of the object literal that `createModels` returns, in source order. */
  datatype Entry = Entry(id: string, config: ModelConfig)

  /** `apiKeys.openai` and the like: undefined when the field is absent. */
  function KeyArgument(apiKeys: KeyFields, p: Provider): (r: Option<string>)
    ensures r.Some? <==> p in apiKeys
    ensures r.Some? ==> r.value == apiKeys[p]
  {
    if p in apiKeys then Some(apiKeys[p]) else None
  }

  /**
   * `createModels(apiKeys)`: the object literal of 23 properties, in source order.
   * The keys reach the five provider clients and nothing else.
   */
  function CreateModels(apiKeys: KeyFields): seq<Entry> {
    seq(RegistrySize, i requires 0 <= i < RegistrySize => ModelEntry(apiKeys, i))
  }

  const RegistrySize := 23

  /** The i-th property of the literal `createModels` returns. */
  function ModelEntry(apiKeys: KeyFields, i: nat): Entry
    requires i < RegistrySize
  {
    var openai := Client(OpenAI, KeyArgument(apiKeys, OpenAI));
    var groq := Client(Groq, KeyArgument(apiKeys, Groq));
    var anthropic := Client(Anthropic, KeyArgument(apiKeys, Anthropic));
    var google := Client(Google, KeyArgument(apiKeys, Google));
    var openrouter := Client(OpenRouter, KeyArgument(apiKeys, OpenRouter));
    var webSearch := Some(WebSearch(WebSearchPreview(openai, "medium"), "web_search_preview"));
    match i
    case 0 => Entry("gpt-5", ModelConfig("GPT-5", LanguageModel(openai, "gpt-5"), ByOpenAI, OpenAI, webSearch))
    case 1 => Entry("gpt-5-mini", ModelConfig("GPT-5 Mini",
        LanguageModel(openai, "gpt-5-mini"), ByOpenAI, OpenAI, webSearch))
    case 2 => Entry("gpt-5-nano", ModelConfig("GPT-5 Nano",
        LanguageModel(openai, "gpt-5-nano"), ByOpenAI, OpenAI, webSearch))
    case 3 => Entry("gpt-4.1", ModelConfig("GPT-4.1",
        LanguageModel(openai, "gpt-4.1"), ByOpenAI, OpenAI, webSearch))
    case 4 => Entry("gpt-4.1-mini", ModelConfig("GPT-4.1 Mini",
        LanguageModel(openai, "gpt-4.1-mini"), ByOpenAI, OpenAI, webSearch))
    case 5 => Entry("o4-mini", ModelConfig("o4-mini", LanguageModel(openai, "o4-mini"), ByOpenAI, OpenAI, None))
    case 6 => Entry("o3", ModelConfig("o3", LanguageModel(openai, "o3"), ByOpenAI, OpenAI, None))
    case 7 => Entry("claude-sonnet-4", ModelConfig("Claude Sonnet 4",
        LanguageModel(anthropic, "claude-sonnet-4-20250514"), ByAnthropic, Anthropic, None))
    case 8 => Entry("claude-opus-4", ModelConfig("Claude 4 Opus",
        LanguageModel(anthropic, "claude-opus-4-20250514"), ByAnthropic, Anthropic, None))
    case 9 => Entry("gemini-2.5-flash-lite", ModelConfig("Gemini 2.5 Flash Lite",
        LanguageModel(google, "gemini-2.5-flash-lite-preview-06-17"), ByGoogle, Google, None))
    case 10 => Entry("gemini-2.5-flash", ModelConfig("Gemini 2.5 Flash",
        LanguageModel(google, "gemini-2.5-flash"), ByGoogle, Google, None))
    case 11 => Entry("gemini-2.5-pro", ModelConfig("Gemini 2.5 Pro",
        LanguageModel(google, "gemini-2.5-pro"), ByGoogle, Google, None))
    case 12 => Entry("deepseek-r1", ModelConfig("DeepSeek R1",
        LanguageModel(groq, "deepseek-r1-distill-llama-70b"), ByDeepSeek, Groq, None))
    case 13 => Entry("llama-4-maverick", ModelConfig("Llama 4 Maverick",
        LanguageModel(groq, "meta-llama/llama-4-maverick-17b-128e-instruct"), ByMeta, Groq, None))
    case 14 => Entry("llama-3.1-8b", ModelConfig("Llama 3.1 8B",
        LanguageModel(groq, "llama-3.1-8b-instant"), ByMeta, Groq, None))
    case 15 => Entry("gpt-4.1-openrouter", ModelConfig("GPT-4.1",
        LanguageModel(openrouter, "openai/gpt-4.1"), ByOpenAI, OpenRouter, None))
    case 16 => Entry("gpt-4.1-mini-openrouter", ModelConfig("GPT-4.1 Mini",
        LanguageModel(openrouter, "openai/gpt-4.1-mini"), ByOpenAI, OpenRouter, None))
    case 17 => Entry("o4-mini-openrouter", ModelConfig("o4-mini",
        LanguageModel(openrouter, "openai/o4-mini"), ByOpenAI, OpenRouter, None))
    case 18 => Entry("claude-sonnet-4-openrouter", ModelConfig("Claude Sonnet 4",
        LanguageModel(openrouter, "anthropic/claude-sonnet-4"), ByAnthropic, OpenRouter, None))
    case 19 => Entry("claude-opus-4-openrouter", ModelConfig("Claude 4 Opus",
        LanguageModel(openrouter, "anthropic/claude-opus-4"), ByAnthropic, OpenRouter, None))
    case 20 => Entry("gemini-2.5-flash-lite-openrouter", ModelConfig("Gemini 2.5 Flash Lite",
        LanguageModel(openrouter, "google/gemini-2.5-flash-lite-preview-06-17"), ByGoogle, OpenRouter, None))
    case 21 => Entry("gemini-2.5-flash-openrouter", ModelConfig("Gemini 2.5 Flash",
        LanguageModel(openrouter, "google/gemini-2.5-flash"), ByGoogle, OpenRouter, None))
    case 22 => Entry("gemini-2.5-pro-openrouter", ModelConfig("Gemini 2.5 Pro",
        LanguageModel(openrouter, "google/gemini-2.5-pro"), ByGoogle, OpenRouter, None))
    case _ => assert false; Entry("", ModelConfig("", LanguageModel(openai, ""), ByOpenAI, OpenAI, None))
  }

  /** `models = createModels({})`, the table the helpers look models up in. */
  function DefaultModels(): seq<Entry> {
    CreateModels(map[])
  }

  /** `models[id]`: the configuration of the first property named id, if any. */
  function Lookup(entries: seq<Entry>, id: string): (r: Option<ModelConfig>)
    ensures r.Some? <==> exists i :: 0 <= i < |entries| && entries[i].id == id
    ensures r.Some? ==> exists i :: 0 <= i < |entries| && entries[i] == Entry(id, r.value)
  {
    if entries == [] then None
    else if entries[0].id == id then Some(entries[0].config)
    else
      var r := Lookup(entries[1..], id);
      assert forall i :: 1 <= i < |entries| ==> entries[i] == entries[1..][i - 1];
      r
  }

  function Ids(entries: seq<Entry>): (r: seq<string>)
    ensures |r| == |entries| && forall i :: 0 <= i < |entries| ==> r[i] == entries[i].id
  {
    seq(|entries|, i requires 0 <= i < |entries| => entries[i].id)
  }

  /** The ids that carry a web-search tool. */
  const WebSearchIds: set<string> := {"gpt-5", "gpt-5-mini", "gpt-5-nano", "gpt-4.1", "gpt-4.1-mini"}

  /** The property names of the registry, in source order. */
  const RegistryIds: seq<string> := [
    "gpt-5", "gpt-5-mini", "gpt-5-nano", "gpt-4.1", "gpt-4.1-mini", "o4-mini", "o3",
    "claude-sonnet-4", "claude-opus-4", "gemini-2.5-flash-lite", "gemini-2.5-flash", "gemini-2.5-pro",
    "deepseek-r1", "llama-4-maverick", "llama-3.1-8b",
    "gpt-4.1-openrouter", "gpt-4.1-mini-openrouter", "o4-mini-openrouter", "claude-sonnet-4-openrouter",
    "claude-opus-4-openrouter", "gemini-2.5-flash-lite-openrouter", "gemini-2.5-flash-openrouter",
    "gemini-2.5-pro-openrouter"]
}
