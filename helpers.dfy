/** convex/helpers.ts: key routing, tool selection, session checks and the framing of encrypted keys. */
module Helpers {
  import opened Common
  import opened Schema
  import opened JsString
  import opened Models
  import opened Store
  import ModelsFacts

  // ---------------------------------------------------------------------------
  // getRequiredApiKeyForModel
  // ---------------------------------------------------------------------------

  /** `apiKeys.p || null`: an absent field and an empty one both give null. */
  function KeyOrNull(keys: KeyFields, p: Provider): (r: Option<string>)
    ensures r.Some? <==> p in keys && keys[p] != ""
    ensures r.Some? ==> r.value == keys[p]
  {
    if p in keys && keys[p] != "" then Some(keys[p]) else None
  }

  /** The test of the first rule: the prefixes of the OpenAI models. */
  predicate OpenAIPrefix(modelName: string) {
    StartsWith(modelName, "gpt-") || StartsWith(modelName, "o3") || StartsWith(modelName, "o4-")
  }

  /** The provider whose key the rules pick for a model id, first matching rule winning; None when no rule matches. */
  function RoutedProvider(modelName: string): Option<Provider> {
    if OpenAIPrefix(modelName) then Some(OpenAI)
    else if StartsWith(modelName, "claude-") && !Includes(modelName, "openrouter") then Some(Anthropic)
    else if StartsWith(modelName, "gemini-") && !Includes(modelName, "openrouter") then Some(Google)
    else if Includes(modelName, "deepseek-r1")
         || (Includes(modelName, "llama-") && !Includes(modelName, "openrouter")) then Some(Groq)
    else if Includes(modelName, "openrouter") then Some(OpenRouter)
    else None
  }

  /** `getRequiredApiKeyForModel(modelName, apiKeys)`: the stored key the model needs, or null. */
  function RequiredApiKeyForModel(modelName: string, apiKeys: Option<KeyFields>): (r: Option<string>)
    ensures apiKeys.None? ==> r.None?
    ensures r.Some? ==> apiKeys.Some? && r.value != "" && r.value in apiKeys.value.Values
    ensures RoutedProvider(modelName).None? ==> r.None?
  {
    if apiKeys.None? then None
    else
      match RoutedProvider(modelName)
      case None => None
      case Some(p) => KeyOrNull(apiKeys.value, p)
  }

  /**
   * The rules, each read off as a condition on the id alone: which ids reach
   * which key. The OpenAI prefixes win even over "openrouter"; the Anthropic
   * and Google rules win over "deepseek-r1" and "llama-" anywhere in the id;
   * "deepseek-r1" beats "openrouter"; an id reaches the OpenRouter key only
   * when no earlier rule took it.
   */
  lemma RoutingRules(modelName: string)
    ensures RoutedProvider(modelName) == Some(OpenAI) <==> OpenAIPrefix(modelName)
    ensures RoutedProvider(modelName) == Some(Anthropic) <==>
      StartsWith(modelName, "claude-") && !Includes(modelName, "openrouter")
    ensures RoutedProvider(modelName) == Some(Google) <==>
      StartsWith(modelName, "gemini-") && !Includes(modelName, "openrouter")
    ensures RoutedProvider(modelName) == Some(Groq) <==>
      && !OpenAIPrefix(modelName)
      && !NativeRoute(modelName)
      && (Includes(modelName, "deepseek-r1") || (Includes(modelName, "llama-") && !Includes(modelName, "openrouter")))
    ensures RoutedProvider(modelName) == Some(OpenRouter) <==>
      !OpenAIPrefix(modelName) && !Includes(modelName, "deepseek-r1") && Includes(modelName, "openrouter")
    ensures RoutedProvider(modelName) == None <==>
      && !OpenAIPrefix(modelName)
      && !Includes(modelName, "deepseek-r1")
      && !Includes(modelName, "openrouter")
      && !StartsWith(modelName, "claude-") && !StartsWith(modelName, "gemini-") && !Includes(modelName, "llama-")
  {
    PrefixesExclusive(modelName);
  }

  /** The Anthropic and Google rules fire. */
  predicate NativeRoute(modelName: string) {
    (StartsWith(modelName, "claude-") || StartsWith(modelName, "gemini-")) && !Includes(modelName, "openrouter")
  }

  /** No id starts with two of the prefixes of the first three rules. */
  lemma PrefixesExclusive(modelName: string)
    ensures StartsWith(modelName, "claude-") ==> !OpenAIPrefix(modelName) && !StartsWith(modelName, "gemini-")
    ensures StartsWith(modelName, "gemini-") ==> !OpenAIPrefix(modelName)
  {
    if StartsWith(modelName, "claude-") {
      NotOpenAI(modelName);
      MismatchExcludesPrefix(modelName, "gemini-", 0);
    }
    if StartsWith(modelName, "gemini-") {
      MismatchExcludesPrefix(modelName, "gpt-", 1);
      MismatchExcludesPrefix(modelName, "o3", 0);
      MismatchExcludesPrefix(modelName, "o4-", 0);
    }
  }

  /** "llama-" counts anywhere in the id: "meta-llama-3" is routed to Groq. */
  lemma LlamaAnywhere(m: string)
    requires m == "meta-llama-3"
    ensures RoutedProvider(m) == Some(Groq)
  {
    IncludesAt(m, "llama-", 5);
    NotOpenAI(m);
    MismatchExcludesPrefix(m, "claude-", 0);
    MismatchExcludesPrefix(m, "gemini-", 0);
    MissingCharExcludes(m, "deepseek-r1", 'k');
    MissingCharExcludes(m, "openrouter", 'o');
  }

  /** The Anthropic rule comes first: "claude-llama-3" is not routed to Groq. */
  lemma ClaudeBeforeLlama(m: string)
    requires m == "claude-llama-3"
    ensures RoutedProvider(m) == Some(Anthropic)
  {
    NotOpenAI(m);
    assert StartsWith(m, "claude-");
    MissingCharExcludes(m, "openrouter", 'o');
  }

  /** With keys present, the returned key is exactly the routed provider's field, `|| null` applied. */
  lemma RequiredKeyIsRoutedField(modelName: string, keys: KeyFields)
    ensures RequiredApiKeyForModel(modelName, Some(keys)).Some? <==>
      RoutedProvider(modelName).Some? && RoutedProvider(modelName).value in keys
      && keys[RoutedProvider(modelName).value] != ""
    ensures RequiredApiKeyForModel(modelName, Some(keys)).Some? ==>
      RequiredApiKeyForModel(modelName, Some(keys)).value == keys[RoutedProvider(modelName).value]
  {
  }

  // ---------------------------------------------------------------------------
  // The routing rules against the registry
  // ---------------------------------------------------------------------------

  /**
   * Every registry model other than the three OpenRouter-served OpenAI models
   * is routed to the key of its own API.
   */
  lemma RoutingMatchesApi(keys: KeyFields)
    ensures forall i | 0 <= i < |CreateModels(keys)| && !(15 <= i < 18) ::
      RoutedProvider(CreateModels(keys)[i].id) == Some(CreateModels(keys)[i].config.api)
  {
    forall i | 0 <= i < RegistrySize && !(15 <= i < 18)
      ensures RoutedProvider(ModelEntry(keys, i).id) == Some(ModelEntry(keys, i).config.api)
    {
      ModelsFacts.EntryId(keys, i);
      EntryApi(keys, i);
      RegistryRoute(i);
    }
  }

  /**
   * gpt-4.1-openrouter, gpt-4.1-mini-openrouter and o4-mini-openrouter are
   * served by the OpenRouter client but routed to the OpenAI key.
   */
  lemma OpenRouterIdsRouteToOpenAI(keys: KeyFields)
    ensures forall i | 15 <= i < 18 && i < |CreateModels(keys)| ::
      && CreateModels(keys)[i].config.api == OpenRouter
      && RoutedProvider(CreateModels(keys)[i].id) == Some(OpenAI)
  {
    forall i | 15 <= i < 18
      ensures ModelEntry(keys, i).config.api == OpenRouter && RoutedProvider(ModelEntry(keys, i).id) == Some(OpenAI)
    {
      ModelsFacts.EntryId(keys, i);
      EntryApi(keys, i);
      OpenAIRoute(i);
      RoutingRules(RegistryIds[i]);
    }
  }

  /** A user holding only an OpenRouter key gets null for gpt-4.1-openrouter. */
  lemma OpenRouterOnlyUserIsRefused()
    ensures RequiredApiKeyForModel("gpt-4.1-openrouter", Some(map[OpenRouter := "sk-or"])) == None
    ensures RequiredApiKeyForModelCorrected("gpt-4.1-openrouter", Some(map[OpenRouter := "sk-or"])) == Some("sk-or")
  {
    assert StartsWith("gpt-4.1-openrouter", "gpt-");
    IncludesAt("gpt-4.1-openrouter", "openrouter", 8);
  }

  /** The API of entry i, whatever the keys. */
  lemma EntryApi(keys: KeyFields, i: nat)
    requires i < RegistrySize
    ensures ModelEntry(keys, i).config.api == RegistryApi(i)
  {
  }

  /** The API of the i-th registry id: seven OpenAI, two Anthropic, three Google, three Groq, eight OpenRouter. */
  function RegistryApi(i: nat): Provider {
    if i < 7 then OpenAI
    else if i < 9 then Anthropic
    else if i < 12 then Google
    else if i < 15 then Groq
    else OpenRouter
  }

  lemma RegistryRoute(i: nat)
    requires i < RegistrySize && !(15 <= i < 18)
    ensures RoutedProvider(RegistryIds[i]) == Some(RegistryApi(i))
  {
    var id := RegistryIds[i];
    RoutingRules(id);
    if i < 7 {
      OpenAIRoute(i);
    } else if i < 9 {
      ClaudeFacts(i);
    } else if i < 12 {
      GeminiFacts(i);
    } else if i < 15 {
      GroqFacts(i);
    } else if i < 20 {
      OpenRouterFacts(i);
    } else {
      GeminiOpenRouterFacts(i);
    }
  }

  // What the rules test, established for each registry id a few ids at a time
  // so that each proof stays small.

  lemma OpenAIRoute(i: nat)
    requires i < 7 || 15 <= i < 18
    ensures OpenAIPrefix(RegistryIds[i])
  {
    if i < 5 || 15 <= i < 17 {
      assert StartsWith(RegistryIds[i], "gpt-");
    } else if i == 6 {
      assert StartsWith(RegistryIds[i], "o3");
    } else {
      assert StartsWith(RegistryIds[i], "o4-");
    }
  }

  /** An id whose first character is neither 'g' nor 'o' has no OpenAI prefix. */
  lemma NotOpenAI(id: string)
    requires |id| > 0 && id[0] != 'g' && id[0] != 'o'
    ensures !OpenAIPrefix(id)
  {
    MismatchExcludesPrefix(id, "gpt-", 0);
    MismatchExcludesPrefix(id, "o3", 0);
    MismatchExcludesPrefix(id, "o4-", 0);
  }

  lemma ClaudeFacts(i: nat)
    requires 7 <= i < 9
    ensures var id := RegistryIds[i];
      !OpenAIPrefix(id) && StartsWith(id, "claude-") && !Includes(id, "openrouter")
  {
    var id := RegistryIds[i];
    NotOpenAI(id);
    MissingCharExcludes(id, "openrouter", 'r');
  }

  lemma GeminiFacts(i: nat)
    requires 9 <= i < 12
    ensures var id := RegistryIds[i];
      !OpenAIPrefix(id) && StartsWith(id, "gemini-") && !Includes(id, "openrouter")
  {
    var id := RegistryIds[i];
    MismatchExcludesPrefix(id, "gpt-", 1);
    MismatchExcludesPrefix(id, "o3", 0);
    MismatchExcludesPrefix(id, "o4-", 0);
    MissingCharExcludes(id, "openrouter", 'u');
  }

  lemma GroqFacts(i: nat)
    requires 12 <= i < 15
    ensures var id := RegistryIds[i];
      && !OpenAIPrefix(id) && !StartsWith(id, "claude-") && !StartsWith(id, "gemini-")
      && (Includes(id, "deepseek-r1") || (Includes(id, "llama-") && !Includes(id, "openrouter")))
  {
    var id := RegistryIds[i];
    NotOpenAI(id);
    MismatchExcludesPrefix(id, "claude-", 0);
    MismatchExcludesPrefix(id, "gemini-", 0);
    if i == 12 {
      IncludesAt(id, "deepseek-r1", 0);
    } else {
      IncludesAt(id, "llama-", 0);
      MissingCharExcludes(id, "openrouter", 'o');
    }
  }

  lemma OpenRouterFacts(i: nat)
    requires 18 <= i < 20
    ensures var id := RegistryIds[i];
      !OpenAIPrefix(id) && !Includes(id, "deepseek-r1") && Includes(id, "openrouter")
  {
    var id := RegistryIds[i];
    NotOpenAI(id);
    OpenRouterSuffix(i);
    NoDeepSeek(i);
  }

  lemma GeminiOpenRouterFacts(i: nat)
    requires 20 <= i < 23
    ensures var id := RegistryIds[i];
      !OpenAIPrefix(id) && !Includes(id, "deepseek-r1") && Includes(id, "openrouter")
  {
    var id := RegistryIds[i];
    MismatchExcludesPrefix(id, "gpt-", 1);
    MismatchExcludesPrefix(id, "o3", 0);
    MismatchExcludesPrefix(id, "o4-", 0);
    OpenRouterSuffix(i);
    NoDeepSeek(i);
  }

  /** The last eight ids contain "openrouter", as their suffix. */
  lemma OpenRouterSuffix(i: nat)
    requires 15 <= i < 23
    ensures Includes(RegistryIds[i], "openrouter")
  {
    if i < 17 {
      ModelsFacts.GptSuffix(i);
    } else if i < 19 {
      ModelsFacts.O4AndSonnetSuffix(i);
    } else {
      ModelsFacts.ClaudeAndGeminiSuffix(i);
    }
    SuffixTailIncluded(RegistryIds[i], "-openrouter", 1);
    assert "-openrouter"[1..] == "openrouter";
  }

  /** The ids of the OpenRouter models other than the OpenAI ones lack the 'k' of "deepseek-r1". */
  lemma NoDeepSeek(i: nat)
    requires 18 <= i < 23
    ensures !Includes(RegistryIds[i], "deepseek-r1")
  {
    if i == 18 {
      MissingCharExcludes(RegistryIds[18], "deepseek-r1", 'k');
    } else if i == 19 {
      MissingCharExcludes(RegistryIds[19], "deepseek-r1", 'k');
    } else if i == 20 {
      MissingCharExcludes(RegistryIds[20], "deepseek-r1", 'k');
    } else if i == 21 {
      MissingCharExcludes(RegistryIds[21], "deepseek-r1", 'k');
    } else {
      MissingCharExcludes(RegistryIds[22], "deepseek-r1", 'k');
    }
  }

  // ---------------------------------------------------------------------------
  // The routing the registry calls for
  // ---------------------------------------------------------------------------

  /** The rules with the OpenRouter test moved to the front, so that "-openrouter" ids reach the OpenRouter key. */
  function RoutedProviderCorrected(modelName: string): Option<Provider> {
    if Includes(modelName, "openrouter") then Some(OpenRouter)
    else if OpenAIPrefix(modelName) then Some(OpenAI)
    else if StartsWith(modelName, "claude-") then Some(Anthropic)
    else if StartsWith(modelName, "gemini-") then Some(Google)
    else if Includes(modelName, "deepseek-r1") || Includes(modelName, "llama-") then Some(Groq)
    else None
  }

  /** `getRequiredApiKeyForModel` with the corrected rule order. */
  function RequiredApiKeyForModelCorrected(modelName: string, apiKeys: Option<KeyFields>): (r: Option<string>)
    ensures apiKeys.None? ==> r.None?
    ensures r.Some? ==> apiKeys.Some? && r.value != "" && r.value in apiKeys.value.Values
  {
    if apiKeys.None? then None
    else
      match RoutedProviderCorrected(modelName)
      case None => None
      case Some(p) => KeyOrNull(apiKeys.value, p)
  }

  /** The corrected rules send every "openrouter" id to OpenRouter and agree with the original on all other ids. */
  lemma CorrectedAgreesOffOpenRouter(modelName: string)
    ensures Includes(modelName, "openrouter") ==> RoutedProviderCorrected(modelName) == Some(OpenRouter)
    ensures !Includes(modelName, "openrouter") ==> RoutedProviderCorrected(modelName) == RoutedProvider(modelName)
  {
  }

  /** With the corrected order every registry model is routed to the key of its own API. */
  lemma CorrectedRoutingMatchesApi(keys: KeyFields)
    ensures forall i | 0 <= i < |CreateModels(keys)| ::
      RoutedProviderCorrected(CreateModels(keys)[i].id) == Some(CreateModels(keys)[i].config.api)
  {
    forall i | 0 <= i < RegistrySize
      ensures RoutedProviderCorrected(ModelEntry(keys, i).id) == Some(ModelEntry(keys, i).config.api)
    {
      ModelsFacts.EntryId(keys, i);
      EntryApi(keys, i);
      var id := RegistryIds[i];
      CorrectedAgreesOffOpenRouter(id);
      if i < 15 {
        NoOpenRouter(i);
        RegistryRoute(i);
      } else {
        OpenRouterSuffix(i);
      }
    }
  }

  /** The first fifteen ids do not contain "openrouter". */
  lemma NoOpenRouter(i: nat)
    requires i < 15
    ensures !Includes(RegistryIds[i], "openrouter")
  {
    if i < 9 {
      MissingCharExcludes(RegistryIds[i], "openrouter", 'r');
    } else if i < 12 {
      MissingCharExcludes(RegistryIds[i], "openrouter", 'u');
    } else {
      MissingCharExcludes(RegistryIds[i], "openrouter", 'o');
    }
  }

  // ---------------------------------------------------------------------------
  // getTools
  // ---------------------------------------------------------------------------

  /** `toolChoice`: `type` is always "tool". */
  datatype ToolChoice = ToolChoice(kind: string, toolName: string)

  /** The object `getTools` returns: the tools by name and the forced choice. */
  datatype ToolSet = ToolSet(tools: map<string, Tool>, toolChoice: ToolChoice)

  /**
   * `getTools(model, webSearch)`: nothing for an unknown model, for a falsy
   * webSearch or for a model without a web-search tool; otherwise exactly that
   * one tool, forced by name.
   */
  function GetTools(model: string, webSearch: Option<bool>): (r: Option<ToolSet>)
    ensures r.Some? <==>
      && webSearch == Some(true)
      && Lookup(DefaultModels(), model).Some?
      && Lookup(DefaultModels(), model).value.webSearch.Some?
    ensures r.Some? ==>
      var ws := Lookup(DefaultModels(), model).value.webSearch.value;
      && r.value.tools.Keys == {r.value.toolChoice.toolName}
      && r.value.toolChoice == ToolChoice("tool", ws.name)
      && r.value.tools[ws.name] == ws.tool
  {
    match Lookup(DefaultModels(), model)
    case None => None
    case Some(config) =>
      if webSearch == Some(true) && config.webSearch.Some? then
        var ws := config.webSearch.value;
        Some(ToolSet(map[ws.name := ws.tool], ToolChoice("tool", ws.name)))
      else None
  }

  /** `models[id]` on a registry id is that id's entry. */
  lemma LookupRegistry(keys: KeyFields, i: nat)
    requires i < RegistrySize
    ensures Lookup(CreateModels(keys), RegistryIds[i]) == Some(ModelEntry(keys, i).config)
  {
    var entries := CreateModels(keys);
    ModelsFacts.RegistryShape(keys);
    ModelsFacts.RegistryIdsDistinct();
    var r := Lookup(entries, RegistryIds[i]);
    assert entries[i].id == RegistryIds[i];
    var j :| 0 <= j < |entries| && entries[j] == Entry(RegistryIds[i], r.value);
    assert Ids(entries)[j] == RegistryIds[j];
  }

  /**
   * Asked for web search, exactly the five ids of WebSearchIds get a tool, and
   * it is OpenAI's web-search preview (built without a key) under the name
   * "web_search_preview".
   */
  lemma GetToolsOnlyForWebSearchIds(model: string)
    ensures GetTools(model, Some(true)).Some? <==> model in WebSearchIds
    ensures GetTools(model, Some(true)).Some? ==>
      var t := GetTools(model, Some(true)).value;
      && t.toolChoice == ToolChoice("tool", "web_search_preview")
      && t.tools == map["web_search_preview" := WebSearchPreview(Client(OpenAI, None), "medium")]
  {
    if i :| 0 <= i < RegistrySize && RegistryIds[i] == model {
      RegistryTools(i);
    } else {
      LookupOutsideRegistry(map[], model);
      WebSearchIdsRegistered();
    }
  }

  lemma RegistryTools(i: nat)
    requires i < RegistrySize
    ensures GetTools(RegistryIds[i], Some(true)).Some? <==> RegistryIds[i] in WebSearchIds
    ensures GetTools(RegistryIds[i], Some(true)).Some? ==>
      var t := GetTools(RegistryIds[i], Some(true)).value;
      && t.toolChoice == ToolChoice("tool", "web_search_preview")
      && t.tools == map["web_search_preview" := WebSearchPreview(Client(OpenAI, None), "medium")]
  {
    if i < 5 {
      RegistryToolsWeb(i);
    } else {
      RegistryToolsPlain(i);
    }
  }

  lemma RegistryToolsWeb(i: nat)
    requires i < 5
    ensures RegistryIds[i] in WebSearchIds
    ensures GetTools(RegistryIds[i], Some(true)) ==
      Some(ToolSet(map["web_search_preview" := WebSearchPreview(Client(OpenAI, None), "medium")],
                   ToolChoice("tool", "web_search_preview")))
  {
    var keys: KeyFields := map[];
    LookupRegistry(keys, i);
    ToolsOfConfig(RegistryIds[i], ModelEntry(keys, i).config);
    WebTool(keys, i);
    WebSearchIdsRegistered();
  }

  lemma RegistryToolsPlain(i: nat)
    requires 5 <= i < RegistrySize
    ensures RegistryIds[i] !in WebSearchIds
    ensures GetTools(RegistryIds[i], Some(true)).None?
  {
    var keys: KeyFields := map[];
    LookupRegistry(keys, i);
    ToolsOfConfig(RegistryIds[i], ModelEntry(keys, i).config);
    NoWebTool(keys, i);
    NotWebSearchId(i);
  }

  lemma NotWebSearchId(i: nat)
    requires 5 <= i < RegistrySize
    ensures RegistryIds[i] !in WebSearchIds
  {
    ModelsFacts.RegistryIdsDistinct();
    WebSearchIdsRegistered();
    assert RegistryIds[i] != RegistryIds[0] && RegistryIds[i] != RegistryIds[1] && RegistryIds[i] != RegistryIds[2];
    assert RegistryIds[i] != RegistryIds[3] && RegistryIds[i] != RegistryIds[4];
  }

  /** Models after the fifth have no web-search tool. */
  lemma NoWebTool(keys: KeyFields, i: nat)
    requires 5 <= i < RegistrySize
    ensures ModelEntry(keys, i).config.webSearch.None?
  {
  }

  /** With web search on, `getTools` on a registered model is decided by the model's config alone. */
  lemma ToolsOfConfig(model: string, config: ModelConfig)
    requires Lookup(DefaultModels(), model) == Some(config)
    ensures GetTools(model, Some(true)) ==
      if config.webSearch.Some? then
        Some(ToolSet(map[config.webSearch.value.name := config.webSearch.value.tool],
                     ToolChoice("tool", config.webSearch.value.name)))
      else None
  {
  }

  /** The tool of the five web-search models: OpenAI's preview tool at medium context size. */
  lemma WebTool(keys: KeyFields, i: nat)
    requires i < 5
    ensures ModelEntry(keys, i).config.webSearch ==
      Some(WebSearch(WebSearchPreview(Client(OpenAI, KeyArgument(keys, OpenAI)), "medium"), "web_search_preview"))
  {
  }

  /** `models[id]` is undefined for an id outside the registry. */
  lemma LookupOutsideRegistry(keys: KeyFields, model: string)
    requires forall i | 0 <= i < RegistrySize :: RegistryIds[i] != model
    ensures Lookup(CreateModels(keys), model).None?
  {
    ModelsFacts.RegistryShape(keys);
    forall i | 0 <= i < RegistrySize ensures CreateModels(keys)[i].id != model {
      assert Ids(CreateModels(keys))[i] == RegistryIds[i];
    }
  }

  /** The web-search ids are the first five registry ids. */
  lemma WebSearchIdsRegistered()
    ensures WebSearchIds == {RegistryIds[0], RegistryIds[1], RegistryIds[2], RegistryIds[3], RegistryIds[4]}
  {
  }

  // ---------------------------------------------------------------------------
  // verifyAuth
  // ---------------------------------------------------------------------------

  /** What `verifyAuth` returns: the session's user id and the user row it names, if the row exists. */
  datatype Auth = Auth(sessionUserId: UserId, user: Option<UserId>)

  /** `verifyAuth(ctx, token)`: "Unauthorized" without a session; the user row may be missing. */
  function VerifyAuth(db: Db, token: string): (r: Result<Auth, Error>)
    reads db
    ensures r.Err? <==> token !in db.sessions
    ensures r.Err? ==> r.error == Unauthorized
    ensures r.Ok? ==> r.value.sessionUserId == db.sessions[token]
    ensures r.Ok? ==> (r.value.user.Some? <==> db.sessions[token] in db.users)
    ensures r.Ok? && r.value.user.Some? ==> r.value.user.value == db.sessions[token]
  {
    if token !in db.sessions then Err(Unauthorized)
    else
      var uid := db.sessions[token];
      Ok(Auth(uid, if uid in db.users then Some(uid) else None))
  }

  /** `auth.user._id`, which throws a TypeError when the user row is missing. */
  function AuthUserId(auth: Auth): (r: Result<UserId, Error>)
    ensures r.Ok? <==> auth.user.Some?
    ensures r.Ok? ==> r.value == auth.user.value
    ensures r.Err? ==> r.error == NullUser
  {
    match auth.user
    case None => Err(NullUser)
    case Some(id) => Ok(id)
  }

  /**
   * The handlers' `verifyAuth` followed by `auth.user._id`: the caller is the
   * owner of a live session whose user row exists.
   */
  lemma AuthenticatedCaller(db: Db, token: string)
    ensures var r := VerifyAuth(db, token);
      r.Ok? && AuthUserId(r.value).Ok? <==> token in db.sessions && db.sessions[token] in db.users
    ensures var r := VerifyAuth(db, token);
      r.Ok? && AuthUserId(r.value).Ok? ==> AuthUserId(r.value).value == db.sessions[token]
  {
  }

  // ---------------------------------------------------------------------------
  // encryptApiKey / decryptApiKey
  // ---------------------------------------------------------------------------

  /**
   * The foreign primitives: PBKDF2 key derivation with AES-GCM (`seal` and
   * `open`, both given the password, salt and iv), and `btoa`/`atob` over
   * the bytes as Latin-1 characters.
   */
  datatype Crypto = Crypto(
    seal: (string, seq<byte>, seq<byte>, string) -> seq<byte>,
    open: (string, seq<byte>, seq<byte>, seq<byte>) -> Option<string>,
    toBase64: seq<byte> -> string,
    fromBase64: string -> Option<seq<byte>>)

  /**
   * AES-GCM opens what it sealed under the same password, salt and iv; base64
   * decodes what it encoded, and encodes some bytes as some text.
   */
  ghost predicate Sound(c: Crypto) {
    && (forall pw, salt, iv, text :: c.open(pw, salt, iv, c.seal(pw, salt, iv, text)) == Some(text))
    && (forall bytes :: c.fromBase64(c.toBase64(bytes)) == Some(bytes))
    && (forall bytes | bytes != [] :: c.toBase64(bytes) != "")
  }

  /** `if (!process.env.API_KEY_ENCRYPTION_SECRET) throw …`: unset and empty both fail. */
  predicate SecretSet(secret: Option<string>) {
    secret.Some? && secret.value != ""
  }

  const SaltLength := 16
  const IvLength := 12

  /** The three parts of a decoded key: `slice(0, 16)`, `slice(16, 28)` and `slice(28)`. */
  datatype Frame = Frame(salt: seq<byte>, iv: seq<byte>, encrypted: seq<byte>)

  /** Cuts a combined buffer apart; a short buffer gives short parts, as `slice` clamps. */
  function SplitFrame(combined: seq<byte>): (r: Frame)
    ensures r.salt + r.iv + r.encrypted == combined
    ensures |r.salt| == if |combined| < SaltLength then |combined| else SaltLength
    ensures |combined| >= SaltLength + IvLength ==> |r.iv| == IvLength
    ensures r.encrypted == if |combined| <= SaltLength + IvLength then [] else combined[SaltLength + IvLength..]
  {
    SlicesCover(combined, SaltLength, SaltLength + IvLength);
    var r := Frame(Slice(combined, 0, SaltLength), Slice(combined, SaltLength, SaltLength + IvLength),
                   SliceFrom(combined, SaltLength + IvLength));
    r
  }

  /** Splitting `salt ‖ iv ‖ ciphertext` gives back the three parts. */
  lemma {:induction false} FrameRoundTrip(salt: seq<byte>, iv: seq<byte>, encrypted: seq<byte>)
    requires |salt| == SaltLength && |iv| == IvLength
    ensures SplitFrame(salt + iv + encrypted) == Frame(salt, iv, encrypted)
  {
    var combined := salt + iv + encrypted;
    assert combined[..SaltLength] == salt;
    assert combined[SaltLength..SaltLength + IvLength] == iv;
    assert combined[SaltLength + IvLength..] == encrypted;
  }

  /** `dst.set(src, offset)`: src is copied over dst from offset on, the rest of dst kept. */
  method CopyInto(dst: array<byte>, src: array<byte>, offset: nat)
    requires offset + src.Length <= dst.Length && dst != src
    modifies dst
    ensures forall k :: 0 <= k < dst.Length ==>
      dst[k] == if offset <= k < offset + src.Length then src[k - offset] else old(dst[k])
  {
    var i := 0;
    while i < src.Length
      invariant 0 <= i <= src.Length
      invariant forall k :: 0 <= k < dst.Length ==>
        dst[k] == if offset <= k < offset + i then src[k - offset] else old(dst[k])
    {
      dst[offset + i] := src[i];
      i := i + 1;
    }
  }

  /** The buffer of `encryptApiKey`: a new array of the summed length, filled by three `set` calls. */
  method FrameBytes(salt: array<byte>, iv: array<byte>, encrypted: array<byte>) returns (combined: array<byte>)
    ensures combined[..] == salt[..] + iv[..] + encrypted[..]
  {
    combined := new byte[salt.Length + iv.Length + encrypted.Length];
    CopyInto(combined, salt, 0);
    CopyInto(combined, iv, salt.Length);
    CopyInto(combined, encrypted, salt.Length + iv.Length);
    assert combined[..] == salt[..] + iv[..] + encrypted[..] by {
      forall k | 0 <= k < combined.Length
        ensures combined[k] == (salt[..] + iv[..] + encrypted[..])[k]
      {
      }
    }
  }

  /** What `encryptApiKey(apiKey)` produces with the given random salt and iv. */
  function Encrypted(secret: Option<string>, crypto: Crypto, apiKey: string, salt: seq<byte>, iv: seq<byte>)
    : (r: Result<string, Error>)
    ensures r.Err? <==> !SecretSet(secret)
    ensures r.Err? ==> r.error == SecretNotSet
    ensures r.Ok? ==> exists combined :: r.value == crypto.toBase64(combined) && salt + iv <= combined
  {
    if !SecretSet(secret) then Err(SecretNotSet)
    else
      var combined := salt + iv + crypto.seal(secret.value, salt, iv, apiKey);
      assert salt + iv <= combined;
      Ok(crypto.toBase64(combined))
  }

  /**
   * `encryptApiKey(apiKey)`: the secret is checked first; the salt and iv are the
   * values `crypto.getRandomValues` filled in, passed in here.
   */
  method EncryptApiKey(secret: Option<string>, crypto: Crypto, apiKey: string, salt: array<byte>, iv: array<byte>)
    returns (r: Result<string, Error>)
    requires salt.Length == SaltLength && iv.Length == IvLength
    ensures r == Encrypted(secret, crypto, apiKey, salt[..], iv[..])
  {
    if secret.None? || secret.value == "" {
      return Err(SecretNotSet);
    }
    var sealed := crypto.seal(secret.value, salt[..], iv[..], apiKey);
    var encrypted := new byte[|sealed|](k requires 0 <= k < |sealed| => sealed[k]);
    assert encrypted[..] == sealed;
    var combined := FrameBytes(salt, iv, encrypted);
    return Ok(crypto.toBase64(combined[..]));
  }

  /** `decryptApiKey(stored)`: the secret check, then `atob`, then the split and AES-GCM. */
  function DecryptApiKey(secret: Option<string>, crypto: Crypto, stored: string): (r: Result<string, Error>)
    ensures !SecretSet(secret) ==> r == Err(SecretNotSet)
    ensures SecretSet(secret) && crypto.fromBase64(stored).None? ==> r == Err(MalformedBase64)
    ensures r.Ok? ==> SecretSet(secret) && crypto.fromBase64(stored).Some?
    ensures r.Ok? ==> var f := SplitFrame(crypto.fromBase64(stored).value);
      crypto.open(secret.value, f.salt, f.iv, f.encrypted) == Some(r.value)
    ensures SecretSet(secret) && crypto.fromBase64(stored).Some? ==>
      var f := SplitFrame(crypto.fromBase64(stored).value);
      && (crypto.open(secret.value, f.salt, f.iv, f.encrypted).None? ==> r == Err(DecryptionFailed))
      && (crypto.open(secret.value, f.salt, f.iv, f.encrypted).Some? ==>
            r == Ok(crypto.open(secret.value, f.salt, f.iv, f.encrypted).value))
  {
    if !SecretSet(secret) then Err(SecretNotSet)
    else
      match crypto.fromBase64(stored)
      case None => Err(MalformedBase64)
      case Some(combined) =>
        var f := SplitFrame(combined);
        match crypto.open(secret.value, f.salt, f.iv, f.encrypted)
        case None => Err(DecryptionFailed)
        case Some(text) => Ok(text)
  }

  /** Decrypting what was encrypted under the same secret gives the key back; without a secret both fail alike. */
  lemma DecryptAfterEncrypt(secret: Option<string>, crypto: Crypto, apiKey: string, salt: seq<byte>, iv: seq<byte>)
    requires Sound(crypto) && |salt| == SaltLength && |iv| == IvLength
    ensures var e := Encrypted(secret, crypto, apiKey, salt, iv);
      e.Ok? ==> DecryptApiKey(secret, crypto, e.value) == Ok(apiKey)
    ensures !SecretSet(secret) ==> Encrypted(secret, crypto, apiKey, salt, iv) == Err(SecretNotSet)
  {
    if SecretSet(secret) {
      var sealed := crypto.seal(secret.value, salt, iv, apiKey);
      FrameRoundTrip(salt, iv, sealed);
      assert crypto.fromBase64(crypto.toBase64(salt + iv + sealed)) == Some(salt + iv + sealed);
    }
  }
}
