/** What the registry of models.ts promises, checked entry by entry. */
module ModelsFacts {
  import opened Common
  import opened Schema
  import opened JsString
  import opened Models

  /**
   * Whatever keys it is built with, the registry holds the same 23 ids, in the
   * order of RegistryIds.
   */
  lemma RegistryShape(keys: KeyFields)
    ensures Ids(CreateModels(keys)) == RegistryIds
    ensures |CreateModels(keys)| == 23
  {
    forall i | 0 <= i < RegistrySize ensures ModelEntry(keys, i).id == RegistryIds[i] {
      EntryId(keys, i);
    }
  }

  lemma EntryId(keys: KeyFields, i: nat)
    requires i < RegistrySize
    ensures ModelEntry(keys, i).id == RegistryIds[i]
  {
  }

  /** No id appears twice. */
  lemma RegistryIdsDistinct()
    ensures forall i, j :: 0 <= i < j < |RegistryIds| ==> RegistryIds[i] != RegistryIds[j]
  {
  }

  /** Each model's client, and its web-search tool's client, is built with the key of the model's own API. */
  lemma ClientsUseOwnKey(keys: KeyFields)
    ensures forall i | 0 <= i < |CreateModels(keys)| ::
      var c := CreateModels(keys)[i].config;
      && c.model.client == Client(c.api, KeyArgument(keys, c.api))
      && (c.webSearch.Some? ==> c.webSearch.value.tool.client == Client(OpenAI, KeyArgument(keys, OpenAI)))
  {
    forall i | 0 <= i < RegistrySize
      ensures var c := ModelEntry(keys, i).config;
        && c.model.client == Client(c.api, KeyArgument(keys, c.api))
        && (c.webSearch.Some? ==> c.webSearch.value.tool.client == Client(OpenAI, KeyArgument(keys, OpenAI)))
    {
      EntryClient(keys, i);
    }
  }

  lemma EntryClient(keys: KeyFields, i: nat)
    requires i < RegistrySize
    ensures var c := ModelEntry(keys, i).config;
      && c.model.client == Client(c.api, KeyArgument(keys, c.api))
      && (c.webSearch.Some? ==> c.webSearch.value.tool.client == Client(OpenAI, KeyArgument(keys, OpenAI)))
  {
  }

  /** An id has the OpenRouter badge exactly when it ends in "-openrouter". */
  lemma OpenRouterBadgeIffSuffix(keys: KeyFields)
    ensures forall i | 0 <= i < |CreateModels(keys)| ::
      var e := CreateModels(keys)[i];
      e.config.api == OpenRouter <==> EndsWith(e.id, "-openrouter")
  {
    forall i | 0 <= i < RegistrySize
      ensures var e := ModelEntry(keys, i);
        e.config.api == OpenRouter <==> EndsWith(e.id, "-openrouter")
    {
      EntryBadge(keys, i);
      if i < 15 {
        EntryLastChar(keys, i);
        LastCharExcludesSuffix(ModelEntry(keys, i).id, "-openrouter");
      } else {
        EntrySuffix(keys, i);
      }
    }
  }

  /** The OpenRouter properties are the last eight of the literal. */
  lemma EntryBadge(keys: KeyFields, i: nat)
    requires i < RegistrySize
    ensures ModelEntry(keys, i).config.api == OpenRouter <==> 15 <= i
  {
  }

  lemma EntrySuffix(keys: KeyFields, i: nat)
    requires 15 <= i < RegistrySize
    ensures EndsWith(ModelEntry(keys, i).id, "-openrouter")
  {
    EntryId(keys, i);
    if i < 17 {
      GptSuffix(i);
    } else if i < 19 {
      O4AndSonnetSuffix(i);
    } else {
      ClaudeAndGeminiSuffix(i);
    }
  }

  // The eight suffix checks, in three groups so that each proof stays small.
  lemma GptSuffix(i: nat)
    requires 15 <= i < 17
    ensures EndsWith(RegistryIds[i], "-openrouter")
  {
  }

  lemma O4AndSonnetSuffix(i: nat)
    requires 17 <= i < 19
    ensures EndsWith(RegistryIds[i], "-openrouter")
  {
  }

  lemma ClaudeAndGeminiSuffix(i: nat)
    requires 19 <= i < 23
    ensures EndsWith(RegistryIds[i], "-openrouter")
  {
  }

  lemma EntryLastChar(keys: KeyFields, i: nat)
    requires i < 15
    ensures var id := ModelEntry(keys, i).id; |id| > 0 && id[|id| - 1] != 'r'
  {
  }

  /** Web search is offered by the GPT-5 and GPT-4.1 families only, always as "web_search_preview". */
  lemma WebSearchOnlyOnFive(keys: KeyFields)
    ensures forall i | 0 <= i < |CreateModels(keys)| ::
      var e := CreateModels(keys)[i];
      (e.config.webSearch.Some? <==> e.id in WebSearchIds) &&
      (e.config.webSearch.Some? ==> e.config.webSearch.value.name == "web_search_preview")
  {
    forall i | 0 <= i < RegistrySize
      ensures var e := ModelEntry(keys, i);
        (e.config.webSearch.Some? <==> e.id in WebSearchIds) &&
        (e.config.webSearch.Some? ==> e.config.webSearch.value.name == "web_search_preview")
    {
      EntryWebSearch(keys, i);
    }
  }

  lemma EntryWebSearch(keys: KeyFields, i: nat)
    requires i < RegistrySize
    ensures var e := ModelEntry(keys, i);
      (e.config.webSearch.Some? <==> e.id in WebSearchIds) &&
      (e.config.webSearch.Some? ==> e.config.webSearch.value.name == "web_search_preview")
  {
  }

  /**
   * Outside OpenRouter the maker's label and the API badge agree, except for the
   * models Groq serves: DeepSeek R1 (made by DeepSeek) and the two Llama models (Meta).
   */
  lemma ProviderAndApiDiffer(keys: KeyFields)
    ensures forall i | 0 <= i < |CreateModels(keys)| && CreateModels(keys)[i].config.api != OpenRouter ::
      var e := CreateModels(keys)[i];
      e.config.provider.Label() != e.config.api.Badge() <==> e.config.api == Groq
    ensures forall i | 0 <= i < |CreateModels(keys)| && CreateModels(keys)[i].config.api == Groq ::
      var e := CreateModels(keys)[i];
      && e.id in {"deepseek-r1", "llama-4-maverick", "llama-3.1-8b"}
      && e.config.provider == (if e.id == "deepseek-r1" then ByDeepSeek else ByMeta)
  {
    forall i | 0 <= i < RegistrySize
      ensures var e := ModelEntry(keys, i);
        && (e.config.api != OpenRouter ==> (e.config.provider.Label() != e.config.api.Badge() <==> e.config.api == Groq))
        && (e.config.api == Groq ==>
              && e.id in {"deepseek-r1", "llama-4-maverick", "llama-3.1-8b"}
              && e.config.provider == (if e.id == "deepseek-r1" then ByDeepSeek else ByMeta))
    {
      EntryProvider(keys, i);
    }
  }

  lemma EntryProvider(keys: KeyFields, i: nat)
    requires i < RegistrySize
    ensures var e := ModelEntry(keys, i);
      && (e.config.api != OpenRouter ==> (e.config.provider.Label() != e.config.api.Badge() <==> e.config.api == Groq))
      && (e.config.api == Groq ==>
            && e.id in {"deepseek-r1", "llama-4-maverick", "llama-3.1-8b"}
            && e.config.provider == (if e.id == "deepseek-r1" then ByDeepSeek else ByMeta))
  {
  }
}
