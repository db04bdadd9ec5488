/** The catalogue of AI providers and their models, with the capability filters and the
    lookups by id that the rest of the application uses. */
module AiProviders {
  import opened Wrappers
  import Seqs

  datatype ModelType = Speech | Text

  /** `costPer1k` is in hundredths of a US cent per thousand tokens (the catalogue's 0.6
      cents is 60 here), so that every listed price is a whole number. */
  datatype AiModel = AiModel(
    id: string,
    name: string,
    description: string,
    modelType: ModelType,
    maxTokens: Option<nat>,
    costPer1k: Option<nat>)

  datatype AiProvider = AiProvider(
    id: string,
    name: string,
    description: string,
    isFree: bool,
    supportsSpeech: bool,
    supportsText: bool,
    models: seq<AiModel>,
    apiKeyRequired: bool,
    website: Option<string>)

  const OpenAI: AiProvider := AiProvider(
    "openai", "OpenAI", "最流行的AI服务，包括GPT和Whisper",
    false, true, true,
    [ AiModel("whisper-1", "Whisper", "语音转文字模型", Speech, None, Some(60)),
      AiModel("gpt-3.5-turbo", "GPT-3.5 Turbo", "快速且经济的文本生成模型", Text, Some(4096), Some(50)),
      AiModel("gpt-4", "GPT-4", "最强大的文本生成模型", Text, Some(8192), Some(300)),
      AiModel("gpt-4-turbo", "GPT-4 Turbo", "更快的GPT-4版本", Text, Some(128000), Some(100)) ],
    true, Some("https://openai.com"))

  const Anthropic: AiProvider := AiProvider(
    "anthropic", "Anthropic Claude", "Claude系列模型，擅长对话和分析",
    false, false, true,
    [ AiModel("claude-3-haiku", "Claude 3 Haiku", "快速且经济的模型", Text, Some(200000), Some(25)),
      AiModel("claude-3-sonnet", "Claude 3 Sonnet", "平衡性能和成本", Text, Some(200000), Some(300)),
      AiModel("claude-3-opus", "Claude 3 Opus", "最强大的Claude模型", Text, Some(200000), Some(1500)) ],
    true, Some("https://anthropic.com"))

  const Google: AiProvider := AiProvider(
    "google", "Google Gemini", "Google的多模态AI模型",
    true, false, true,
    [ AiModel("gemini-pro", "Gemini Pro", "免费的高性能文本模型", Text, Some(32768), Some(0)),
      AiModel("gemini-pro-vision", "Gemini Pro Vision", "支持图像的多模态模型", Text, Some(16384), Some(0)) ],
    true, Some("https://ai.google.dev"))

  const DeepSeek: AiProvider := AiProvider(
    "deepseek", "DeepSeek", "国产优秀AI模型，性价比极高",
    false, false, true,
    [ AiModel("deepseek-chat", "DeepSeek Chat", "对话优化模型", Text, Some(32768), Some(14)),
      AiModel("deepseek-coder", "DeepSeek Coder", "代码生成专用模型", Text, Some(16384), Some(14)) ],
    true, Some("https://deepseek.com"))

  const Zhipu: AiProvider := AiProvider(
    "zhipu", "智谱AI (GLM)", "清华系AI公司，中文能力强",
    false, false, true,
    [ AiModel("glm-4", "GLM-4", "最新一代GLM模型", Text, Some(128000), Some(1000)),
      AiModel("glm-3-turbo", "GLM-3 Turbo", "快速版GLM模型", Text, Some(128000), Some(50)) ],
    true, Some("https://zhipuai.cn"))

  const Moonshot: AiProvider := AiProvider(
    "moonshot", "Moonshot AI (Kimi)", "月之暗面，超长上下文模型",
    false, false, true,
    [ AiModel("moonshot-v1-8k", "Moonshot v1 8K", "8K上下文模型", Text, Some(8192), Some(120)),
      AiModel("moonshot-v1-32k", "Moonshot v1 32K", "32K上下文模型", Text, Some(32768), Some(240)),
      AiModel("moonshot-v1-128k", "Moonshot v1 128K", "128K超长上下文模型", Text, Some(131072), Some(506)) ],
    true, Some("https://moonshot.cn"))

  const BrowserSpeech: AiProvider := AiProvider(
    "browser-speech", "浏览器语音识别", "使用浏览器内置的语音识别API，完全免费",
    true, true, false,
    [ AiModel("browser-speech-api", "浏览器语音API", "基于Web Speech API的免费语音识别", Speech, None, Some(0)) ],
    false, None)

  const Ollama: AiProvider := AiProvider(
    "ollama", "Ollama (本地)", "在本地运行开源模型，完全免费",
    true, false, true,
    [ AiModel("llama2", "Llama 2", "Meta开源模型", Text, Some(4096), Some(0)),
      AiModel("mistral", "Mistral", "高效的开源模型", Text, Some(8192), Some(0)),
      AiModel("qwen", "Qwen", "阿里开源中文模型", Text, Some(8192), Some(0)) ],
    false, Some("https://ollama.ai"))

  /** `AI_PROVIDERS`, in catalogue order. */
  const Catalogue: seq<AiProvider> :=
    [OpenAI, Anthropic, Google, DeepSeek, Zhipu, Moonshot, BrowserSpeech, Ollama]

  predicate IsFreeProvider(p: AiProvider) { p.isFree }
  predicate IsSpeechProvider(p: AiProvider) { p.supportsSpeech }
  predicate IsTextProvider(p: AiProvider) { p.supportsText }
  predicate NeedsApiKey(p: AiProvider) { p.apiKeyRequired }

  function GetFreeProviders(): seq<AiProvider> {
    Seqs.Filter(Catalogue, IsFreeProvider)
  }

  function GetSpeechProviders(): seq<AiProvider> {
    Seqs.Filter(Catalogue, IsSpeechProvider)
  }

  function GetTextProviders(): seq<AiProvider> {
    Seqs.Filter(Catalogue, IsTextProvider)
  }

  /** The free providers, in catalogue order. */
  lemma FreeProviders()
    ensures GetFreeProviders() == [Google, BrowserSpeech, Ollama]
  {
    Seqs.FilterEight(OpenAI, Anthropic, Google, DeepSeek, Zhipu, Moonshot, BrowserSpeech, Ollama, IsFreeProvider);
  }

  /** The text providers: everything but the browser recogniser. */
  lemma TextProviders()
    ensures GetTextProviders() == [OpenAI, Anthropic, Google, DeepSeek, Zhipu, Moonshot, Ollama]
  {
    Seqs.FilterEight(OpenAI, Anthropic, Google, DeepSeek, Zhipu, Moonshot, BrowserSpeech, Ollama, IsTextProvider);
  }

  /** The speech providers, in catalogue order. */
  lemma SpeechProviders()
    ensures GetSpeechProviders() == [OpenAI, BrowserSpeech]
  {
    Seqs.FilterEight(OpenAI, Anthropic, Google, DeepSeek, Zhipu, Moonshot, BrowserSpeech, Ollama, IsSpeechProvider);
  }

  /** The providers that need an API key: all but the browser recogniser and Ollama. */
  lemma KeyedProviders()
    ensures Seqs.Filter(Catalogue, NeedsApiKey) == [OpenAI, Anthropic, Google, DeepSeek, Zhipu, Moonshot]
  {
    Seqs.FilterEight(OpenAI, Anthropic, Google, DeepSeek, Zhipu, Moonshot, BrowserSpeech, Ollama, NeedsApiKey);
  }

  /** `ps.find(p => p.id === id)` */
  function FindProvider(ps: seq<AiProvider>, id: string): (r: Option<AiProvider>)
    ensures r.None? <==> forall p :: p in ps ==> p.id != id
    ensures r.Some? ==> r.value in ps && r.value.id == id
  {
    if ps == [] then None
    else if ps[0].id == id then Some(ps[0])
    else FindProvider(ps[1..], id)
  }

  /** `find` answers with the first provider carrying the id. */
  lemma {:induction false} FindProviderFirst(ps: seq<AiProvider>, id: string, i: nat)
    requires i < |ps| && ps[i].id == id
    requires forall j :: 0 <= j < i ==> ps[j].id != id
    ensures FindProvider(ps, id) == Some(ps[i])
  {
    if i > 0 {
      FindProviderFirst(ps[1..], id, i - 1);
    }
  }

  /** `models.find(m => m.id === id)` */
  function FindModel(ms: seq<AiModel>, id: string): (r: Option<AiModel>)
    ensures r.None? <==> forall m :: m in ms ==> m.id != id
    ensures r.Some? ==> r.value in ms && r.value.id == id
  {
    if ms == [] then None
    else if ms[0].id == id then Some(ms[0])
    else FindModel(ms[1..], id)
  }

  lemma {:induction false} FindModelFirst(ms: seq<AiModel>, id: string, i: nat)
    requires i < |ms| && ms[i].id == id
    requires forall j :: 0 <= j < i ==> ms[j].id != id
    ensures FindModel(ms, id) == Some(ms[i])
  {
    if i > 0 {
      FindModelFirst(ms[1..], id, i - 1);
    }
  }

  /** `getProviderById(id)`: a provider with that id, or `undefined` exactly when the
      catalogue has none. */
  function GetProviderById(id: string): (r: Option<AiProvider>)
    ensures r.None? <==> forall p :: p in Catalogue ==> p.id != id
    ensures r.Some? ==> r.value in Catalogue && r.value.id == id
  {
    FindProvider(Catalogue, id)
  }

  /** `getModelById(providerId, modelId)`: `undefined` when the provider is unknown or has no
      such model; otherwise one of that provider's models, carrying the id asked for. */
  function GetModelById(providerId: string, modelId: string): (r: Option<AiModel>)
    ensures r.None? <==>
      GetProviderById(providerId).None? ||
      forall m :: m in GetProviderById(providerId).value.models ==> m.id != modelId
    ensures r.Some? ==>
      GetProviderById(providerId).Some? &&
      r.value in GetProviderById(providerId).value.models && r.value.id == modelId
  {
    match GetProviderById(providerId)
    case None => None
    case Some(p) => FindModel(p.models, modelId)
  }

  predicate DistinctProviderIds(ps: seq<AiProvider>) {
    forall i, j :: 0 <= i < j < |ps| ==> ps[i].id != ps[j].id
  }

  predicate DistinctModelIds(ms: seq<AiModel>) {
    forall i, j :: 0 <= i < j < |ms| ==> ms[i].id != ms[j].id
  }

  /** A model's type is one its provider offers. */
  predicate ModelTypesAgree(p: AiProvider) {
    forall m :: m in p.models ==>
      (m.modelType == Speech ==> p.supportsSpeech) && (m.modelType == Text ==> p.supportsText)
  }

  /** Provider ids are pairwise distinct. */
  lemma CatalogueIdsDistinct()
    ensures DistinctProviderIds(Catalogue)
  {
  }

  /** Model ids are distinct within each provider. */
  lemma CatalogueModelIdsDistinct()
    ensures forall i :: 0 <= i < |Catalogue| ==> DistinctModelIds(Catalogue[i].models)
  {
    forall i | 0 <= i < |Catalogue|
      ensures DistinctModelIds(Catalogue[i].models)
    {
      var ms := Catalogue[i].models;
      assert |ms| <= 4;
    }
  }

  /** A speech model belongs to a speech provider, a text model to a text provider. */
  lemma CatalogueModelTypesAgree()
    ensures forall p :: p in Catalogue ==> ModelTypesAgree(p)
  {
  }

  /** The providers that need no key (the browser recogniser and Ollama) are all free. */
  lemma KeylessProvidersAreFree()
    ensures forall p :: p in Catalogue && !p.apiKeyRequired ==> p.isFree
    ensures forall p :: p in Catalogue && !p.apiKeyRequired ==> p == BrowserSpeech || p == Ollama
  {
  }

  /** With distinct ids, looking up a catalogue provider's id finds that provider. */
  lemma LookupFindsCatalogueEntry(i: nat)
    requires i < |Catalogue|
    ensures GetProviderById(Catalogue[i].id) == Some(Catalogue[i])
  {
    CatalogueIdsDistinct();
    FindProviderFirst(Catalogue, Catalogue[i].id, i);
  }

  /** The ids `getProviderById` knows. */
  lemma KnownProviderIds(id: string)
    ensures GetProviderById(id).Some? <==>
      id in {"openai", "anthropic", "google", "deepseek", "zhipu", "moonshot", "browser-speech", "ollama"}
  {
  }
}
