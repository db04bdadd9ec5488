/** Text structuring: choosing the text-generation service from the user's settings, and
    turning the model's reply into the task payload (fence stripping, parsing, the shape
    check). The services' HTTP calls are the parameter `generate`; `JSON.parse` is the
    parameter `parse`; `getApiKey` answers what the key lookup of the settings store returns. */
module TextService {
  import opened Wrappers
  import opened Strings
  import opened Json
  import AiProviders
  import UserSettings

  /** The service objects `createAIService` builds: each holds its key and model. */
  datatype Service =
    | OpenAIService(apiKey: string, model: string)
    | GeminiService(apiKey: string, model: string)
    | ClaudeService(apiKey: string, model: string)
    | DeepSeekService(apiKey: string, model: string)
    | GLMService(apiKey: string, model: string)
    | MoonshotService(apiKey: string, model: string)
    | OllamaService(model: string)

  datatype TextError =
    | ProviderNotFound
    | MissingApiKey(providerName: string)
    | UnsupportedService
    | Upstream(message: string)
    | InvalidJson(message: string)
    | BadFormat
    | NullAccess

  /** The message each thrown error carries; upstream and parse errors keep their own. */
  function Message(e: TextError): string {
    match e
    case ProviderNotFound => "未找到文本生成提供商"
    case MissingApiKey(name) => "请先配置 " + name + " API 密钥"
    case UnsupportedService => "不支持的文本生成服务"
    case Upstream(m) => m
    case InvalidJson(m) => m
    case BadFormat => "AI 返回的数据格式不正确"
    case NullAccess => "Cannot read properties of null (reading 'tasks')"
  }

  /** The providers `createAIService` has a keyed case for. */
  predicate KeyedProvider(id: string) {
    id in {"openai", "google", "anthropic", "deepseek", "zhipu", "moonshot"}
  }

  /** The name used in the missing-key message. */
  function KeyLabel(id: string): string
    requires KeyedProvider(id)
  {
    match id
    case "openai" => "OpenAI"
    case "google" => "Google"
    case "anthropic" => "Anthropic"
    case "deepseek" => "DeepSeek"
    case "zhipu" => "智谱AI"
    case _ => "Moonshot"
  }

  /** The missing-key message names each keyed provider as the source's six cases do, and
      no two keyed providers share a name, so the message tells which key is missing. */
  lemma KeyLabels()
    ensures KeyLabel("openai") == "OpenAI" && KeyLabel("google") == "Google"
    ensures KeyLabel("anthropic") == "Anthropic" && KeyLabel("deepseek") == "DeepSeek"
    ensures KeyLabel("zhipu") == "智谱AI" && KeyLabel("moonshot") == "Moonshot"
    ensures forall a, b :: KeyedProvider(a) && KeyedProvider(b) && a != b ==> KeyLabel(a) != KeyLabel(b)
  {
  }

  /** The provider id a service belongs to. */
  function ProviderOf(s: Service): string {
    match s
    case OpenAIService(_, _) => "openai"
    case GeminiService(_, _) => "google"
    case ClaudeService(_, _) => "anthropic"
    case DeepSeekService(_, _) => "deepseek"
    case GLMService(_, _) => "zhipu"
    case MoonshotService(_, _) => "moonshot"
    case OllamaService(_) => "ollama"
  }

  /** A key the `if (!key)` test accepts: present and not the empty string. */
  predicate Usable(key: Option<string>) {
    key.Some? && key.value != ""
  }

  /** The service for a keyed provider, given a usable key. */
  function KeyedService(id: string, key: string, model: string): (s: Service)
    requires KeyedProvider(id)
    ensures ProviderOf(s) == id && !s.OllamaService? && s.apiKey == key && s.model == model
  {
    match id
    case "openai" => OpenAIService(key, model)
    case "google" => GeminiService(key, model)
    case "anthropic" => ClaudeService(key, model)
    case "deepseek" => DeepSeekService(key, model)
    case "zhipu" => GLMService(key, model)
    case _ => MoonshotService(key, model)
  }

  /** `createAIService`: the checks come in a fixed order: an id the catalogue does not
      know, then a missing key for a keyed provider, then a catalogue provider without a
      case. Ollama asks for no key. The model is always the settings' `text_model`. */
  function CreateAIService(settings: UserSettings.Settings, getApiKey: string -> Option<string>): (r: Result<Service, TextError>)
    ensures r == Failure(ProviderNotFound) <==> AiProviders.GetProviderById(settings.prefs.textProvider).None?
    ensures r.Failure? && r.error.MissingApiKey? <==>
      AiProviders.GetProviderById(settings.prefs.textProvider).Some? &&
      KeyedProvider(settings.prefs.textProvider) && !Usable(getApiKey(settings.prefs.textProvider))
    ensures r == Failure(UnsupportedService) <==>
      AiProviders.GetProviderById(settings.prefs.textProvider).Some? &&
      !KeyedProvider(settings.prefs.textProvider) && settings.prefs.textProvider != "ollama"
    ensures r.Success? ==>
      ProviderOf(r.value) == settings.prefs.textProvider &&
      r.value.model == settings.prefs.textModel &&
      (!r.value.OllamaService? ==> Some(r.value.apiKey) == getApiKey(settings.prefs.textProvider))
    ensures r.Success? <==>
      AiProviders.GetProviderById(settings.prefs.textProvider).Some? &&
      ((KeyedProvider(settings.prefs.textProvider) && Usable(getApiKey(settings.prefs.textProvider))) ||
       settings.prefs.textProvider == "ollama")
    ensures (r.Success? && KeyedProvider(settings.prefs.textProvider)) ==>
      r.value == KeyedService(settings.prefs.textProvider, getApiKey(settings.prefs.textProvider).value,
                              settings.prefs.textModel)
    ensures (r.Success? && !KeyedProvider(settings.prefs.textProvider)) ==>
      r.value == OllamaService(settings.prefs.textModel)
    ensures (r.Failure? && r.error.MissingApiKey?) ==>
      KeyedProvider(settings.prefs.textProvider) && r.error.providerName == KeyLabel(settings.prefs.textProvider)
  {
    var id := settings.prefs.textProvider;
    if AiProviders.GetProviderById(id).None? then Failure(ProviderNotFound)
    else if KeyedProvider(id) then
      var key := getApiKey(id);
      if !Usable(key) then Failure(MissingApiKey(KeyLabel(id)))
      else Success(KeyedService(id, key.value, settings.prefs.textModel))
    else if id == "ollama" then Success(OllamaService(settings.prefs.textModel))
    else Failure(UnsupportedService)
  }

  /** The only catalogue provider without a text service is the browser recogniser. */
  lemma UnsupportedIsBrowserSpeech(settings: UserSettings.Settings, getApiKey: string -> Option<string>)
    ensures CreateAIService(settings, getApiKey) == Failure(UnsupportedService) <==>
      settings.prefs.textProvider == "browser-speech"
  {
    AiProviders.KnownProviderIds(settings.prefs.textProvider);
  }

  /** With the default settings the service is Gemini, provided a Google key is stored. */
  lemma DefaultSettingsUseGemini(userId: string, getApiKey: string -> Option<string>)
    ensures Usable(getApiKey("google")) ==>
      CreateAIService(UserSettings.Defaults(userId), getApiKey) ==
        Success(GeminiService(getApiKey("google").value, "gemini-pro"))
    ensures !Usable(getApiKey("google")) ==>
      CreateAIService(UserSettings.Defaults(userId), getApiKey) == Failure(MissingApiKey("Google"))
  {
    AiProviders.KnownProviderIds("google");
  }

  // Cleaning the reply

  /** `s.replace(/^```json\s*\/, '')` on a string that starts with "```json". */
  function DropJsonFence(s: string): string
    requires StartsWith(s, "```json")
  {
    TrimStart(s[7..])
  }

  /** `s.replace(/^```\s*\/, '')` on a string that starts with "```". */
  function DropOpenFence(s: string): string
    requires StartsWith(s, "```")
  {
    TrimStart(s[3..])
  }

  /** `s.replace(/\s*```$/, '')` on a string that ends with "```": the leftmost match of
      the pattern starts where the whitespace run in front of the final three backticks
      starts. */
  function DropCloseFence(s: string): string
    requires EndsWith(s, "```")
  {
    TrimEnd(s[..|s| - 3])
  }

  function StripJsonFence(s: string): string {
    if StartsWith(s, "```json") then DropJsonFence(s) else s
  }

  function StripOpenFence(s: string): string {
    if StartsWith(s, "```") then DropOpenFence(s) else s
  }

  function StripCloseFence(s: string): string {
    if EndsWith(s, "```") then DropCloseFence(s) else s
  }

  /** The cleaned reply, as a composition of the steps. */
  function Cleaned(response: string): string {
    Trim(StripCloseFence(StripOpenFence(StripJsonFence(Trim(response)))))
  }

  /** The cleaning of `structurizeText`, reassigning the reply step by step. */
  method CleanResponse(response: string) returns (clean: string)
    ensures clean == Cleaned(response)
  {
    clean := Trim(response);
    if StartsWith(clean, "```json") {
      clean := DropJsonFence(clean);
    }
    if StartsWith(clean, "```") {
      clean := DropOpenFence(clean);
    }
    if EndsWith(clean, "```") {
      clean := DropCloseFence(clean);
    }
    clean := Trim(clean);
  }

  /** A prefix of a string without leading whitespace is left a prefix by `trim`. */
  lemma TrimOfPrefix(t: string, x: string)
    requires t == [] || !IsWhitespace(t[0])
    requires |x| <= |t| && x == t[..|x|]
    ensures |Trim(x)| <= |t| && Trim(x) == t[..|Trim(x)|]
  {
    if x != [] {
      assert x[0] == t[0];
      TrimStartOfTrimmed(x);
    }
  }

  /** Something that does not open with "```" does not open with "```json" either. */
  lemma NoFenceNoJsonFence(t: string)
    requires !StartsWith(t, "```")
    ensures !StartsWith(t, "```json")
  {
    if |t| >= 7 {
      assert t[..3] == t[..7][..3];
    }
  }

  /** If the trimmed reply does not open with a fence, cleaning only cuts at the end: the
      text in front of a later fence is never stripped. */
  lemma UnfencedReplyKeepsItsStart(response: string)
    requires !StartsWith(Trim(response), "```")
    ensures |Cleaned(response)| <= |Trim(response)|
    ensures Cleaned(response) == Trim(response)[..|Cleaned(response)|]
  {
    var t := Trim(response);
    TrimIsTrimmed(response);
    NoFenceNoJsonFence(t);
    assert StripOpenFence(StripJsonFence(t)) == t;
    var c := StripCloseFence(t);
    assert |c| <= |t| && c == t[..|c|] by {
      if EndsWith(t, "```") {
        var u := t[..|t| - 3];
        assert c == TrimEnd(u);
        assert c == u[..|c|];
      }
    }
    assert Cleaned(response) == Trim(c);
    TrimOfPrefix(t, c);
  }

  /** A reply with no fence at either end is only trimmed. */
  lemma UnfencedReplyIsTrimmed(response: string)
    requires !StartsWith(Trim(response), "```") && !EndsWith(Trim(response), "```")
    ensures Cleaned(response) == Trim(response)
  {
    var t := Trim(response);
    TrimIsTrimmed(response);
    NoFenceNoJsonFence(t);
    assert StripCloseFence(StripOpenFence(StripJsonFence(t))) == t;
    TrimStartOfTrimmed(t);
    TrimEndOfTrimmed(t);
  }

  predicate AllWhitespace(s: string) {
    forall i :: 0 <= i < |s| ==> IsWhitespace(s[i])
  }

  lemma StripJsonFenceOf(ws: string, body: string)
    requires AllWhitespace(ws) && body != [] && !IsWhitespace(body[0])
    ensures StripJsonFence("```json" + ws + body) == body
  {
    var s := "```json" + ws + body;
    assert s[..7] == "```json";
    assert s[7..] == ws + body;
    TrimStartPrefix(ws, body);
  }

  lemma StripOpenFenceOf(ws: string, body: string)
    requires AllWhitespace(ws) && body != [] && !IsWhitespace(body[0])
    ensures StripOpenFence("```" + ws + body) == body
  {
    var s := "```" + ws + body;
    assert s[..3] == "```";
    assert s[3..] == ws + body;
    TrimStartPrefix(ws, body);
  }

  lemma StripCloseFenceOf(body: string, ws: string)
    requires AllWhitespace(ws) && body != [] && !IsWhitespace(body[|body| - 1])
    ensures StripCloseFence(body + ws + "```") == body
  {
    var s := body + ws + "```";
    assert s[|s| - 3..] == "```";
    assert s[..|s| - 3] == body + ws;
    TrimEndSuffix(body, ws);
  }

  /** The character after a bare fence is whitespace or the payload's first, never 'j'. */
  lemma BareFenceIsNotJsonFence(ws: string, body: string)
    requires AllWhitespace(ws) && body != [] && body[0] != 'j'
    ensures !StartsWith("```" + ws + body, "```json")
  {
    var s := "```" + ws + body;
    if ws == [] {
      assert s[3] == body[0];
    } else {
      assert s[3] == ws[0];
      assert IsWhitespace(ws[0]);
    }
  }

  /** Whitespace around a text that opens and closes with a backtick is all `trim` removes. */
  lemma FenceTrim(ws0: string, fenced: string, ws3: string)
    requires AllWhitespace(ws0) && AllWhitespace(ws3)
    requires |fenced| > 0 && fenced[0] == '`' && fenced[|fenced| - 1] == '`'
    ensures Trim(ws0 + fenced + ws3) == fenced
  {
    assert ws0 + fenced + ws3 == ws0 + (fenced + ws3);
    TrimStartPrefix(ws0, fenced + ws3);
    TrimEndSuffix(fenced, ws3);
  }

  /** Wrapping a payload in a `json` fence, with any whitespace around and inside the fence,
      is undone by cleaning: the payload comes back exactly. */
  lemma JsonFenceRoundTrip(ws0: string, ws1: string, payload: string, ws2: string, ws3: string)
    requires AllWhitespace(ws0) && AllWhitespace(ws1) && AllWhitespace(ws2) && AllWhitespace(ws3)
    requires payload != [] && IsTrimmed(payload) && payload[0] != '`'
    ensures Cleaned(ws0 + "```json" + ws1 + payload + ws2 + "```" + ws3) == payload
  {
    var body := payload + ws2 + "```";
    var fenced := "```json" + ws1 + body;
    assert ws0 + "```json" + ws1 + payload + ws2 + "```" + ws3 == ws0 + fenced + ws3;
    FenceTrim(ws0, fenced, ws3);
    StripJsonFenceOf(ws1, body);
    assert !StartsWith(body, "```") by {
      assert body[0] == payload[0];
    }
    StripCloseFenceOf(payload, ws2);
    TrimStartOfTrimmed(payload);
    TrimEndOfTrimmed(payload);
  }

  /** The same with a bare fence, for a payload that does not itself start with "json". */
  lemma BareFenceRoundTrip(ws0: string, ws1: string, payload: string, ws2: string, ws3: string)
    requires AllWhitespace(ws0) && AllWhitespace(ws1) && AllWhitespace(ws2) && AllWhitespace(ws3)
    requires payload != [] && IsTrimmed(payload) && payload[0] != '`' && payload[0] != 'j'
    ensures Cleaned(ws0 + "```" + ws1 + payload + ws2 + "```" + ws3) == payload
  {
    var body := payload + ws2 + "```";
    var fenced := "```" + ws1 + body;
    assert ws0 + "```" + ws1 + payload + ws2 + "```" + ws3 == ws0 + fenced + ws3;
    FenceTrim(ws0, fenced, ws3);
    BareFenceIsNotJsonFence(ws1, body);
    StripOpenFenceOf(ws1, body);
    StripCloseFenceOf(payload, ws2);
    TrimStartOfTrimmed(payload);
    TrimEndOfTrimmed(payload);
  }

  /** The reply "```json\n{"tasks":[]}\n```" cleans to `{"tasks":[]}`. */
  lemma CleanedExample()
    ensures Cleaned("```json\n{\"tasks\":[]}\n```") == "{\"tasks\":[]}"
  {
    assert "```json\n{\"tasks\":[]}\n```" == [] + "```json" + "\n" + "{\"tasks\":[]}" + "\n" + "```" + [];
    JsonFenceRoundTrip([], "\n", "{\"tasks\":[]}", "\n", []);
  }

  // Validating the parsed payload

  /** `if (!data.tasks || !Array.isArray(data.tasks)) throw …; return data`: an array, even
      an empty one, passes and the parsed value is returned unchanged; reading `tasks` of
      `null` is a TypeError. */
  function ValidatePayload(v: Json): (r: Result<Json, TextError>)
    ensures r.Success? <==> v.JObj? && "tasks" in v.fields && v.fields["tasks"].JArr?
    ensures r.Success? ==> r.value == v
    ensures r == Failure(NullAccess) <==> v == JNull
    ensures r.Failure? ==> r.error == NullAccess || r.error == BadFormat
  {
    var tasks := Member(v, "tasks");
    if tasks == Throws then Failure(NullAccess)
    else if IsArray(tasks) then Success(v)
    else Failure(BadFormat)
  }

  /** What `structurizeText(text, userId)` resolves to, or the error it rethrows. Nothing
      partial is returned: a reply that does not parse, or parses to the wrong shape, fails. */
  function Structured(
    text: string,
    settings: UserSettings.Settings,
    getApiKey: string -> Option<string>,
    generate: (Service, string) -> Result<string, string>,
    parse: string -> Result<Json, string>): (r: Result<Json, TextError>)
    ensures CreateAIService(settings, getApiKey).Failure? ==>
      r == Failure(CreateAIService(settings, getApiKey).error)
    ensures (CreateAIService(settings, getApiKey).Success? &&
             generate(CreateAIService(settings, getApiKey).value, text).Failure?) ==>
      r == Failure(Upstream(generate(CreateAIService(settings, getApiKey).value, text).error))
    ensures (CreateAIService(settings, getApiKey).Success? &&
             generate(CreateAIService(settings, getApiKey).value, text).Success?) ==>
      var parsed := parse(Cleaned(generate(CreateAIService(settings, getApiKey).value, text).value));
      (parsed.Failure? ==> r == Failure(InvalidJson(parsed.error))) &&
      (parsed.Success? ==> r == ValidatePayload(parsed.value))
    ensures r.Success? ==>
      CreateAIService(settings, getApiKey).Success? &&
      generate(CreateAIService(settings, getApiKey).value, text).Success? &&
      parse(Cleaned(generate(CreateAIService(settings, getApiKey).value, text).value)) == Success(r.value) &&
      r.value.JObj? && "tasks" in r.value.fields && r.value.fields["tasks"].JArr?
  {
    match CreateAIService(settings, getApiKey)
    case Failure(e) => Failure(e)
    case Success(service) =>
      match generate(service, text)
      case Failure(m) => Failure(Upstream(m))
      case Success(response) =>
        match parse(Cleaned(response))
        case Failure(m) => Failure(InvalidJson(m))
        case Success(v) => ValidatePayload(v)
  }

  /** The pipeline succeeds exactly when every step does and the cleaned reply parses to an
      object whose `tasks` is an array, even an empty one; it then answers that value. */
  lemma StructuredSucceedsExactly(
    text: string,
    settings: UserSettings.Settings,
    getApiKey: string -> Option<string>,
    generate: (Service, string) -> Result<string, string>,
    parse: string -> Result<Json, string>)
    ensures var r := Structured(text, settings, getApiKey, generate, parse);
      r.Success? <==>
        CreateAIService(settings, getApiKey).Success? &&
        generate(CreateAIService(settings, getApiKey).value, text).Success? &&
        var parsed := parse(Cleaned(generate(CreateAIService(settings, getApiKey).value, text).value));
        parsed.Success? && parsed.value.JObj? && "tasks" in parsed.value.fields &&
        parsed.value.fields["tasks"].JArr? && r.value == parsed.value
  {
  }

  /** `structurizeText`; the prompt built around `text` is not modelled, so `generate`
      receives the text itself. */
  method StructurizeText(
    text: string,
    settings: UserSettings.Settings,
    getApiKey: string -> Option<string>,
    generate: (Service, string) -> Result<string, string>,
    parse: string -> Result<Json, string>) returns (r: Result<Json, TextError>)
    ensures r == Structured(text, settings, getApiKey, generate, parse)
  {
    var service := CreateAIService(settings, getApiKey);
    if service.Failure? {
      return Failure(service.error);
    }
    var response := generate(service.value, text);
    if response.Failure? {
      return Failure(Upstream(response.error));
    }
    var clean := CleanResponse(response.value);
    var parsed := parse(clean);
    if parsed.Failure? {
      return Failure(InvalidJson(parsed.error));
    }
    r := ValidatePayload(parsed.value);
  }
}
