/** `transcribeAudio`: choosing the speech recogniser from the user's settings and the
    order in which it fails. The browser recogniser's answer is the parameter `recognise`,
    whether the browser has one is `supported`, and the Whisper upload is the parameter
    `post`, which receives the request the service builds. */
module SpeechService {
  import opened Wrappers
  import AiProviders
  import UserSettings
  import opened Json

  /** A recorded audio blob. */
  type Blob = seq<bv8>

  /** What the browser's recogniser reports: a transcript or an error code. */
  datatype Recognition = Recognised(transcript: string) | RecognitionError(code: string)

  /** The Whisper upload: endpoint, authorisation header and form fields. */
  datatype WhisperRequest = WhisperRequest(
    url: string,
    authorization: string,
    file: Blob,
    fileName: string,
    model: string,
    language: string)

  /** The parts of the HTTP response the service reads; `body` is what `response.json()`
      resolves to, or the message it rejects with. */
  datatype WhisperResponse = WhisperResponse(ok: bool, statusText: string, body: Result<Json, string>)

  datatype SpeechError =
    | ProviderNotFound
    | BrowserUnsupported
    | RecognitionFailed(code: string)
    | MissingApiKey
    | Upstream(statusText: string)
    | NetworkError(message: string)
    | BadReply(message: string)
    | NullReply
    | UnsupportedService

  function Message(e: SpeechError): string {
    match e
    case ProviderNotFound => "未找到语音识别提供商"
    case BrowserUnsupported => "浏览器不支持语音识别，请使用其他服务"
    case RecognitionFailed(code) => "语音识别失败: " + code
    case MissingApiKey => "请先配置 OpenAI API 密钥"
    case Upstream(statusText) => "OpenAI API 错误: " + statusText
    case NetworkError(message) => message
    case BadReply(message) => message
    case NullReply => "Cannot read properties of null (reading 'text')"
    case UnsupportedService => "不支持的语音识别服务"
  }

  /** The messages of the checks `transcribeAudio` makes itself are pairwise distinct, so the
      message tells which check failed. */
  lemma CheckMessagesDistinct()
    ensures Message(ProviderNotFound) != Message(BrowserUnsupported)
    ensures Message(ProviderNotFound) != Message(MissingApiKey)
    ensures Message(ProviderNotFound) != Message(UnsupportedService)
    ensures Message(BrowserUnsupported) != Message(MissingApiKey)
    ensures Message(BrowserUnsupported) != Message(UnsupportedService)
    ensures Message(MissingApiKey) != Message(UnsupportedService)
  {
  }

  /** The request `OpenAIWhisperService.transcribe` sends. */
  function WhisperForm(apiKey: string, audio: Blob): (r: WhisperRequest)
    ensures r.url == "https://api.openai.com/v1/audio/transcriptions"
    ensures r.authorization == "Bearer " + apiKey
    ensures r.file == audio && r.fileName == "audio.webm"
    ensures r.model == "whisper-1" && r.language == "zh"
  {
    WhisperRequest("https://api.openai.com/v1/audio/transcriptions", "Bearer " + apiKey, audio, "audio.webm", "whisper-1", "zh")
  }

  /** `OpenAIWhisperService.transcribe`. `post` answers the `fetch`: a failure is the message
      it rejects with. The promise resolves to whatever `result.text` reads, which is
      `undefined` or a non-string when the reply lacks a string `text`. */
  function Whisper(apiKey: string, audio: Blob, post: WhisperRequest -> Result<WhisperResponse, string>)
    : (r: Result<Read, SpeechError>)
    ensures post(WhisperForm(apiKey, audio)).Failure? ==>
      r == Failure(NetworkError(post(WhisperForm(apiKey, audio)).error))
    ensures post(WhisperForm(apiKey, audio)).Success? && !post(WhisperForm(apiKey, audio)).value.ok ==>
      r == Failure(Upstream(post(WhisperForm(apiKey, audio)).value.statusText))
    ensures post(WhisperForm(apiKey, audio)).Success? && post(WhisperForm(apiKey, audio)).value.ok ==>
      var body := post(WhisperForm(apiKey, audio)).value.body;
      (body.Failure? ==> r == Failure(BadReply(body.error))) &&
      (body == Success(JNull) ==> r == Failure(NullReply))
    ensures r.Success? <==>
      post(WhisperForm(apiKey, audio)).Success? && post(WhisperForm(apiKey, audio)).value.ok &&
      post(WhisperForm(apiKey, audio)).value.body.Success? &&
      post(WhisperForm(apiKey, audio)).value.body.value != JNull
    ensures r.Success? ==>
      r.value == Member(post(WhisperForm(apiKey, audio)).value.body.value, "text") && !r.value.Throws?
  {
    match post(WhisperForm(apiKey, audio))
    case Failure(m) => Failure(NetworkError(m))
    case Success(response) =>
      if !response.ok then Failure(Upstream(response.statusText))
      else match response.body
        case Failure(m) => Failure(BadReply(m))
        case Success(result) =>
          var text := Member(result, "text");
          if text.Throws? then Failure(NullReply) else Success(text)
  }

  /** A reply whose body carries a string `text` resolves to that string. */
  lemma WhisperTextReply(apiKey: string, audio: Blob, post: WhisperRequest -> Result<WhisperResponse, string>,
    t: string)
    requires post(WhisperForm(apiKey, audio)).Success? && post(WhisperForm(apiKey, audio)).value.ok
    requires var body := post(WhisperForm(apiKey, audio)).value.body;
      body.Success? && body.value.JObj? && "text" in body.value.fields && body.value.fields["text"] == JStr(t)
    ensures Whisper(apiKey, audio, post) == Success(Found(JStr(t)))
  {
  }

  /** `transcribeAudio(audioBlob, userId)`; any failure reaches the caller unchanged. The
      browser's transcript resolves as a string read, `Found(JStr(t))`. */
  function TranscribeAudio(
    audio: Blob,
    settings: UserSettings.Settings,
    getApiKey: string -> Option<string>,
    supported: bool,
    recognise: Recognition,
    post: WhisperRequest -> Result<WhisperResponse, string>): (r: Result<Read, SpeechError>)
    ensures AiProviders.GetProviderById(settings.prefs.speechProvider).None? <==> r == Failure(ProviderNotFound)
    ensures settings.prefs.speechProvider == "browser-speech" ==>
      r == (if !supported then Failure(BrowserUnsupported)
            else match recognise
                 case Recognised(t) => Success(Found(JStr(t)))
                 case RecognitionError(code) => Failure(RecognitionFailed(code)))
    ensures settings.prefs.speechProvider == "openai" ==>
      var key := getApiKey("openai");
      r == (if key.None? || key.value == "" then Failure(MissingApiKey) else Whisper(key.value, audio, post))
    ensures r == Failure(UnsupportedService) <==>
      AiProviders.GetProviderById(settings.prefs.speechProvider).Some? &&
      settings.prefs.speechProvider != "browser-speech" && settings.prefs.speechProvider != "openai"
  {
    var id := settings.prefs.speechProvider;
    var known := AiProviders.GetProviderById(id).Some?;
    if !known then Failure(ProviderNotFound)
    else if id == "browser-speech" then
      if !supported then Failure(BrowserUnsupported)
      else match recognise
        case Recognised(t) => Success(Found(JStr(t)))
        case RecognitionError(code) => Failure(RecognitionFailed(code))
    else if id == "openai" then
      var key := getApiKey("openai");
      if key.None? || key.value == "" then Failure(MissingApiKey)
      else Whisper(key.value, audio, post)
    else Failure(UnsupportedService)
  }

  /** An unknown provider fails before a recogniser is consulted or a request is sent:
      the answer does not depend on either. A missing OpenAI key likewise fails before
      any upload. */
  lemma ChecksComeBeforeServices(
    audio: Blob, settings: UserSettings.Settings, getApiKey: string -> Option<string>,
    supported1: bool, recognise1: Recognition, post1: WhisperRequest -> Result<WhisperResponse, string>,
    supported2: bool, recognise2: Recognition, post2: WhisperRequest -> Result<WhisperResponse, string>)
    ensures AiProviders.GetProviderById(settings.prefs.speechProvider).None? ==>
      TranscribeAudio(audio, settings, getApiKey, supported1, recognise1, post1) ==
      TranscribeAudio(audio, settings, getApiKey, supported2, recognise2, post2)
    ensures
      (settings.prefs.speechProvider == "openai" &&
       (getApiKey("openai").None? || getApiKey("openai").value == "")) ==>
      TranscribeAudio(audio, settings, getApiKey, supported1, recognise1, post1) ==
      TranscribeAudio(audio, settings, getApiKey, supported2, recognise2, post2) == Failure(MissingApiKey)
  {
  }

  /** The browser recogniser listens live: the recorded blob plays no part. */
  lemma BrowserIgnoresAudio(
    audio1: Blob, audio2: Blob, settings: UserSettings.Settings, getApiKey: string -> Option<string>,
    supported: bool, recognise: Recognition, post: WhisperRequest -> Result<WhisperResponse, string>)
    requires settings.prefs.speechProvider == "browser-speech"
    ensures TranscribeAudio(audio1, settings, getApiKey, supported, recognise, post) ==
      TranscribeAudio(audio2, settings, getApiKey, supported, recognise, post)
  {
  }

  /** Of the catalogue's providers, all but the browser recogniser and OpenAI fail as
      unsupported (Google, for one). */
  lemma TextOnlyProvidersUnsupported(
    audio: Blob, settings: UserSettings.Settings, getApiKey: string -> Option<string>,
    supported: bool, recognise: Recognition, post: WhisperRequest -> Result<WhisperResponse, string>)
    requires settings.prefs.speechProvider in {"anthropic", "google", "deepseek", "zhipu", "moonshot", "ollama"}
    ensures TranscribeAudio(audio, settings, getApiKey, supported, recognise, post) == Failure(UnsupportedService)
  {
    AiProviders.KnownProviderIds(settings.prefs.speechProvider);
  }
}
