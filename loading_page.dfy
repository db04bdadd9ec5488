/** The loading screen: the configuration of each stage (title, description, colour and
    progress), and what the screen shows for a stage: the error card with its optional
    retry button, or the progress view with the transcript and the three stage dots. */
module LoadingPage {
  import opened Wrappers

  /** The `stage` property. */
  datatype LoadingStage = Transcribing | Structuring | Saving | ErrorStage

  datatype Color = Blue | Purple | Green | Red

  /** What `getStageConfig()` returns; `progress` is a percentage. */
  datatype StageConfig = StageConfig(title: string, description: string, color: Color, progress: nat)

  /** The description of the error stage when no message is given. */
  const UnknownError: string := "发生了未知错误"

  /** A string property is truthy when it is given and not empty. */
  predicate Truthy(s: Option<string>) {
    s.Some? && s.value != ""
  }

  /** `getStageConfig()`, the error description being `error || "发生了未知错误"`. */
  function StageConfigOf(stage: LoadingStage, error: Option<string>): StageConfig {
    match stage
    case Transcribing => StageConfig("正在转换语音...", "AI 正在理解你的话语", Blue, 33)
    case Structuring => StageConfig("正在整理思绪...", "AI 正在为你创建结构化任务", Purple, 66)
    case Saving => StageConfig("正在保存任务...", "马上就好，请稍等", Green, 100)
    case ErrorStage => StageConfig("处理失败", if Truthy(error) then error.value else UnknownError, Red, 0)
  }

  /** The progress is 33, 66 and 100 along the three working stages and 0 on error; it grows
      from stage to stage and never exceeds 100. Only the error stage reads the `error`
      property: its description is the message when there is one, the default otherwise. */
  lemma StageProgress(error: Option<string>, other: Option<string>)
    ensures StageConfigOf(Transcribing, error).progress == 33
    ensures StageConfigOf(Structuring, error).progress == 66
    ensures StageConfigOf(Saving, error).progress == 100
    ensures StageConfigOf(ErrorStage, error).progress == 0
    ensures forall s :: StageConfigOf(s, error).progress <= 100
    ensures forall s :: s != ErrorStage ==> StageConfigOf(s, error) == StageConfigOf(s, other)
    ensures StageConfigOf(ErrorStage, error).description == (if Truthy(error) then error.value else UnknownError)
  {
  }

  /** The three dots under the progress view: the first is lit in every working stage, the
      second from structuring on, the third while saving. */
  datatype Dots = Dots(first: bool, second: bool, third: bool)

  function DotsOf(stage: LoadingStage): (d: Dots)
    ensures d.first <==> stage in {Transcribing, Structuring, Saving}
    ensures d.second <==> stage in {Structuring, Saving}
    ensures d.third <==> stage == Saving
  {
    Dots(stage != ErrorStage, stage == Structuring || stage == Saving, stage == Saving)
  }

  /** The number of lit dots. */
  function LitDots(d: Dots): nat {
    (if d.first then 1 else 0) + (if d.second then 1 else 0) + (if d.third then 1 else 0)
  }

  /** One, two and three dots light up for transcribing, structuring and saving, and the
      lit dots are always a prefix of the row. */
  lemma DotsNested(stage: LoadingStage)
    ensures DotsOf(stage).second ==> DotsOf(stage).first
    ensures DotsOf(stage).third ==> DotsOf(stage).second
    ensures LitDots(DotsOf(stage)) == match stage
      case Transcribing => 1
      case Structuring => 2
      case Saving => 3
      case ErrorStage => 0
  {
  }

  /** What the screen renders. */
  datatype View =
    | ErrorView(title: string, description: string, retryButton: bool)
    | ProgressView(config: StageConfig, transcript: Option<string>, dots: Dots)

  /** The component for the properties `stage`, `error`, `onRetry` (whether one is given) and
      `transcribedText`. */
  function Render(stage: LoadingStage, error: Option<string>, hasRetry: bool, transcribedText: Option<string>): (v: View)
    ensures v.ErrorView? <==> stage == ErrorStage
    ensures v.ErrorView? ==> v.retryButton == hasRetry
    ensures v.ErrorView? ==> v.description == (if Truthy(error) then error.value else UnknownError)
    ensures v.ProgressView? ==> v.config == StageConfigOf(stage, error) && v.dots == DotsOf(stage)
    ensures v.ProgressView? ==> (v.transcript.Some? <==> Truthy(transcribedText) && stage == Structuring)
    ensures v.ProgressView? && v.transcript.Some? ==> v.transcript == transcribedText
  {
    var config := StageConfigOf(stage, error);
    if stage == ErrorStage then ErrorView(config.title, config.description, hasRetry)
    else
      ProgressView(config, if Truthy(transcribedText) && stage == Structuring then transcribedText else None,
                   DotsOf(stage))
  }

  /** When the transcript shows, the progress view stands at 66 with two dots lit. */
  lemma TranscriptOnlyWhileStructuring(stage: LoadingStage, error: Option<string>, hasRetry: bool, text: Option<string>)
    requires Render(stage, error, hasRetry, text).ProgressView?
    requires Render(stage, error, hasRetry, text).transcript.Some?
    ensures Render(stage, error, hasRetry, text).config.progress == 66
    ensures LitDots(Render(stage, error, hasRetry, text).dots) == 2
  {
  }
}
