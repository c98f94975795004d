/**
 * The premium image-to-video client: building the task request (style hint, prompt text,
 * duration), checking the creation reply, and normalising the provider's task status.
 */
module VolcVideo {
  import opened Common
  import opened Text
  import opened Database

  const DefaultModel: string := "doubao-seedance-1-5-pro-251215"
  const NoKeyMessage: string := "未配置 VOLC_API_KEY"
  const CreateFailedMessage: string := "创建视频任务失败"
  const DefaultPrompt: string := "画面自然动起来"
  const DefaultStyle: string := "realistic"

  /** `isVolcVideoConfigured`: the key is set and not empty. */
  predicate IsConfigured(apiKey: Option<string>) {
    apiKey.Some? && apiKey.value != []
  }

  const RealisticHint: string := "写实风格，与前后镜头光影、色调一致"

  /** The style hint of each known project style. */
  function KnownHint(style: string): Option<string> {
    match style
    case "realistic" => Some(RealisticHint)
    case "anime" => Some("动漫风格，与整体画风统一")
    case "cartoon" => Some("卡通风格，与全片风格一致")
    case "cinematic" => Some("电影感，与前后镜头衔接自然")
    case "watercolor" => Some("水彩风格，统一艺术风格")
    case "oil_painting" => Some("油画风格，整体协调")
    case "sketch" => Some("素描风格，统一笔触")
    case "cyberpunk" => Some("赛博朋克风格，统一霓虹与氛围")
    case "fantasy" => Some("奇幻风格，统一世界观视觉")
    case "scifi" => Some("科幻风格，统一未来感")
    case _ => None
  }

  /** `STYLE_HINTS[style ?? "realistic"] ?? STYLE_HINTS.realistic`. */
  function StyleHint(style: Option<string>): (r: string)
    ensures style.Some? && KnownHint(style.value).Some? ==> r == KnownHint(style.value).value
    ensures style.None? || KnownHint(style.value).None? ==> r == RealisticHint
  {
    match KnownHint(style.GetOr(DefaultStyle))
    case Some(hint) => hint
    case None => RealisticHint
  }

  /** `(prompt ?? "画面自然动起来").trim().slice(0, 400)`: an empty prompt stays empty, only absence defaults. */
  function PromptText(prompt: Option<string>): (r: string)
    ensures |r| <= 400
    ensures prompt.None? ==> r == DefaultPrompt
    ensures prompt.Some? ==> r == Take(Trim(prompt.value), 400)
  {
    if prompt.None? then
      assert Trim(DefaultPrompt) == DefaultPrompt by {
        assert !IsSpace(DefaultPrompt[0]) && !IsSpace(DefaultPrompt[|DefaultPrompt| - 1]);
      }
      Take(Trim(DefaultPrompt), 400)
    else Take(Trim(prompt.value), 400)
  }

  /** The text block of the request: the style, this shot's action and its length in seconds. */
  function FullText(hint: string, text: string, duration: int): string {
    "整体风格：" + hint + "。本镜头：" + text + "，时长约" + IntToString(duration) + "秒，与前后镜头衔接自然。"
  }

  /** The request body: the model, the text and image parts, the duration, no watermark. */
  datatype VideoRequest = VideoRequest(model: string, text: string, imageUrl: string, duration: int, watermark: bool)

  function BuildRequest(imageUrl: string, prompt: Option<string>, duration: Option<int>, style: Option<string>): (r: VideoRequest)
    ensures r.model == DefaultModel && r.imageUrl == imageUrl && !r.watermark
    ensures r.duration == duration.GetOr(5)
    ensures r.text == FullText(StyleHint(style), PromptText(prompt), r.duration)
  {
    var d := duration.GetOr(5);
    VideoRequest(DefaultModel, FullText(StyleHint(style), PromptText(prompt), d), imageUrl, d, false)
  }

  /** The `error` object of a reply. */
  datatype ErrorBody = ErrorBody(message: Option<string>, code: Option<string>)

  /** How the task-creation request ended (a timeout or unreadable body counts as thrown). */
  datatype CreateReply =
    | CreateThrew(message: string)
    | CreateReplied(ok: bool, httpStatus: int, id: Option<string>, status: Option<string>, error: Option<ErrorBody>)

  /** A created task: the provider's id and its status as reported, `pending` when absent. */
  datatype VideoTask = VideoTask(taskId: string, status: string)

  /** `createVideoTask`: an error field wins over the HTTP status; then a failed status or a missing id. */
  function CreateVideoTask(apiKey: Option<string>, imageUrl: string, prompt: Option<string>, duration: Option<int>,
                           style: Option<string>, send: VideoRequest -> CreateReply): (r: Result<VideoTask, string>)
    ensures !IsConfigured(apiKey) ==> r == Err(NoKeyMessage)
    ensures r.Ok? <==> (IsConfigured(apiKey)
      && var reply := send(BuildRequest(imageUrl, prompt, duration, style));
      reply.CreateReplied? && reply.error.None? && reply.ok && reply.id.Some? && reply.id.value != [])
    ensures r.Ok? ==> r.value.taskId == send(BuildRequest(imageUrl, prompt, duration, style)).id.value
  {
    if !IsConfigured(apiKey) then Err(NoKeyMessage)
    else
      match send(BuildRequest(imageUrl, prompt, duration, style))
      case CreateThrew(m) => Err(m)
      case CreateReplied(ok, code, id, status, error) =>
        if error.Some? then Err(error.value.message.GetOr(error.value.code.GetOr(CreateFailedMessage)))
        else if !ok || id.None? || id.value == [] then Err("HTTP " + IntToString(code))
        else Ok(VideoTask(id.value, status.GetOr("pending")))
  }

  /** An error object in the reply decides the outcome even when the HTTP status is fine. */
  lemma CreateErrorFieldFirst(apiKey: string, imageUrl: string, prompt: Option<string>, duration: Option<int>,
                              style: Option<string>, send: VideoRequest -> CreateReply)
    requires apiKey != []
    requires send(BuildRequest(imageUrl, prompt, duration, style)).CreateReplied?
    requires send(BuildRequest(imageUrl, prompt, duration, style)).error == Some(ErrorBody(None, None))
    ensures CreateVideoTask(Some(apiKey), imageUrl, prompt, duration, style, send) == Err(CreateFailedMessage)
  {
  }

  const Running: string := "running"
  const ProcessingWord: string := "processing"
  const Success: string := "success"
  const Succeeded: string := "succeeded"
  const CompletedWord: string := "completed"
  const FailedWord: string := "failed"

  /** The provider's status word, compared after lower-casing: anything unrecognised is pending. */
  function NormaliseStatus(raw: Option<string>): (r: Status)
    ensures var s := Lower(raw.GetOr(""));
      && (r == Processing <==> s == Running || s == ProcessingWord)
      && (r == Status.Completed <==> s == Success || s == Succeeded || s == CompletedWord)
      && (r == Failed <==> s == FailedWord)
  {
    var s := Lower(raw.GetOr(""));
    if s == Running || s == ProcessingWord then Processing
    else if s == Success || s == Succeeded || s == CompletedWord then Status.Completed
    else if s == FailedWord then Failed
    else Pending
  }

  /** Normalisation ignores case: a word and its lower-cased form give the same status. */
  lemma NormaliseIgnoresCase(s: string)
    ensures NormaliseStatus(Some(s)) == NormaliseStatus(Some(Lower(s)))
  {
    LowerIsIdempotent(s);
  }

  /** How the status request ended. `contentUrl` is `content?.video_url`, `outputUrl` is `output?.url`. */
  datatype StatusReply =
    | StatusThrew(message: string)
    | StatusReplied(ok: bool, httpStatus: int, id: string, status: Option<string>,
                    contentUrl: Option<string>, outputUrl: Option<string>, error: Option<ErrorBody>)

  datatype VideoStatus = VideoStatus(taskId: string, status: Status, videoUrl: Option<string>, errorMessage: Option<string>)

  /**
   * `getVideoTaskStatus`: an error field gives `failed` with its message before the HTTP status is
   * looked at; a failed status throws; otherwise the normalised status and the video URL.
   */
  function VideoTaskStatus(apiKey: Option<string>, taskId: string, fetch: string -> StatusReply): (r: Result<VideoStatus, string>)
    ensures !IsConfigured(apiKey) ==> r == Err(NoKeyMessage)
    ensures r.Ok? ==> var reply := fetch(taskId);
      && reply.StatusReplied? && r.value.taskId == reply.id
      && (reply.error.Some? ==> r.value.status == Failed && r.value.errorMessage == reply.error.value.message
                                && r.value.videoUrl.None?)
      && (reply.error.None? ==> reply.ok && r.value.status == NormaliseStatus(reply.status)
                                && r.value.errorMessage.None?)
    ensures r.Ok? && fetch(taskId).error.None? && fetch(taskId).contentUrl.Some? ==> r.value.videoUrl == fetch(taskId).contentUrl
    ensures r.Ok? && fetch(taskId).error.None? && fetch(taskId).contentUrl.None? ==> r.value.videoUrl == fetch(taskId).outputUrl
    ensures (IsConfigured(apiKey) && fetch(taskId).StatusReplied?
      && (fetch(taskId).error.Some? || fetch(taskId).ok)) ==> r.Ok?
  {
    if !IsConfigured(apiKey) then Err(NoKeyMessage)
    else
      match fetch(taskId)
      case StatusThrew(m) => Err(m)
      case StatusReplied(ok, code, id, status, contentUrl, outputUrl, error) =>
        if error.Some? then Ok(VideoStatus(id, Failed, None, error.value.message))
        else if !ok then Err("HTTP " + IntToString(code))
        else Ok(VideoStatus(id, NormaliseStatus(status), if contentUrl.Some? then contentUrl else outputUrl, None))
  }
}
