/**
 * The premium text-to-image client: prompt composition with the unified style prefix and a
 * per-style suffix, and the request loop with at most two attempts, an immediate stop on timeout
 * and a back-off only before a further attempt.
 */
module VolcImage {
  import opened Common
  import opened Text

  const DefaultModel: string := "doubao-seedream-4-5-251128"
  const MaxRetries: nat := 2
  const UnifiedStylePrefix: string := "同一故事、统一画风，整体视觉一致。"
  const DefaultStyle: string := "realistic"
  const DefaultSize: string := "2K"

  const NoKeyMessage: string := "未配置 VOLC_API_KEY"
  const ProviderErrorMessage: string := "火山引擎返回错误"
  const NoDataMessage: string := "未返回图片数据"
  const DownloadFailedMessage: string := "下载生成图片失败"
  const NoImageMessage: string := "响应中无 url 或 b64_json"
  const TimeoutMessage: string := "请求超时"
  const GenericFailure: string := "生成失败"

  const RealisticSuffix: string := ", photorealistic, high quality, natural lighting, consistent style"

  /** The English style suffix of each known project style. */
  function KnownSuffix(style: string): Option<string> {
    match style
    case "realistic" => Some(RealisticSuffix)
    case "anime" => Some(", anime style, vibrant colors, clean lines, consistent anime look")
    case "cartoon" => Some(", cartoon style, bright colors, playful, consistent cartoon style")
    case "cinematic" => Some(", cinematic, dramatic lighting, film look, consistent cinematography")
    case "watercolor" => Some(", watercolor painting, soft edges, delicate colors, consistent art style")
    case "oil_painting" => Some(", oil painting, thick brushstrokes, rich colors, consistent classical look")
    case "sketch" => Some(", pencil sketch, detailed linework, artistic, consistent sketch style")
    case "cyberpunk" => Some(", cyberpunk, neon lights, futuristic, consistent cyberpunk aesthetic")
    case "fantasy" => Some(", fantasy, magical, ethereal, mystical, consistent fantasy style")
    case "scifi" => Some(", sci-fi, futuristic, high-tech, consistent sci-fi style")
    case _ => None
  }

  /** `buildStyleSuffix`: a missing or unknown style gets the realistic suffix. */
  function StyleSuffix(style: Option<string>): (r: string)
    ensures style.Some? && KnownSuffix(style.value).Some? ==> r == KnownSuffix(style.value).value
    ensures style.None? || KnownSuffix(style.value).None? ==> r == RealisticSuffix
  {
    match KnownSuffix(style.GetOr(DefaultStyle))
    case Some(suffix) => suffix
    case None => RealisticSuffix
  }

  /** The prompt sent: the unified prefix, a space, the trimmed prompt cut to 560 characters, the suffix. */
  function FullPrompt(prompt: string, style: Option<string>): string {
    UnifiedStylePrefix + " " + Take(Trim(prompt), 560) + StyleSuffix(style)
  }

  /** The user's text can be read back from the prompt sent, between the prefix and the suffix. */
  lemma FullPromptCarriesText(prompt: string, style: Option<string>)
    ensures var p := FullPrompt(prompt, style); var n := |UnifiedStylePrefix| + 1;
      && n + |Take(Trim(prompt), 560)| + |StyleSuffix(style)| == |p|
      && p[n..n + |Take(Trim(prompt), 560)|] == Take(Trim(prompt), 560)
      && p[n + |Take(Trim(prompt), 560)|..] == StyleSuffix(style)
  {
    var t := Take(Trim(prompt), 560);
    var p := FullPrompt(prompt, style);
    assert p == (UnifiedStylePrefix + " ") + t + StyleSuffix(style);
  }

  datatype ImageRequest = ImageRequest(model: string, prompt: string, size: string, watermark: bool)

  function BuildRequest(prompt: string, style: Option<string>, size: Option<string>): ImageRequest {
    ImageRequest(DefaultModel, FullPrompt(prompt, style), size.GetOr(DefaultSize), false)
  }

  /** The first entry of the reply's `data` array. */
  datatype ImageDatum = ImageDatum(url: Option<string>, b64Json: Option<string>)

  datatype ErrorBody = ErrorBody(message: Option<string>, code: Option<string>)

  /** How one generation request ended; `Aborted` is the request timer firing. */
  datatype ImageReply =
    | Aborted
    | Threw(message: string)
    | Replied(ok: bool, httpStatus: int, data: Option<seq<ImageDatum>>, error: Option<ErrorBody>)

  /** How the download of a returned image URL ended; its body is given already base64-encoded. */
  datatype DownloadReply = DownloadThrew(message: string) | DownloadNotOk | Downloaded(base64: string)

  /** What one attempt yields. */
  datatype Outcome = Image(base64: string) | Timeout | Failed(message: string)

  /** One attempt of the loop body: the checks in order, then `b64_json`, else the downloaded `url`. */
  function AttemptOutcome(reply: ImageReply, download: string -> DownloadReply): (o: Outcome)
    ensures o.Timeout? <==> reply.Aborted?
    ensures o.Image? ==> reply.Replied? && reply.ok && reply.error.None? && reply.data.Some? && reply.data.value != []
  {
    match reply
    case Aborted => Timeout
    case Threw(m) => Failed(m)
    case Replied(ok, code, data, error) =>
      if error.Some? then Failed(error.value.message.GetOr(error.value.code.GetOr(ProviderErrorMessage)))
      else if !ok then Failed("HTTP " + IntToString(code))
      else if data.None? || data.value == [] then Failed(NoDataMessage)
      else
        var first := data.value[0];
        if first.b64Json.Some? && first.b64Json.value != [] then Image(first.b64Json.value)
        else if first.url.Some? && first.url.value != [] then
          match download(first.url.value)
          case Downloaded(b) => Image(b)
          case DownloadNotOk => Failed(DownloadFailedMessage)
          case DownloadThrew(m) => Failed(m)
        else Failed(NoImageMessage)
  }

  /** A non-empty `b64_json` is returned as is and nothing is downloaded; otherwise a non-empty URL is downloaded. */
  lemma B64Preferred(ok: bool, code: int, first: ImageDatum, rest: seq<ImageDatum>, download: string -> DownloadReply)
    requires ok
    ensures var o := AttemptOutcome(Replied(ok, code, Some([first] + rest), None), download);
      && (first.b64Json.Some? && first.b64Json.value != [] ==> o == Image(first.b64Json.value))
      && ((first.b64Json.None? || first.b64Json.value == []) && first.url.Some? && first.url.value != [] ==>
            (o.Image? <==> download(first.url.value).Downloaded?))
      && ((first.b64Json.None? || first.b64Json.value == []) && (first.url.None? || first.url.value == []) ==>
            o == Failed(NoImageMessage))
  {
  }

  /** The outcome of attempt number `k`; the provider and the downloads are scripted per attempt. */
  function OutcomeAt(req: ImageRequest, send: (ImageRequest, nat) -> ImageReply,
                     download: (string, nat) -> DownloadReply, k: nat): Outcome
  {
    AttemptOutcome(send(req, k), u => download(u, k))
  }

  /** The result of a run together with the number of requests it made. */
  datatype Run = Run(result: Result<string, string>, attempts: nat)

  /** The loop from attempt `k` on, `last` being the message of the latest failure. */
  function RunFrom(req: ImageRequest, send: (ImageRequest, nat) -> ImageReply,
                   download: (string, nat) -> DownloadReply, k: nat, last: Option<string>): (r: Run)
    requires k >= 1
    ensures k <= MaxRetries ==> k <= r.attempts <= MaxRetries
    ensures k > MaxRetries ==> r == Run(Err(last.GetOr(GenericFailure)), MaxRetries)
    ensures r.result.Ok? ==> OutcomeAt(req, send, download, r.attempts) == Image(r.result.value)
    decreases MaxRetries + 1 - k
  {
    if k > MaxRetries then Run(Err(last.GetOr(GenericFailure)), MaxRetries)
    else
      match OutcomeAt(req, send, download, k)
      case Image(b) => Run(Ok(b), k)
      case Timeout => Run(Err(TimeoutMessage), k)
      case Failed(m) => RunFrom(req, send, download, k + 1, Some(m))
  }

  /** `isVolcImageConfigured`: the key is set and not empty. */
  predicate IsConfigured(apiKey: Option<string>) {
    apiKey.Some? && apiKey.value != []
  }

  /** `generateImageFromPrompt` as a value: nothing is sent without a key. */
  function Generated(apiKey: Option<string>, req: ImageRequest, send: (ImageRequest, nat) -> ImageReply,
                     download: (string, nat) -> DownloadReply): (r: Run)
    ensures r.attempts <= MaxRetries
    ensures !IsConfigured(apiKey) ==> r == Run(Err(NoKeyMessage), 0)
  {
    if !IsConfigured(apiKey) then Run(Err(NoKeyMessage), 0)
    else RunFrom(req, send, download, 1, None)
  }

  /** The back-off delays in milliseconds before attempts 2, 3, ...: 1500 times the failed attempt's number. */
  function Backoffs(n: nat): (w: seq<nat>)
    ensures |w| == n && forall i :: 0 <= i < n ==> w[i] == 1500 * (i + 1)
  {
    seq(n, i requires 0 <= i < n => 1500 * (i + 1))
  }

  /**
   * `generateImageFromPrompt`: returns the base64 image or the error message, how many requests
   * were made, and the back-off delays waited (one before each further attempt, none after the last).
   */
  method GenerateImageFromPrompt(apiKey: Option<string>, prompt: string, style: Option<string>, size: Option<string>,
                                 send: (ImageRequest, nat) -> ImageReply, download: (string, nat) -> DownloadReply)
    returns (r: Result<string, string>, attempts: nat, waits: seq<nat>)
    ensures Run(r, attempts) == Generated(apiKey, BuildRequest(prompt, style, size), send, download)
    ensures attempts <= MaxRetries
    ensures waits == Backoffs(if attempts == 0 then 0 else attempts - 1)
  {
    if !IsConfigured(apiKey) {
      return Err(NoKeyMessage), 0, [];
    }
    var req := BuildRequest(prompt, style, size);
    var attempt := 1;
    var last: Option<string> := None;
    waits := [];
    while attempt <= MaxRetries
      invariant 1 <= attempt <= MaxRetries + 1
      invariant RunFrom(req, send, download, attempt, last) == RunFrom(req, send, download, 1, None)
      invariant waits == Backoffs(if attempt <= MaxRetries then attempt - 1 else MaxRetries - 1)
      decreases MaxRetries + 1 - attempt
    {
      match OutcomeAt(req, send, download, attempt)
      case Image(b) =>
        return Ok(b), attempt, waits;
      case Timeout =>
        return Err(TimeoutMessage), attempt, waits;
      case Failed(m) =>
        last := Some(m);
        if attempt < MaxRetries {
          waits := waits + [1500 * attempt];
        }
        attempt := attempt + 1;
    }
    r, attempts := Err(last.GetOr(GenericFailure)), MaxRetries;
  }

  /** A timeout on the first attempt ends the run at once with the timeout message. */
  lemma TimeoutStops(apiKey: string, req: ImageRequest, send: (ImageRequest, nat) -> ImageReply,
                     download: (string, nat) -> DownloadReply)
    requires apiKey != []
    requires OutcomeAt(req, send, download, 1) == Timeout
    ensures Generated(Some(apiKey), req, send, download) == Run(Err(TimeoutMessage), 1)
  {
  }

  /**
   * The run succeeds exactly when the first attempt yields an image, or the first fails without
   * timing out and the second yields one; when both fail, the second failure's message is raised.
   */
  lemma SucceedsExactlyWhen(apiKey: string, req: ImageRequest, send: (ImageRequest, nat) -> ImageReply,
                            download: (string, nat) -> DownloadReply)
    requires apiKey != []
    ensures var o1, o2 := OutcomeAt(req, send, download, 1), OutcomeAt(req, send, download, 2);
      && (Generated(Some(apiKey), req, send, download).result.Ok? <==> o1.Image? || (o1.Failed? && o2.Image?))
      && (o1.Failed? && o2.Failed? ==> Generated(Some(apiKey), req, send, download) == Run(Err(o2.message), 2))
  {
    var o1 := OutcomeAt(req, send, download, 1);
    if o1.Failed? {
      assert RunFrom(req, send, download, 1, None) == RunFrom(req, send, download, 2, Some(o1.message));
    }
  }
}
