/**
 * Scene description to image-search keywords: the text model is asked for one to three English
 * keywords; any failure, and every case without a model, falls back to a cut of the description.
 */
module DescriptionQuery {
  import opened Common
  import opened Text

  /** The generic keywords used whenever nothing better is available. */
  const Generic: string := "story scene"

  /** White space collapsed and trimmed, cut to 30 characters. */
  function FallbackCut(description: string): string {
    Take(Trim(CollapseSpaces(description)), 30)
  }

  /**
   * `fallbackQuery`: the cut, unless it holds a CJK ideograph (image search does poorly on
   * Chinese) or is empty, in which case the generic keywords.
   */
  function FallbackQuery(description: string): (r: string)
    ensures r != [] && |r| <= 30 && !HasCjk(r)
    ensures HasCjk(FallbackCut(description)) || FallbackCut(description) == [] ==> r == Generic
    ensures !HasCjk(FallbackCut(description)) && FallbackCut(description) != [] ==> r == FallbackCut(description)
  {
    var s := FallbackCut(description);
    if HasCjk(s) || s == [] then GenericHasNoCjk(); Generic else s
  }

  lemma GenericHasNoCjk()
    ensures !HasCjk(Generic)
  {
    forall i | 0 <= i < |Generic| ensures !IsCjk(Generic[i]) {
    }
  }

  /** How the chat-completions request ended. */
  datatype ChatAnswer =
    | Threw
    | NotOk
    /** `choices?.[0]?.message?.content`, absent anywhere along the path as None. */
    | Replied(content: Option<string>)

  /** The user message sent with the description. */
  function KeywordPrompt(trimmed: string): string {
    PromptHead + trimmed
  }

  const PromptHead: string := "Convert this scene description to 1-3 English image search keywords only, comma-separated:\n\n"

  /** The model's answer when it is usable: trimmed, not empty, at most 80 characters. */
  function Accepted(answer: ChatAnswer): (r: Option<string>)
    ensures r.Some? <==> (answer.Replied? && answer.content.Some?
      && Trim(answer.content.value) != [] && |Trim(answer.content.value)| <= 80)
    ensures r.Some? ==> r.value == Trim(answer.content.value)
  {
    match answer
    case Replied(Some(c)) =>
      var t := Trim(c);
      if t != [] && |t| <= 80 then Some(t) else None
    case _ => None
  }

  /**
   * `getImageSearchQuery`: a blank description gives the generic keywords; otherwise the first 500
   * characters of the trimmed description go to the model (when a key is configured), whose usable
   * answer wins; everything else falls back.
   */
  function ImageSearchQuery(description: string, hasKey: bool, ask: string -> ChatAnswer): (r: string)
    ensures r != [] && |r| <= 80
    ensures AllSpace(description) ==> r == Generic
    ensures !AllSpace(description) && !hasKey ==> r == FallbackQuery(Take(Trim(description), 500))
  {
    var trimmed := Take(Trim(description), 500);
    if trimmed == [] then Generic
    else if !hasKey then FallbackQuery(trimmed)
    else
      match Accepted(ask(KeywordPrompt(trimmed)))
      case Some(t) => t
      case None => FallbackQuery(trimmed)
  }

  /**
   * With a key and a non-blank description the model's answer is used exactly when it is usable;
   * a thrown request, a failed status, a missing, blank or over-long answer all fall back.
   */
  lemma AnswerUsedExactlyWhenUsable(description: string, ask: string -> ChatAnswer)
    requires !AllSpace(description)
    ensures var trimmed := Take(Trim(description), 500);
      var answer := ask(KeywordPrompt(trimmed));
      && (Accepted(answer).Some? ==> ImageSearchQuery(description, true, ask) == Trim(answer.content.value))
      && (Accepted(answer).None? ==> ImageSearchQuery(description, true, ask) == FallbackQuery(trimmed))
  {
    assert Take(Trim(description), 500) != [];
  }

  /** Only the first 500 characters of the trimmed description matter. */
  lemma OnlyFirst500Matter(a: string, b: string, hasKey: bool, ask: string -> ChatAnswer)
    requires Take(Trim(a), 500) == Take(Trim(b), 500)
    requires !AllSpace(a)
    ensures !AllSpace(b)
    ensures ImageSearchQuery(a, hasKey, ask) == ImageSearchQuery(b, hasKey, ask)
  {
    assert Take(Trim(a), 500) != [];
  }
}
