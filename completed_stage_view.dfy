/**
 * The completed stage view of a project: the clip list played back to back, the index of the clip
 * playing, and whether and where the exported final video is shown.
 */
module CompletedStageView {
  import opened Common
  import opened Order
  import opened Database
  import Arith

  /** `latestVideo`: none for a scene without videos, else the head of a newest-first sort by version. */
  function LatestVideo(w: SceneWithMedia): (r: Option<Video>)
    ensures r.None? <==> w.videos == []
    ensures r.Some? ==> r.value in w.videos && forall i :: 0 <= i < |w.videos| ==> w.videos[i].version <= r.value.version
  {
    SortedHead(w.videos, VersionOfVideo)
  }

  /** A string the client treats as present (`!!s`): one that is given and not empty. */
  predicate Truthy(s: Option<string>) {
    s.Some? && s.value != ""
  }

  /** `latestVideo(s)?.url`: missing when the scene has no video. */
  function UrlOf(w: SceneWithMedia): Option<string> {
    match LatestVideo(w)
    case Some(v) => Some(v.url)
    case None => None
  }

  /** The clip a scene contributes to continuous play: its newest video's url, when that is present. */
  function ClipOf(w: SceneWithMedia): (r: seq<string>)
    ensures |r| <= 1
  {
    if Truthy(UrlOf(w)) then [UrlOf(w).value] else []
  }

  /** `sceneUrls`: `scenes.map(s => latestVideo(s)?.url).filter(u => !!u)`. */
  function SceneUrls(ws: seq<SceneWithMedia>): seq<string> {
    FlatMap(ws, ClipOf)
  }

  /**
   * The clip list follows the scenes' order: the list of a concatenation is the concatenation of
   * the lists, and one scene gives its newest video's url, or nothing when that url is missing or empty.
   */
  lemma SceneUrlsKeepOrder(a: seq<SceneWithMedia>, b: seq<SceneWithMedia>)
    ensures SceneUrls(a + b) == SceneUrls(a) + SceneUrls(b)
  {
    FlatMapAppend(a, b, ClipOf);
  }

  /** Every clip is a non-empty url, and the list is never longer than the scene list. */
  lemma {:induction false} SceneUrlsArePresent(ws: seq<SceneWithMedia>)
    ensures |SceneUrls(ws)| <= |ws|
    ensures forall i :: 0 <= i < |SceneUrls(ws)| ==> SceneUrls(ws)[i] != ""
  {
    if ws != [] {
      SceneUrlsArePresent(ws[..|ws| - 1]);
    }
  }

  lemma OneSceneUrl(w: SceneWithMedia)
    ensures SceneUrls([w]) == if Truthy(UrlOf(w)) then [UrlOf(w).value] else []
  {
    FlatMapOne(w, ClipOf);
  }

  // ---------- continuous play ----------

  /** `handleContinuousEnded`: the next clip, or back to the first after the last one. */
  function NextIndex(i: int, count: nat): int {
    if i < count - 1 then i + 1 else 0
  }

  /** The index stays on a clip. */
  lemma NextIndexInRange(i: int, count: nat)
    requires 0 <= i < count
    ensures 0 <= NextIndex(i, count) < count
  {
  }

  /** The index after `k` clips have ended, starting from the first clip. */
  function PlayedIndex(k: nat, count: nat): int {
    if k == 0 then 0 else NextIndex(PlayedIndex(k - 1, count), count)
  }

  /** Continuous play cycles through the clips in order: after `k` clips the index is `k mod count`. */
  lemma {:induction false} PlayedIndexCycles(k: nat, count: nat)
    requires count > 0
    ensures PlayedIndex(k, count) == k % count
  {
    if k > 0 {
      PlayedIndexCycles(k - 1, count);
      var i := (k - 1) % count;
      if i < count - 1 {
        assert k % count == i + 1 by { DivStep(k - 1, count); }
      } else {
        assert k % count == 0 by { DivStep(k - 1, count); }
      }
    }
  }

  lemma DivStep(n: nat, count: nat)
    requires count > 0
    ensures (n + 1) % count == if n % count < count - 1 then n % count + 1 else 0
  {
    var q, r := n / count, n % count;
    assert n == count * q + r;
    if r < count - 1 {
      Arith.DivUnique(n + 1, count, q, r + 1);
    } else {
      assert n + 1 == count * (q + 1) + 0;
      Arith.DivUnique(n + 1, count, q + 1, 0);
    }
  }

  // ---------- final video ----------

  /** `hasFinalVideo`: an exported final video is recorded by path or by url. */
  predicate HasFinalVideo(p: Project) {
    Truthy(p.finalVideoPath) || Truthy(p.finalVideoUrl)
  }

  /** `final_video_url ?? resolvedFinalUrl ?? null`: a stored url, even an empty one, wins. */
  function FinalVideoUrl(p: Project, resolved: Option<string>): Option<string> {
    if p.finalVideoUrl.Some? then p.finalVideoUrl else resolved
  }

  /** The effect asks for a signed url unless there is no final video or a stored url, and only with a path. */
  predicate FetchesSignedUrl(p: Project) {
    if !HasFinalVideo(p) || Truthy(p.finalVideoUrl) then false
    else Truthy(p.finalVideoPath)
  }

  /**
   * A signed url is fetched exactly when a path is recorded and no stored url is; the url shown
   * is the stored one whenever there is one, and the fetched one when no url is stored.
   */
  lemma FinalVideoSource(p: Project, resolved: Option<string>)
    ensures FetchesSignedUrl(p) <==> Truthy(p.finalVideoPath) && !Truthy(p.finalVideoUrl)
    ensures FetchesSignedUrl(p) ==> HasFinalVideo(p)
    ensures Truthy(p.finalVideoUrl) ==> FinalVideoUrl(p, resolved) == p.finalVideoUrl && !FetchesSignedUrl(p)
    ensures p.finalVideoUrl.None? ==> FinalVideoUrl(p, resolved) == resolved
  {
  }
}
