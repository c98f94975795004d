/**
 * The videos stage view of a project: the newest video shown per scene, the scenes whose video
 * task is polled, the end of a polling round, and the gating of its two buttons.
 */
module VideosStageView {
  import opened Common
  import opened Order
  import opened Database
  import GenerateVideos
  import CompletedStageView

  // ---------- polling ----------

  /** One task the view polls: its scene, the provider's task id and the video row to complete. */
  datatype TaskItem = TaskItem(sceneId: string, taskId: string, videoId: string)

  /** A task id is used only when it is a non-empty string (`v?.task_id` is truthy). */
  predicate HasTask(v: Video) {
    v.taskId.Some? && v.taskId.value != ""
  }

  predicate VideoProcessing(w: SceneWithMedia) {
    w.scene.videoStatus == Status.Processing
  }

  /** The target a scene contributes: its newest video's task, when that video has one. */
  function TargetOf(w: SceneWithMedia): (r: seq<TaskItem>)
    ensures |r| <= 1
  {
    match CompletedStageView.LatestVideo(w)
    case Some(v) => if HasTask(v) then [TaskItem(w.scene.id, v.taskId.value, v.id)] else []
    case None => []
  }

  /** The polling targets of a loaded project: the targets of its processing scenes. */
  function PollTargets(p: ProjectWithScenes): seq<TaskItem> {
    FlatMap(Filter(p.scenes, VideoProcessing), TargetOf)
  }

  /** The view's effect: collect, scene by processing scene, the task of its newest video. */
  method CollectPollTargets(p: ProjectWithScenes) returns (results: seq<TaskItem>)
    ensures results == PollTargets(p)
  {
    var processing := Filter(p.scenes, VideoProcessing);
    results := [];
    var i := 0;
    while i < |processing|
      invariant 0 <= i <= |processing|
      invariant results == FlatMap(processing[..i], TargetOf)
    {
      var piece := TaskOfScene(processing[i]);
      results := results + piece;
      assert processing[..i + 1][..i] == processing[..i];
      i := i + 1;
    }
    assert processing[..i] == processing;
  }

  /** One turn of the loop: sort the scene's videos newest first and take the head's task, if it has one. */
  method TaskOfScene(s: SceneWithMedia) returns (piece: seq<TaskItem>)
    ensures piece == TargetOf(s)
  {
    var list := SortDesc(s.videos, VersionOfVideo);
    piece := [];
    if list != [] {
      var v := list[0];
      if v.taskId.Some? && v.taskId.value != "" {
        piece := [TaskItem(s.scene.id, v.taskId.value, v.id)];
      }
    }
  }

  /** `t` is the task of `w`'s newest video, and `w` is processing. */
  predicate PolledFor(w: SceneWithMedia, t: TaskItem) {
    && VideoProcessing(w)
    && CompletedStageView.LatestVideo(w).Some? && HasTask(CompletedStageView.LatestVideo(w).value)
    && t == TaskItem(w.scene.id, CompletedStageView.LatestVideo(w).value.taskId.value, CompletedStageView.LatestVideo(w).value.id)
  }

  lemma TargetOfIs(w: SceneWithMedia, t: TaskItem)
    requires VideoProcessing(w)
    ensures TargetOf(w) == [t] <==> PolledFor(w, t)
  {
  }

  /**
   * The polling targets are exactly the processing scenes whose newest video has a task, one target
   * each, carrying that scene's id, the task id and the video's id.
   */
  lemma PollTargetsExact(p: ProjectWithScenes, t: TaskItem)
    ensures t in PollTargets(p) <==> exists k :: 0 <= k < |p.scenes| && PolledFor(p.scenes[k], t)
    ensures |PollTargets(p)| <= |Filter(p.scenes, VideoProcessing)|
  {
    InFlatMap(Filter(p.scenes, VideoProcessing), TargetOf, t);
    if t in PollTargets(p) {
      TargetIsPolled(p, t);
    }
    if exists k :: 0 <= k < |p.scenes| && PolledFor(p.scenes[k], t) {
      var k :| 0 <= k < |p.scenes| && PolledFor(p.scenes[k], t);
      PolledIsTarget(p, t, k);
    }
  }

  lemma TargetIsPolled(p: ProjectWithScenes, t: TaskItem)
    requires t in PollTargets(p)
    ensures exists k :: 0 <= k < |p.scenes| && PolledFor(p.scenes[k], t)
  {
    var processing := Filter(p.scenes, VideoProcessing);
    InFlatMap(processing, TargetOf, t);
    var k :| 0 <= k < |processing| && TargetOf(processing[k]) == [t];
    FilterFrom(p.scenes, VideoProcessing, k);
    var j :| 0 <= j < |p.scenes| && p.scenes[j] == processing[k] && VideoProcessing(p.scenes[j]);
    TargetOfIs(p.scenes[j], t);
  }

  lemma PolledIsTarget(p: ProjectWithScenes, t: TaskItem, k: nat)
    requires k < |p.scenes| && PolledFor(p.scenes[k], t)
    ensures t in PollTargets(p)
  {
    var processing := Filter(p.scenes, VideoProcessing);
    TargetOfIs(p.scenes[k], t);
    FilterKeeps(p.scenes, VideoProcessing, k);
    var j :| 0 <= j < |processing| && processing[j] == p.scenes[k];
    InFlatMap(processing, TargetOf, t);
  }

  /** The task route's reply as the view reads it: `{ data: { status } }` or `{ status }`, any part missing. */
  datatype PollData = PollData(status: Option<string>)
  datatype PollBody = PollBody(data: Option<PollData>, status: Option<string>)

  const StillProcessing: string := "processing"

  /** `j?.data?.status ?? j?.status ?? "processing"`. */
  function PolledStatus(j: Option<PollBody>): (r: string)
  {
    if j.Some? && j.value.data.Some? && j.value.data.value.status.Some? then j.value.data.value.status.value
    else if j.Some? && j.value.status.Some? then j.value.status.value
    else StillProcessing
  }

  /** A reply is silent when it carries a status nowhere. */
  predicate Silent(j: Option<PollBody>) {
    j.None? || ((j.value.data.None? || j.value.data.value.status.None?) && j.value.status.None?)
  }

  /** The nested status wins over the outer one; a silent reply reads as still processing. */
  lemma PolledStatusPrefersData(j: Option<PollBody>)
    ensures j.Some? && j.value.data.Some? && j.value.data.value.status.Some? ==>
      PolledStatus(j) == j.value.data.value.status.value
    ensures Silent(j) ==> PolledStatus(j) == StillProcessing
    ensures !Silent(j) ==>
      Some(PolledStatus(j)) == j.value.status || (j.value.data.Some? && Some(PolledStatus(j)) == j.value.data.value.status)
  {
    if !Silent(j) {
      if j.value.data.Some? && j.value.data.value.status.Some? {
        assert j.value.data.value.status == Some(PolledStatus(j));
      } else {
        assert j.value.status == Some(PolledStatus(j));
      }
    }
  }

  predicate Finished(status: string) {
    status == "completed" || status == "failed"
  }

  /** `statuses.every(s => s.status === "completed" || s.status === "failed")`. */
  predicate AllDone(statuses: seq<string>) {
    forall i :: 0 <= i < |statuses| ==> Finished(statuses[i])
  }

  function StatusesOf(replies: seq<Option<PollBody>>): (r: seq<string>)
    ensures |r| == |replies| && forall i :: 0 <= i < |replies| ==> r[i] == PolledStatus(replies[i])
  {
    seq(|replies|, i requires 0 <= i < |replies| => PolledStatus(replies[i]))
  }

  /** A polling round ends only when no reply is silent; then exactly when every task has finished. */
  lemma RoundEndsWhenAllFinished(replies: seq<Option<PollBody>>)
    ensures (exists k :: 0 <= k < |replies| && Silent(replies[k])) ==> !AllDone(StatusesOf(replies))
    ensures AllDone(StatusesOf(replies)) <==> forall k :: 0 <= k < |replies| ==> Finished(PolledStatus(replies[k]))
  {
    var statuses := StatusesOf(replies);
    if exists k :: 0 <= k < |replies| && Silent(replies[k]) {
      var k :| 0 <= k < |replies| && Silent(replies[k]);
      PolledStatusPrefersData(replies[k]);
      assert !Finished(statuses[k]);
    }
  }

  // ---------- buttons ----------

  predicate VideoPending(w: SceneWithMedia) {
    w.scene.videoStatus == Status.Pending
  }

  predicate VideoCompleted(w: SceneWithMedia) {
    w.scene.videoStatus == Status.Completed
  }

  predicate NeedsVideo(w: SceneWithMedia) {
    w.scene.imageConfirmed && w.scene.videoStatus == Status.Pending
  }

  /** `needGenerate`: the number of scenes with a confirmed image and a pending video. */
  function NeedGenerate(p: ProjectWithScenes): nat {
    |Filter(p.scenes, NeedsVideo)|
  }

  /** `allVideosDone`: no pending scene and at least one completed one. */
  predicate AllVideosDone(p: ProjectWithScenes) {
    |Filter(p.scenes, VideoPending)| == 0 && |Filter(p.scenes, VideoCompleted)| > 0
  }

  predicate GenerateDisabled(loading: bool, p: ProjectWithScenes) {
    loading || NeedGenerate(p) == 0
  }

  predicate ConfirmShown(p: ProjectWithScenes) {
    AllVideosDone(p)
  }

  /** The view's selection and the generation route's batch select the same scenes. */
  lemma {:induction false} NeedsVideoIsBatch(ws: seq<SceneWithMedia>)
    ensures GenerateVideos.Eligible(PlainScenes(ws)) == PlainScenes(Filter(ws, NeedsVideo))
  {
    if ws != [] {
      NeedsVideoIsBatch(ws[1..]);
      assert PlainScenes(ws) == [ws[0].scene] + PlainScenes(ws[1..]);
      assert PlainScenes(ws)[1..] == PlainScenes(ws[1..]);
      if NeedsVideo(ws[0]) {
        assert PlainScenes([ws[0]] + Filter(ws[1..], NeedsVideo))
          == [ws[0].scene] + PlainScenes(Filter(ws[1..], NeedsVideo));
      }
    }
  }

  /**
   * `needGenerate` counts exactly the scenes the generation route handles, so the button is usable
   * (once no request runs) if and only if that route has work.
   */
  lemma NeedGenerateCountsBatch(p: ProjectWithScenes)
    ensures NeedGenerate(p) == |GenerateVideos.BatchOf(p)|
    ensures !GenerateDisabled(false, p) <==> GenerateVideos.BatchOf(p) != []
  {
    NeedsVideoIsBatch(p.scenes);
  }

  /** All videos are done exactly when no scene's video is pending and some scene's video is completed. */
  lemma AllVideosDoneMeans(p: ProjectWithScenes)
    ensures AllVideosDone(p) <==>
      (forall i :: 0 <= i < |p.scenes| ==> !VideoPending(p.scenes[i]))
      && (exists i :: 0 <= i < |p.scenes| && VideoCompleted(p.scenes[i]))
  {
    var pending, completed := Filter(p.scenes, VideoPending), Filter(p.scenes, VideoCompleted);
    if |completed| > 0 {
      assert completed[0] in p.scenes;
    }
    if exists i :: 0 <= i < |p.scenes| && VideoCompleted(p.scenes[i]) {
      var i :| 0 <= i < |p.scenes| && VideoCompleted(p.scenes[i]);
      assert p.scenes[i] in completed;
    }
    if |pending| > 0 {
      assert pending[0] in p.scenes;
    }
  }
}
