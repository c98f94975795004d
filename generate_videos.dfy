/**
 * `POST /api/generate/videos`: every scene whose image is confirmed and whose video is still
 * pending gets a video: a premium image-to-video task submitted from its latest picture while the
 * provider is usable (the row stays `processing` until the task is polled), otherwise a sample clip.
 */
module GenerateVideos {
  import opened Common
  import opened Order
  import opened Database
  import opened Media
  import opened Projects
  import opened Http
  import opened Fallback
  import StoryScenes
  import VolcVideo

  /** The scenes the batch works on. */
  predicate AwaitsVideo(s: Scene) {
    s.imageConfirmed && s.videoStatus == Status.Pending
  }

  function Eligible(scenes: seq<Scene>): seq<Scene> {
    Filter(scenes, AwaitsVideo)
  }

  /** The scripted services a batch consults besides the store. */
  datatype Services = Services(
    volcKey: Option<string>,
    send: VolcVideo.VideoRequest -> VolcVideo.CreateReply,
    sign: string -> string)

  /** One entry of the reply's `results`: a submitted task and the row that waits for it. */
  datatype Submission = Submission(sceneId: string, taskId: string, videoId: string)

  /** The reply body: how many scenes were eligible, and the tasks submitted. */
  datatype Generated = Generated(generated: nat, results: seq<Submission>)

  /** The picture handed to the provider: a signed URL for a stored file, else the row's URL. */
  function ImageUrlOf(img: Image, sign: string -> string): string {
    if img.storagePath != [] then sign(img.storagePath) else img.url
  }

  /** The latest image of a scene, the one the latest-image query returns. */
  function LatestImage(images: seq<Image>, sceneId: string): Option<Image> {
    Latest(ImagesOfScene(images, sceneId), VersionOfImage)
  }

  /**
   * What the provider answers for a scene while it is in use: nothing when the scene has no
   * picture, otherwise the outcome of submitting its latest picture. `create` gives that outcome
   * for an image URL and a scene.
   */
  function Answer(create: (string, Scene) -> Result<VolcVideo.VideoTask, string>, sign: string -> string,
                  images: seq<Image>, s: Scene): Option<Result<VolcVideo.VideoTask, string>>
  {
    match LatestImage(images, s.id)
    case None => None
    case Some(img) => Some(create(ImageUrlOf(img, sign), s))
  }

  /** The step an answer leads to: no picture takes the free path, an outcome is sorted by the route's catch. */
  function StepFor(answer: Option<Result<VolcVideo.VideoTask, string>>): Step<VolcVideo.VideoTask> {
    match answer
    case None => Free
    case Some(r) => Classify(r)
  }

  function ConsultOf(answer: Scene -> Option<Result<VolcVideo.VideoTask, string>>): Scene -> Step<VolcVideo.VideoTask> {
    s => StepFor(answer(s))
  }

  /** The provider's answers over an image table: `answer` gives each scene's. */
  ghost predicate Answers(answer: Scene -> Option<Result<VolcVideo.VideoTask, string>>,
                    create: (string, Scene) -> Result<VolcVideo.VideoTask, string>, sign: string -> string, images: seq<Image>)
  {
    forall s {:trigger Answer(create, sign, images, s)} :: answer(s) == Answer(create, sign, images, s)
  }

  function AnswerOf(create: (string, Scene) -> Result<VolcVideo.VideoTask, string>, sign: string -> string,
                    images: seq<Image>): Scene -> Option<Result<VolcVideo.VideoTask, string>>
  {
    s => Answer(create, sign, images, s)
  }

  /** The submission for a scene: its description as the prompt, 5 seconds, the project style. */
  function CreateOf(sv: Services, style: Option<string>): (string, Scene) -> Result<VolcVideo.VideoTask, string> {
    (url, s: Scene) => VolcVideo.CreateVideoTask(sv.volcKey, url, Some(s.description), Some(5), style, sv.send)
  }

  /** The status a handled scene's video gets: `processing` for a submitted task, else `completed`. */
  function StatusAfter(step: Step<VolcVideo.VideoTask>): Status {
    if step.Premium? then Status.Processing else Status.Completed
  }

  /** The video row a handled scene gets, as the k-th row inserted with `videos` in the table before it. */
  function NewVideo(idOf: nat -> string, k: nat, videos: seq<Video>, s: Scene, step: Step<VolcVideo.VideoTask>, now: int): Video {
    if step.Premium? then Video(idOf(k), s.id, "", "", None, Some(step.value.taskId), NextVideoVersion(videos, s.id))
    else Video(idOf(k), s.id, ExternalPath(s.id, now, ".mp4"), FreeSceneVideoUrl(s.orderIndex), None, None, 1)
  }

  /** A maker of the row a handled scene gets, from its id number, the video table before it, the scene and its step. */
  type RowMaker = (nat, seq<Video>, Scene, Step<VolcVideo.VideoTask>) -> Video

  /** The rows the route inserts: `NewVideo` with the store's ids and the request time. */
  function RowsOf(idOf: nat -> string, now: int): RowMaker {
    (k: nat, videos: seq<Video>, s: Scene, step: Step<VolcVideo.VideoTask>) => NewVideo(idOf, k, videos, s, step, now)
  }

  /** `row` makes the rows `NewVideo` describes. */
  ghost predicate MakesRows(row: RowMaker, idOf: nat -> string, now: int) {
    forall k, videos, s, step {:trigger NewVideo(idOf, k, videos, s, step, now)} ::
      row(k, videos, s, step) == NewVideo(idOf, k, videos, s, step, now)
  }

  lemma RowsOfMakesRows(idOf: nat -> string, now: int)
    ensures MakesRows(RowsOf(idOf, now), idOf, now)
  {
  }

  /** The tables the batch writes, with the reply's list of submitted tasks. */
  datatype Tables = Tables(scenes: seq<Scene>, videos: seq<Video>, serial: nat, results: seq<Submission>)

  function TablesOf(db: Db, results: seq<Submission>): Tables
    reads db
  {
    Tables(db.scenes, db.videos, db.serial, results)
  }

  /**
   * The tables after scene `s` was handled with `step` (not an abort): one new video row, the
   * scene's status, and for a created task a submission naming the new row.
   */
  function Handled(t: Tables, idOf: nat -> string, row: RowMaker, s: Scene, step: Step<VolcVideo.VideoTask>): Tables {
    var v := row(t.serial, t.videos, s, step);
    Tables(UpdateWhere(t.scenes, WithId(s.id), SetVideoStatus(StatusAfter(step))),
           t.videos + [v],
           t.serial + 1,
           t.results + if step.Premium? then [Submission(s.id, step.value.taskId, idOf(t.serial))] else [])
  }

  /** The parts of `Handled`, one by one. */
  lemma HandledIs(t: Tables, idOf: nat -> string, row: RowMaker, s: Scene, step: Step<VolcVideo.VideoTask>)
    ensures var r := Handled(t, idOf, row, s, step);
      && r.scenes == UpdateWhere(t.scenes, WithId(s.id), SetVideoStatus(StatusAfter(step)))
      && r.videos == t.videos + [row(t.serial, t.videos, s, step)] && r.serial == t.serial + 1
      && r.results == t.results + if step.Premium? then [Submission(s.id, step.value.taskId, idOf(t.serial))] else []
  {
  }

  /** The scene rows after the first `k` handled scenes, in turn, got their video status. */
  function StatusesAfter(rows: seq<Scene>, batch: seq<Scene>, steps: seq<Step<VolcVideo.VideoTask>>, k: nat): seq<Scene>
    requires k <= |batch| && k <= |steps|
  {
    if k == 0 then rows
    else UpdateWhere(StatusesAfter(rows, batch, steps, k - 1), WithId(batch[k - 1].id), SetVideoStatus(StatusAfter(steps[k - 1])))
  }

  /** The reply entry of the `j`-th handled scene, a created task: its row has id number `serial + j`. */
  function SubmissionAt(idOf: nat -> string, serial: nat, batch: seq<Scene>, steps: seq<Step<VolcVideo.VideoTask>>, j: nat)
    : Submission
    requires j < |batch| && j < |steps| && steps[j].Premium?
  {
    Submission(batch[j].id, steps[j].value.taskId, idOf(serial + j))
  }

  /** The reply entries of the first `k` handled scenes, in order. */
  function Submitted(idOf: nat -> string, serial: nat, batch: seq<Scene>, steps: seq<Step<VolcVideo.VideoTask>>, k: nat)
    : seq<Submission>
    requires k <= |batch| && k <= |steps|
  {
    if k == 0 then []
    else
      Submitted(idOf, serial, batch, steps, k - 1)
      + if steps[k - 1].Premium? then [SubmissionAt(idOf, serial, batch, steps, k - 1)] else []
  }

  /** The tables after the first `k` scenes of the batch were handled. */
  function HandledFirst(t: Tables, idOf: nat -> string, row: RowMaker, batch: seq<Scene>,
                        steps: seq<Step<VolcVideo.VideoTask>>, k: nat): Tables
    requires k <= |batch| && k <= |steps|
  {
    Tables(StatusesAfter(t.scenes, batch, steps, k),
           t.videos + Appended(t.videos, row, t.serial, batch, steps, k),
           t.serial + k,
           t.results + Submitted(idOf, t.serial, batch, steps, k))
  }

  /** Handling no scene changes nothing. */
  lemma HandledNone(t: Tables, idOf: nat -> string, row: RowMaker, batch: seq<Scene>, steps: seq<Step<VolcVideo.VideoTask>>)
    ensures HandledFirst(t, idOf, row, batch, steps, 0) == t
  {
    assert t.videos + [] == t.videos;
    assert t.results + [] == t.results;
  }

  /** Handling the `k`-th scene after the first `k` gives the first `k + 1`. */
  lemma HandledNext(t: Tables, idOf: nat -> string, row: RowMaker, batch: seq<Scene>, steps: seq<Step<VolcVideo.VideoTask>>, k: nat)
    requires k < |batch| && k < |steps|
    ensures HandledFirst(t, idOf, row, batch, steps, k + 1)
      == Handled(HandledFirst(t, idOf, row, batch, steps, k), idOf, row, batch[k], steps[k])
  {
    var prev := HandledFirst(t, idOf, row, batch, steps, k);
    var added := Appended(t.videos, row, t.serial, batch, steps, k);
    var v := row(t.serial + k, t.videos + added, batch[k], steps[k]);
    HandledIs(prev, idOf, row, batch[k], steps[k]);
    assert Appended(t.videos, row, t.serial, batch, steps, k + 1) == added + [v];
    assert t.videos + (added + [v]) == (t.videos + added) + [v];
    var sub := Submitted(idOf, t.serial, batch, steps, k);
    var more := if steps[k].Premium? then [SubmissionAt(idOf, t.serial, batch, steps, k)] else [];
    assert Submitted(idOf, t.serial, batch, steps, k + 1) == sub + more;
    assert t.results + (sub + more) == (t.results + sub) + more;
  }

  /**
   * The provider's answer for a scene while it is in use: the scene's latest picture is looked up
   * and, when there is one, a task is submitted from it; with no picture the scene takes the free path.
   */
  method ConsultScene(db: Db, create: (string, Scene) -> Result<VolcVideo.VideoTask, string>, sign: string -> string,
                      s: Scene, active: bool)
    returns (step: Step<VolcVideo.VideoTask>)
    ensures step == if active then StepFor(Answer(create, sign, db.images, s)) else Free
  {
    step := Free;
    if active {
      var latest := GetLatestImageBySceneId(db, s.id);
      if latest.Some? {
        step := Classify(create(ImageUrlOf(latest.value, sign), s));
      }
    }
  }

  /**
   * The writes for a handled scene: a created task gets a `processing` row and status and joins
   * `results`; otherwise the sample clip is written as `completed`.
   */
  method WriteScene(db: Db, ghost row: RowMaker, s: Scene, step: Step<VolcVideo.VideoTask>, now: int, results: seq<Submission>)
    returns (results': seq<Submission>)
    requires !step.Abort? && MakesRows(row, db.idOf, now)
    modifies db
    ensures TablesOf(db, results') == Handled(old(TablesOf(db, results)), db.idOf, row, s, step)
    ensures db.projects == old(db.projects) && db.images == old(db.images) && db.objects == old(db.objects)
  {
    ghost var before := TablesOf(db, results);
    ghost var v := NewVideo(db.idOf, db.serial, db.videos, s, step, now);
    assert row(db.serial, db.videos, s, step) == v;
    if step.Premium? {
      var video := CreateProcessingVideo(db, s.id, step.value.taskId);
      StoryScenes.UpdateSceneVideoStatus(db, s.id, Status.Processing);
      results' := results + [Submission(s.id, step.value.taskId, video.id)];
      assert video == v;
    } else {
      var _ := CreateVideo(db, s.id, None, None, Some(s.orderIndex), now);
      StoryScenes.UpdateSceneVideoStatus(db, s.id, Status.Completed);
      results' := results;
    }
    assert db.videos == before.videos + [v];
    HandledIs(before, db.idOf, row, s, step);
  }

  /**
   * One iteration of the loop: the provider is consulted while in use; a "not activated" error or
   * a missing picture falls through to the sample clip; any other error stops the batch with nothing
   * written for this scene.
   */
  method HandleScene(db: Db, create: (string, Scene) -> Result<VolcVideo.VideoTask, string>, sign: string -> string,
                     ghost answer: Scene -> Option<Result<VolcVideo.VideoTask, string>>, ghost row: RowMaker,
                     s: Scene, active: bool, now: int, results: seq<Submission>)
    returns (step: Step<VolcVideo.VideoTask>, results': seq<Submission>)
    requires answer(s) == Answer(create, sign, db.images, s) && MakesRows(row, db.idOf, now)
    modifies db
    ensures step == StepOf(ConsultOf(answer), s, active)
    ensures step.Abort? ==> unchanged(db) && results' == results
    ensures !step.Abort? ==> TablesOf(db, results') == Handled(old(TablesOf(db, results)), db.idOf, row, s, step)
    ensures db.projects == old(db.projects) && db.images == old(db.images) && db.objects == old(db.objects)
  {
    step := ConsultScene(db, create, sign, s, active);
    if step.Abort? {
      return step, results;
    }
    results' := WriteScene(db, row, s, step, now, results);
  }

  /** Where the batch stands after the `i`-th scene took `step`. */
  lemma StepsAdvance(consult: Scene -> Step<VolcVideo.VideoTask>, batch: seq<Scene>, steps: seq<Step<VolcVideo.VideoTask>>,
                     i: nat, active: bool, step: Step<VolcVideo.VideoTask>)
    requires i < |batch| && i <= |steps| && steps[i..] == Steps(consult, batch[i..], active)
    requires step == StepOf(consult, batch[i], active)
    ensures i < |steps| && steps[i] == step
    ensures step.Abort? ==> |steps| == i + 1
    ensures !step.Abort? ==> steps[i + 1..] == Steps(consult, batch[i + 1..], active && !step.NotActivatedThenFree?)
  {
    StepsUnfold(consult, batch, i, active);
    if !step.Abort? {
      assert steps[i + 1..] == steps[i..][1..];
    }
  }

  /** One turn of the batch loop, on the `i`-th eligible scene. */
  method Advance(db: Db, create: (string, Scene) -> Result<VolcVideo.VideoTask, string>, sign: string -> string,
                 ghost answer: Scene -> Option<Result<VolcVideo.VideoTask, string>>, ghost row: RowMaker,
                 batch: seq<Scene>, ghost start: Tables, ghost steps: seq<Step<VolcVideo.VideoTask>>,
                 i: nat, active: bool, now: int, results: seq<Submission>)
    returns (step: Step<VolcVideo.VideoTask>, results': seq<Submission>)
    requires i < |batch| && i <= |steps| && steps[i..] == Steps(ConsultOf(answer), batch[i..], active)
    requires Answers(answer, create, sign, db.images) && MakesRows(row, db.idOf, now)
    requires TablesOf(db, results) == HandledFirst(start, db.idOf, row, batch, steps, i)
    modifies db
    ensures i < |steps| && step == steps[i]
    ensures step.Abort? ==> |steps| == i + 1 && unchanged(db) && results' == results
    ensures !step.Abort? ==>
      && steps[i + 1..] == Steps(ConsultOf(answer), batch[i + 1..], active && !step.NotActivatedThenFree?)
      && TablesOf(db, results') == HandledFirst(start, db.idOf, row, batch, steps, i + 1)
    ensures db.projects == old(db.projects) && db.images == old(db.images) && db.objects == old(db.objects)
  {
    step, results' := HandleScene(db, create, sign, answer, row, batch[i], active, now, results);
    StepsAdvance(ConsultOf(answer), batch, steps, i, active, step);
    if !step.Abort? {
      HandledNext(start, db.idOf, row, batch, steps, i);
    }
  }

  /**
   * The loop over the eligible scenes: the steps taken are `Steps` of the batch, and the tables
   * and `results` are those of the handled scenes, in order.
   */
  method ProcessBatch(db: Db, create: (string, Scene) -> Result<VolcVideo.VideoTask, string>, sign: string -> string,
                      ghost answer: Scene -> Option<Result<VolcVideo.VideoTask, string>>, ghost row: RowMaker,
                      configured: bool, batch: seq<Scene>, now: int)
    returns (aborted: Option<string>, results: seq<Submission>)
    requires Answers(answer, create, sign, db.images) && MakesRows(row, db.idOf, now)
    modifies db
    ensures var steps := Steps(ConsultOf(answer), batch, configured);
      var k := HandledCount(steps, batch);
      && k <= |batch| && k <= |steps|
      && (aborted.Some? <==> Aborted(steps))
      && (aborted.Some? ==> aborted.value == steps[k].message)
      && TablesOf(db, results) == HandledFirst(old(TablesOf(db, [])), db.idOf, row, batch, steps, k)
    ensures db.projects == old(db.projects) && db.images == old(db.images) && db.objects == old(db.objects)
  {
    ghost var start := TablesOf(db, []);
    ghost var images := db.images;
    var active := configured;
    ghost var steps := Steps(ConsultOf(answer), batch, active);
    results := [];
    HandledNone(start, db.idOf, row, batch, steps);
    var i := 0;
    while i < |batch|
      invariant 0 <= i <= |batch| && i <= |steps|
      invariant steps[i..] == Steps(ConsultOf(answer), batch[i..], active)
      invariant i == 0 || !steps[i - 1].Abort?
      invariant TablesOf(db, results) == HandledFirst(start, db.idOf, row, batch, steps, i)
      invariant db.projects == old(db.projects) && db.images == images && db.objects == old(db.objects)
    {
      var step;
      step, results := Advance(db, create, sign, answer, row, batch, start, steps, i, active, now, results);
      if step.Abort? {
        return Some(step.message), results;
      }
      active := active && !step.NotActivatedThenFree?;
      i := i + 1;
    }
    assert |steps| == i;
    aborted := None;
  }

  /**
   * A scene row whose id is not among the handled scenes' is untouched; a row of a handled scene
   * carries the status of the last handled scene with that id; other columns never change.
   */
  lemma {:induction false} StatusesAfterAt(rows: seq<Scene>, batch: seq<Scene>, steps: seq<Step<VolcVideo.VideoTask>>, k: nat)
    requires k <= |batch| && k <= |steps|
    ensures |StatusesAfter(rows, batch, steps, k)| == |rows|
    ensures forall i :: 0 <= i < |rows| ==>
      StatusesAfter(rows, batch, steps, k)[i].(videoStatus := rows[i].videoStatus) == rows[i]
    ensures forall i :: 0 <= i < |rows| && (forall j :: 0 <= j < k ==> batch[j].id != rows[i].id) ==>
      StatusesAfter(rows, batch, steps, k)[i] == rows[i]
    ensures forall i, j :: (0 <= i < |rows| && 0 <= j < k && batch[j].id == rows[i].id
      && forall j' :: j < j' < k ==> batch[j'].id != rows[i].id) ==>
      StatusesAfter(rows, batch, steps, k)[i].videoStatus == StatusAfter(steps[j])
  {
    StatusesAfterColumns(rows, batch, steps, k);
    StatusesAfterUntouched(rows, batch, steps, k);
    StatusesAfterLast(rows, batch, steps, k);
  }

  /** Only the video status column changes, and no row is added or removed. */
  lemma {:induction false} StatusesAfterColumns(rows: seq<Scene>, batch: seq<Scene>, steps: seq<Step<VolcVideo.VideoTask>>, k: nat)
    requires k <= |batch| && k <= |steps|
    ensures |StatusesAfter(rows, batch, steps, k)| == |rows|
    ensures forall i :: 0 <= i < |rows| ==>
      StatusesAfter(rows, batch, steps, k)[i].(videoStatus := rows[i].videoStatus) == rows[i]
  {
    if k > 0 {
      StatusesAfterColumns(rows, batch, steps, k - 1);
      UpdateWhereAt(StatusesAfter(rows, batch, steps, k - 1), WithId(batch[k - 1].id), SetVideoStatus(StatusAfter(steps[k - 1])));
    }
  }

  /** A row whose id is not among the first `k` handled scenes' is untouched. */
  lemma {:induction false} StatusesAfterUntouched(rows: seq<Scene>, batch: seq<Scene>, steps: seq<Step<VolcVideo.VideoTask>>, k: nat)
    requires k <= |batch| && k <= |steps|
    ensures |StatusesAfter(rows, batch, steps, k)| == |rows|
    ensures forall i :: 0 <= i < |rows| && (forall j :: 0 <= j < k ==> batch[j].id != rows[i].id) ==>
      StatusesAfter(rows, batch, steps, k)[i] == rows[i]
  {
    if k > 0 {
      StatusesAfterUntouched(rows, batch, steps, k - 1);
      UpdateWhereAt(StatusesAfter(rows, batch, steps, k - 1), WithId(batch[k - 1].id), SetVideoStatus(StatusAfter(steps[k - 1])));
    }
  }

  /** A row of a handled scene carries the status of the last handled scene with its id. */
  lemma StatusesAfterLast(rows: seq<Scene>, batch: seq<Scene>, steps: seq<Step<VolcVideo.VideoTask>>, k: nat)
    requires k <= |batch| && k <= |steps|
    ensures |StatusesAfter(rows, batch, steps, k)| == |rows|
    ensures forall i, j :: (0 <= i < |rows| && 0 <= j < k && batch[j].id == rows[i].id
      && forall j' :: j < j' < k ==> batch[j'].id != rows[i].id) ==>
      StatusesAfter(rows, batch, steps, k)[i].videoStatus == StatusAfter(steps[j])
  {
    StatusesAfterColumns(rows, batch, steps, k);
    forall i, j | 0 <= i < |rows| && 0 <= j < k && batch[j].id == rows[i].id
      && (forall j' :: j < j' < k ==> batch[j'].id != rows[i].id)
      ensures StatusesAfter(rows, batch, steps, k)[i].videoStatus == StatusAfter(steps[j])
    {
      StatusAfterLastAt(rows, batch, steps, k, i, j);
    }
  }

  /** Row `i` after `k` handled scenes carries the status of scene `j`, the last of them with its id. */
  lemma {:induction false} StatusAfterLastAt(rows: seq<Scene>, batch: seq<Scene>, steps: seq<Step<VolcVideo.VideoTask>>,
                                             k: nat, i: nat, j: nat)
    requires k <= |batch| && k <= |steps|
    requires i < |rows| && j < k && batch[j].id == rows[i].id
    requires forall j' :: j < j' < k ==> batch[j'].id != rows[i].id
    ensures |StatusesAfter(rows, batch, steps, k)| == |rows|
    ensures StatusesAfter(rows, batch, steps, k)[i].videoStatus == StatusAfter(steps[j])
  {
    StatusesAfterColumns(rows, batch, steps, k - 1);
    var prev := StatusesAfter(rows, batch, steps, k - 1);
    UpdateWhereAt(prev, WithId(batch[k - 1].id), SetVideoStatus(StatusAfter(steps[k - 1])));
    assert prev[i].id == rows[i].id;
    if j < k - 1 {
      StatusAfterLastAt(rows, batch, steps, k - 1, i, j);
      assert batch[k - 1].id != rows[i].id;
    }
  }

  /**
   * `v` is the row written for scene `s` with `step`, under id `id`: a created task's row has no
   * file yet and records the task; a free row holds the scene's sample clip as version 1.
   */
  predicate RowFor(v: Video, id: string, s: Scene, step: Step<VolcVideo.VideoTask>) {
    && v.id == id && v.sceneId == s.id
    && (step.Premium? ==> v.storagePath == "" && v.url == "" && v.taskId == Some(step.value.taskId))
    && (!step.Premium? ==> v.url == FreeSceneVideoUrl(s.orderIndex) && v.taskId == None && v.version == 1)
  }

  /** Each handled scene appends one row, in batch order, with the next id. */
  lemma AddedVideosAre(videos: seq<Video>, idOf: nat -> string, serial: nat, batch: seq<Scene>,
                       steps: seq<Step<VolcVideo.VideoTask>>, now: int, k: nat)
    requires k <= |batch| && k <= |steps|
    ensures var r := Appended(videos, RowsOf(idOf, now), serial, batch, steps, k);
      forall j :: 0 <= j < k ==> RowFor(r[j], idOf(serial + j), batch[j], steps[j])
  {
    forall j | 0 <= j < k
      ensures RowFor(Appended(videos, RowsOf(idOf, now), serial, batch, steps, k)[j], idOf(serial + j), batch[j], steps[j])
    {
      AddedVideoAt(videos, idOf, serial, batch, steps, now, k, j);
    }
  }

  /** The `j`-th row appended for the first `k` handled scenes is the one written for scene `j`. */
  lemma {:induction false} AddedVideoAt(videos: seq<Video>, idOf: nat -> string, serial: nat, batch: seq<Scene>,
                                        steps: seq<Step<VolcVideo.VideoTask>>, now: int, k: nat, j: nat)
    requires k <= |batch| && k <= |steps| && j < k
    ensures RowFor(Appended(videos, RowsOf(idOf, now), serial, batch, steps, k)[j], idOf(serial + j), batch[j], steps[j])
  {
    var prev := Appended(videos, RowsOf(idOf, now), serial, batch, steps, k - 1);
    var r := Appended(videos, RowsOf(idOf, now), serial, batch, steps, k);
    if j < k - 1 {
      AddedVideoAt(videos, idOf, serial, batch, steps, now, k - 1, j);
      assert r[j] == prev[j];
    } else {
      var row := NewVideo(idOf, serial + k - 1, videos + prev, batch[k - 1], steps[k - 1], now);
      assert r == prev + [row];
      assert RowFor(row, idOf(serial + k - 1), batch[k - 1], steps[k - 1]);
    }
  }

  /**
   * The reply lists exactly the created tasks, each naming its scene and the id of the row
   * inserted for it.
   */
  lemma SubmittedAreTasks(idOf: nat -> string, serial: nat, batch: seq<Scene>,
                          steps: seq<Step<VolcVideo.VideoTask>>, k: nat)
    requires k <= |batch| && k <= |steps|
    ensures var r := Submitted(idOf, serial, batch, steps, k);
      && (forall x :: x in r ==> exists j :: 0 <= j < k && steps[j].Premium? && x == SubmissionAt(idOf, serial, batch, steps, j))
      && (forall j :: 0 <= j < k && steps[j].Premium? ==> SubmissionAt(idOf, serial, batch, steps, j) in r)
  {
    forall x | x in Submitted(idOf, serial, batch, steps, k)
      ensures exists j :: 0 <= j < k && steps[j].Premium? && x == SubmissionAt(idOf, serial, batch, steps, j)
    {
      SubmittedMember(idOf, serial, batch, steps, k, x);
    }
    forall j | 0 <= j < k && steps[j].Premium?
      ensures SubmissionAt(idOf, serial, batch, steps, j) in Submitted(idOf, serial, batch, steps, k)
    {
      SubmittedIncludes(idOf, serial, batch, steps, k, j);
    }
  }

  /** An entry of the reply after `k` handled scenes is the entry of one of them that created a task. */
  lemma {:induction false} SubmittedMember(idOf: nat -> string, serial: nat, batch: seq<Scene>,
                                           steps: seq<Step<VolcVideo.VideoTask>>, k: nat, x: Submission)
    requires k <= |batch| && k <= |steps|
    requires x in Submitted(idOf, serial, batch, steps, k)
    ensures exists j :: 0 <= j < k && steps[j].Premium? && x == SubmissionAt(idOf, serial, batch, steps, j)
  {
    var prev := Submitted(idOf, serial, batch, steps, k - 1);
    var more := if steps[k - 1].Premium? then [SubmissionAt(idOf, serial, batch, steps, k - 1)] else [];
    assert Submitted(idOf, serial, batch, steps, k) == prev + more;
    if x in prev {
      SubmittedMember(idOf, serial, batch, steps, k - 1, x);
      var j :| 0 <= j < k - 1 && steps[j].Premium? && x == SubmissionAt(idOf, serial, batch, steps, j);
      assert 0 <= j < k;
    } else {
      assert x in more;
      assert steps[k - 1].Premium? && x == SubmissionAt(idOf, serial, batch, steps, k - 1);
    }
  }

  /** Every handled scene that created a task has its entry in the reply. */
  lemma {:induction false} SubmittedIncludes(idOf: nat -> string, serial: nat, batch: seq<Scene>,
                                             steps: seq<Step<VolcVideo.VideoTask>>, k: nat, j: nat)
    requires k <= |batch| && k <= |steps| && j < k && steps[j].Premium?
    ensures SubmissionAt(idOf, serial, batch, steps, j) in Submitted(idOf, serial, batch, steps, k)
  {
    var prev := Submitted(idOf, serial, batch, steps, k - 1);
    var more := if steps[k - 1].Premium? then [SubmissionAt(idOf, serial, batch, steps, k - 1)] else [];
    assert Submitted(idOf, serial, batch, steps, k) == prev + more;
    if j < k - 1 {
      SubmittedIncludes(idOf, serial, batch, steps, k - 1, j);
    } else {
      assert SubmissionAt(idOf, serial, batch, steps, j) in more;
    }
  }

  /** The scenes of a loaded project that the batch handles. */
  function BatchOf(p: ProjectWithScenes): seq<Scene> {
    Eligible(PlainScenes(p.scenes))
  }

  /** The batch's steps for a loaded project over the image table: the provider is in use when its key is set. */
  function StepsOf(sv: Services, p: ProjectWithScenes, images: seq<Image>): seq<Step<VolcVideo.VideoTask>> {
    Steps(ConsultOf(AnswerOf(CreateOf(sv, p.project.style), sv.sign, images)), BatchOf(p), VolcVideo.IsConfigured(sv.volcKey))
  }

  /**
   * `POST /api/generate/videos`. The guards come first and change nothing; a project that is not
   * the caller's is an error (500, with its message). The batch then runs over the eligible scenes;
   * an abort answers 500 with the provider's message and leaves the stage alone. Otherwise the
   * stage is written `videos`, and the reply counts the eligible scenes and lists the submitted tasks.
   */
  method Post(db: Db, user: Option<string>, body: Body, sv: Services, now: int) returns (reply: Reply<Generated>)
    modifies db
    ensures Precheck<Generated>(user, body).Some? ==> reply == Precheck<Generated>(user, body).value && unchanged(db)
    ensures Precheck<Generated>(user, body).None? ==>
      var projectId, userId := body.projectId.value, user.value;
      var loaded := old(Loaded(db, projectId, userId));
      && (loaded.Err? ==> reply == Reply(500, Err(ErrorMessage(loaded.error))) && unchanged(db))
      && (loaded.Ok? ==>
        var batch, steps := BatchOf(loaded.value), StepsOf(sv, loaded.value, old(db.images));
        var k := HandledCount(steps, batch);
        && k <= |batch| && k <= |steps|
        && var t := HandledFirst(old(TablesOf(db, [])), db.idOf, RowsOf(db.idOf, now), batch, steps, k);
        && db.scenes == t.scenes && db.videos == t.videos && db.serial == t.serial
        && db.images == old(db.images) && db.objects == old(db.objects)
        && (Aborted(steps) ==> reply == Reply(500, Err(steps[k].message)) && db.projects == old(db.projects))
        && (!Aborted(steps) ==>
              && (OwnedBy(old(db.projects), projectId, userId) ==>
                    && reply == Reply(200, Ok(Generated(|batch|, t.results)))
                    && db.projects == UpdateProjectRows(old(db.projects), projectId, StageUpdate(Stage.Videos), now))
              && (!OwnedBy(old(db.projects), projectId, userId) ==>
                    reply == Reply(500, Err(ErrorMessage(Unauthorized))) && db.projects == old(db.projects))))
  {
    var guard := Precheck<Generated>(user, body);
    if guard.Some? {
      return guard.value;
    }
    var projectId, userId := body.projectId.value, user.value;
    var loaded := GetProjectById(db, projectId, userId);
    if loaded.Err? {
      return Reply(500, Err(ErrorMessage(loaded.error)));
    }
    var batch := Eligible(PlainScenes(loaded.value.scenes));
    var style := loaded.value.project.style;
    RowsOfMakesRows(db.idOf, now);
    var aborted, results := ProcessBatch(db, CreateOf(sv, style), sv.sign, AnswerOf(CreateOf(sv, style), sv.sign, db.images),
                                           RowsOf(db.idOf, now), VolcVideo.IsConfigured(sv.volcKey), batch, now);
    if aborted.Some? {
      return Reply(500, Err(aborted.value));
    }
    var written := UpdateProject(db, projectId, userId, StageUpdate(Stage.Videos), now);
    if written.Err? {
      return Reply(500, Err(ErrorMessage(written.error)));
    }
    reply := Reply(200, Ok(Generated(|batch|, results)));
  }

  /** The batch is exactly the loaded scenes whose image is confirmed and whose video is pending. */
  lemma BatchIsEligible(p: ProjectWithScenes)
    ensures forall s :: s in BatchOf(p) <==> s in PlainScenes(p.scenes) && AwaitsVideo(s)
  {
  }
}
