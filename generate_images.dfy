/**
 * `POST /api/generate/images`: every scene whose description is confirmed and whose image is
 * still pending gets an image, from the premium generator while it is usable, otherwise from a
 * photo search on the description or, failing that, the scene's placeholder picture.
 */
module GenerateImages {
  import opened Common
  import opened Text
  import opened Database
  import opened Media
  import opened Projects
  import opened Http
  import opened Fallback
  import StoryScenes
  import VolcImage
  import DescriptionQuery
  import Unsplash

  /** The scenes the batch works on. */
  predicate AwaitsImage(s: Scene) {
    s.descriptionConfirmed && s.imageStatus == Status.Pending
  }

  function Eligible(scenes: seq<Scene>): seq<Scene> {
    Order.Filter(scenes, AwaitsImage)
  }

  /** The scripted services a batch consults besides the store. */
  datatype Services = Services(
    volcKey: Option<string>,
    send: (VolcImage.ImageRequest, nat) -> VolcImage.ImageReply,
    download: (string, nat) -> VolcImage.DownloadReply,
    chatKey: bool,
    ask: string -> DescriptionQuery.ChatAnswer,
    unsplashKey: Option<string>,
    search: string -> Unsplash.SearchReply,
    sign: string -> string)

  /** What the premium generator gives for a scene's description at size 2K in the project style. */
  function PremiumResult(sv: Services, style: Option<string>, s: Scene): Result<string, string> {
    VolcImage.Generated(sv.volcKey, VolcImage.BuildRequest(s.description, style, Some("2K")), sv.send, sv.download).result
  }

  /** The free-path URL: a photo found for keywords drawn from the description, else the placeholder. */
  function FreeImageUrl(sv: Services, s: Scene): string {
    var query := DescriptionQuery.ImageSearchQuery(s.description, sv.chatKey, sv.ask);
    Unsplash.PhotoUrlByQuery(query, sv.unsplashKey, sv.search).GetOr(FreeSceneImageUrl(s.id))
  }

  /** The premium generator's result for every scene, as a value. */
  function PremiumOf(sv: Services, style: Option<string>): Scene -> Result<string, string> {
    s => PremiumResult(sv, style, s)
  }

  /** The step of a scene when the premium generator is consulted: its result, sorted by the route's catch. */
  function ConsultOf(premium: Scene -> Result<string, string>): Scene -> Step<string> {
    s => Classify(premium(s))
  }

  /** A premium image's file name: `scene-<id>-<timestamp>.png`. */
  function PremiumFileName(sceneId: string, now: int): string {
    "scene-" + sceneId + "-" + IntToString(now) + ".png"
  }

  /**
   * The image row a handled scene gets, as the k-th row inserted with `images` in the table before it:
   * the uploaded premium picture with the next version, or the free URL as version 1.
   */
  function NewImage(idOf: nat -> string, k: nat, images: seq<Image>, sign: string -> string, free: Scene -> string,
                    userId: string, projectId: string, s: Scene, step: Step<string>, now: int): Image
  {
    if step.Premium? then
      var path := ObjectPath(userId, projectId, PremiumFileName(s.id, now));
      Image(idOf(k), s.id, path, sign(path), None, None, NextImageVersion(images, s.id))
    else
      Image(idOf(k), s.id, ExternalPath(s.id, now, ".jpg"), free(s), None, None, 1)
  }

  /** Writing `processing` and then `completed` leaves the rows as writing `completed` alone. */
  lemma {:induction false} StatusOverwrite(rows: seq<Scene>, id: string, a: Status, b: Status)
    ensures UpdateWhere(UpdateWhere(rows, WithId(id), SetImageStatus(a)), WithId(id), SetImageStatus(b))
         == UpdateWhere(rows, WithId(id), SetImageStatus(b))
  {
    if rows != [] {
      StatusOverwrite(rows[1..], id, a, b);
      var once := UpdateWhere(rows, WithId(id), SetImageStatus(a));
      assert once[1..] == UpdateWhere(rows[1..], WithId(id), SetImageStatus(a));
    }
  }

  /** The image row of a handled scene: the uploaded premium picture, or the free URL. */
  method WriteImage(db: Db, sign: string -> string, free: Scene -> string, userId: string, projectId: string, s: Scene, step: Step<string>, now: int)
    requires !step.Abort?
    modifies db
    ensures db.images == old(db.images) + [NewImage(db.idOf, old(db.serial), old(db.images), sign, free, userId, projectId, s, step, now)]
    ensures db.serial == old(db.serial) + 1
    ensures db.objects == old(db.objects) + (if step.Premium? then {ObjectPath(userId, projectId, PremiumFileName(s.id, now))} else {})
    ensures db.projects == old(db.projects) && db.scenes == old(db.scenes) && db.videos == old(db.videos)
  {
    if step.Premium? {
      var _ := UploadAndCreateImage(db, userId, projectId, s.id, PremiumFileName(s.id, now), None, None, sign);
    } else {
      var _ := CreateImage(db, s.id, Some(free(s)), None, now);
    }
  }

  /**
   * One iteration of the loop: `processing`, then the premium image or the free one, then
   * `completed`; an error other than "not activated" leaves the scene `processing` and adds nothing.
   */
  method HandleScene(db: Db, sign: string -> string, premium: Scene -> Result<string, string>, free: Scene -> string,
                     userId: string, projectId: string, s: Scene, active: bool, now: int)
    returns (step: Step<string>)
    modifies db
    ensures step == StepOf(ConsultOf(premium), s, active)
    ensures step.Abort? ==>
      && db.scenes == UpdateWhere(old(db.scenes), WithId(s.id), SetImageStatus(Status.Processing))
      && db.images == old(db.images) && db.serial == old(db.serial) && db.objects == old(db.objects)
    ensures !step.Abort? ==>
      && db.scenes == UpdateWhere(old(db.scenes), WithId(s.id), SetImageStatus(Status.Completed))
      && db.images == old(db.images) + [NewImage(db.idOf, old(db.serial), old(db.images), sign, free, userId, projectId, s, step, now)]
      && db.serial == old(db.serial) + 1
      && db.objects == old(db.objects) + (if step.Premium? then {ObjectPath(userId, projectId, PremiumFileName(s.id, now))} else {})
    ensures db.projects == old(db.projects) && db.videos == old(db.videos)
  {
    StoryScenes.UpdateSceneImageStatus(db, s.id, Status.Processing);
    step := Free;
    if active {
      step := Classify(premium(s));
    }
    if step.Abort? {
      return;
    }
    WriteImage(db, sign, free, userId, projectId, s, step, now);
    StoryScenes.UpdateSceneImageStatus(db, s.id, Status.Completed);
    StatusOverwrite(old(db.scenes), s.id, Status.Processing, Status.Completed);
  }

  /** The ids of some scenes. */
  function IdsOf(scenes: seq<Scene>): set<string> {
    set s | s in scenes :: s.id
  }

  /** The rows after the first `k` scenes, in turn, were marked image-`completed`. */
  function CompletedFirst(rows: seq<Scene>, scenes: seq<Scene>, k: nat): seq<Scene>
    requires k <= |scenes|
  {
    if k == 0 then rows
    else UpdateWhere(CompletedFirst(rows, scenes, k - 1), WithId(scenes[k - 1].id), SetImageStatus(Status.Completed))
  }

  /** Exactly the rows whose id is one of the handled scenes' ids are `completed`; nothing else changes. */
  lemma CompletedFirstAt(rows: seq<Scene>, scenes: seq<Scene>, k: nat)
    requires k <= |scenes|
    ensures |CompletedFirst(rows, scenes, k)| == |rows|
    ensures forall i :: 0 <= i < |rows| ==>
      CompletedFirst(rows, scenes, k)[i]
        == if rows[i].id in IdsOf(scenes[..k]) then rows[i].(imageStatus := Status.Completed) else rows[i]
  {
    CompletedFirstLength(rows, scenes, k);
    forall i | 0 <= i < |rows|
      ensures CompletedFirst(rows, scenes, k)[i]
        == if rows[i].id in IdsOf(scenes[..k]) then rows[i].(imageStatus := Status.Completed) else rows[i]
    {
      CompletedRowAt(rows, scenes, k, i);
    }
  }

  lemma {:induction false} CompletedFirstLength(rows: seq<Scene>, scenes: seq<Scene>, k: nat)
    requires k <= |scenes|
    ensures |CompletedFirst(rows, scenes, k)| == |rows|
  {
    if k > 0 {
      CompletedFirstLength(rows, scenes, k - 1);
      UpdateWhereAt(CompletedFirst(rows, scenes, k - 1), WithId(scenes[k - 1].id), SetImageStatus(Status.Completed));
    }
  }

  /** Row `i` after the first `k` scenes is `completed` exactly when its id is one of theirs. */
  lemma {:induction false} CompletedRowAt(rows: seq<Scene>, scenes: seq<Scene>, k: nat, i: nat)
    requires k <= |scenes| && i < |rows|
    ensures |CompletedFirst(rows, scenes, k)| == |rows|
    ensures CompletedFirst(rows, scenes, k)[i]
      == if rows[i].id in IdsOf(scenes[..k]) then rows[i].(imageStatus := Status.Completed) else rows[i]
  {
    CompletedFirstLength(rows, scenes, k);
    if k > 0 {
      CompletedRowAt(rows, scenes, k - 1, i);
      UpdateWhereAt(CompletedFirst(rows, scenes, k - 1), WithId(scenes[k - 1].id), SetImageStatus(Status.Completed));
      assert scenes[..k] == scenes[..k - 1] + [scenes[k - 1]];
      assert IdsOf(scenes[..k]) == IdsOf(scenes[..k - 1]) + {scenes[k - 1].id};
    }
  }

  /** How a batch makes the image row of a handled scene, given its id number and the image table before it. */
  type ImageMaker = (nat, seq<Image>, Scene, Step<string>) -> Image

  /** The rows the route inserts: `NewImage` with the store's ids, the caller's folder and the request time. */
  function ImagesOf(idOf: nat -> string, sign: string -> string, free: Scene -> string, userId: string, projectId: string,
                    now: int): ImageMaker {
    (k: nat, images: seq<Image>, s: Scene, step: Step<string>) => NewImage(idOf, k, images, sign, free, userId, projectId, s, step, now)
  }

  /** `image` makes the rows `NewImage` describes. */
  ghost predicate MakesImages(image: ImageMaker, idOf: nat -> string, sign: string -> string, free: Scene -> string,
                              userId: string, projectId: string, now: int) {
    forall k, images, s, step {:trigger NewImage(idOf, k, images, sign, free, userId, projectId, s, step, now)} ::
      image(k, images, s, step) == NewImage(idOf, k, images, sign, free, userId, projectId, s, step, now)
  }

  lemma ImagesOfMakesImages(idOf: nat -> string, sign: string -> string, free: Scene -> string, userId: string,
                            projectId: string, now: int)
    ensures MakesImages(ImagesOf(idOf, sign, free, userId, projectId, now), idOf, sign, free, userId, projectId, now)
  {
  }

  /** The storage path of every scene's premium picture, in the caller's project folder. */
  function UploadsOf(userId: string, projectId: string, now: int): Scene -> string {
    (s: Scene) => ObjectPath(userId, projectId, PremiumFileName(s.id, now))
  }

  /** `path` gives the storage paths the premium uploads use. */
  ghost predicate MakesPaths(path: Scene -> string, userId: string, projectId: string, now: int) {
    forall s: Scene {:trigger PremiumFileName(s.id, now)} :: path(s) == ObjectPath(userId, projectId, PremiumFileName(s.id, now))
  }

  lemma UploadsOfMakesPaths(userId: string, projectId: string, now: int)
    ensures MakesPaths(UploadsOf(userId, projectId, now), userId, projectId, now)
  {
  }

  /** The storage paths of the premium pictures uploaded for the first `k` handled scenes. */
  function PremiumPaths(path: Scene -> string, scenes: seq<Scene>, steps: seq<Step<string>>, k: nat): set<string>
    requires k <= |scenes| && k <= |steps|
  {
    if k == 0 then {}
    else PremiumPaths(path, scenes, steps, k - 1) + (if steps[k - 1].Premium? then {path(scenes[k - 1])} else {})
  }

  /** The tables the batch writes. */
  datatype Tables = Tables(scenes: seq<Scene>, images: seq<Image>, serial: nat, objects: set<string>)

  function TablesOf(db: Db): Tables
    reads db
  {
    Tables(db.scenes, db.images, db.serial, db.objects)
  }

  /**
   * The tables after scene `s` was handled with `step` (not an abort): the scene is `completed`,
   * it has one new image row, and a premium picture is uploaded.
   */
  function Handled(t: Tables, image: ImageMaker, path: Scene -> string, s: Scene, step: Step<string>): Tables {
    Tables(UpdateWhere(t.scenes, WithId(s.id), SetImageStatus(Status.Completed)),
           t.images + [image(t.serial, t.images, s, step)],
           t.serial + 1,
           t.objects + if step.Premium? then {path(s)} else {})
  }

  /** The tables after an abort on scene `s`: the scene is left `processing`. */
  function Interrupted(t: Tables, s: Scene): Tables {
    t.(scenes := UpdateWhere(t.scenes, WithId(s.id), SetImageStatus(Status.Processing)))
  }

  /** The tables after the first `k` scenes of the batch were handled. */
  function HandledFirst(t: Tables, image: ImageMaker, path: Scene -> string, batch: seq<Scene>, steps: seq<Step<string>>,
                        k: nat): Tables
    requires k <= |batch| && k <= |steps|
  {
    Tables(CompletedFirst(t.scenes, batch, k),
           t.images + Appended(t.images, image, t.serial, batch, steps, k),
           t.serial + k,
           t.objects + PremiumPaths(path, batch, steps, k))
  }

  /** Handling no scene changes nothing. */
  lemma HandledNone(t: Tables, image: ImageMaker, path: Scene -> string, batch: seq<Scene>, steps: seq<Step<string>>)
    ensures HandledFirst(t, image, path, batch, steps, 0) == t
  {
    assert t.images + [] == t.images;
  }

  /** Handling the `k`-th scene after the first `k` gives the first `k + 1`. */
  lemma HandledNext(t: Tables, image: ImageMaker, path: Scene -> string, batch: seq<Scene>, steps: seq<Step<string>>, k: nat)
    requires k < |batch| && k < |steps|
    ensures HandledFirst(t, image, path, batch, steps, k + 1)
      == Handled(HandledFirst(t, image, path, batch, steps, k), image, path, batch[k], steps[k])
  {
    var added := Appended(t.images, image, t.serial, batch, steps, k);
    var row := image(t.serial + k, t.images + added, batch[k], steps[k]);
    assert Appended(t.images, image, t.serial, batch, steps, k + 1) == added + [row];
    assert t.images + (added + [row]) == (t.images + added) + [row];
  }

  /**
   * The `j`-th row the route appends belongs to the `j`-th handled scene under the `j`-th new id:
   * a premium row holds the uploaded picture and its signed URL, a free row the free URL as version 1.
   */
  lemma AddedImagesAre(images: seq<Image>, idOf: nat -> string, serial: nat, sign: string -> string, free: Scene -> string,
                       userId: string, projectId: string, batch: seq<Scene>, steps: seq<Step<string>>, now: int, k: nat)
    requires k <= |batch| && k <= |steps|
    ensures var r := Appended(images, ImagesOf(idOf, sign, free, userId, projectId, now), serial, batch, steps, k);
      forall j :: 0 <= j < k ==> ImageFor(r[j], idOf(serial + j), sign, free, userId, projectId, batch[j], steps[j], now)
  {
    forall j | 0 <= j < k
      ensures ImageFor(Appended(images, ImagesOf(idOf, sign, free, userId, projectId, now), serial, batch, steps, k)[j],
                       idOf(serial + j), sign, free, userId, projectId, batch[j], steps[j], now)
    {
      AddedImageAt(images, idOf, serial, sign, free, userId, projectId, batch, steps, now, k, j);
    }
  }

  /** `v` is the row written for scene `s` with `step` under id `id`. */
  predicate ImageFor(v: Image, id: string, sign: string -> string, free: Scene -> string, userId: string, projectId: string,
                     s: Scene, step: Step<string>, now: int) {
    && v.id == id && v.sceneId == s.id
    && (step.Premium? ==>
          var path := ObjectPath(userId, projectId, PremiumFileName(s.id, now));
          v.storagePath == path && v.url == sign(path))
    && (!step.Premium? ==> v.url == free(s) && v.version == 1)
  }

  lemma {:induction false} AddedImageAt(images: seq<Image>, idOf: nat -> string, serial: nat, sign: string -> string,
                                        free: Scene -> string, userId: string, projectId: string, batch: seq<Scene>,
                                        steps: seq<Step<string>>, now: int, k: nat, j: nat)
    requires k <= |batch| && k <= |steps| && j < k
    ensures ImageFor(Appended(images, ImagesOf(idOf, sign, free, userId, projectId, now), serial, batch, steps, k)[j],
                     idOf(serial + j), sign, free, userId, projectId, batch[j], steps[j], now)
  {
    var image := ImagesOf(idOf, sign, free, userId, projectId, now);
    var prev := Appended(images, image, serial, batch, steps, k - 1);
    var r := Appended(images, image, serial, batch, steps, k);
    if j < k - 1 {
      AddedImageAt(images, idOf, serial, sign, free, userId, projectId, batch, steps, now, k - 1, j);
      assert r[j] == prev[j];
    } else {
      var row := NewImage(idOf, serial + k - 1, images + prev, sign, free, userId, projectId, batch[k - 1], steps[k - 1], now);
      assert r == prev + [row];
    }
  }

  /** The uploads are exactly the premium pictures of the handled scenes. */
  lemma {:induction false} PremiumPathsAre(userId: string, projectId: string, batch: seq<Scene>, steps: seq<Step<string>>,
                                           now: int, k: nat, p: string)
    requires k <= |batch| && k <= |steps|
    ensures p in PremiumPaths(UploadsOf(userId, projectId, now), batch, steps, k)
      <==> exists j :: 0 <= j < k && steps[j].Premium? && p == ObjectPath(userId, projectId, PremiumFileName(batch[j].id, now))
  {
    if k > 0 {
      PremiumPathsAre(userId, projectId, batch, steps, now, k - 1, p);
      if p == ObjectPath(userId, projectId, PremiumFileName(batch[k - 1].id, now)) && steps[k - 1].Premium? {
        assert 0 <= k - 1 < k;
      }
    }
  }

  /** Where the batch stands after the `i`-th scene took `step`. */
  lemma StepsAdvance(consult: Scene -> Step<string>, batch: seq<Scene>, steps: seq<Step<string>>, i: nat, active: bool,
                     step: Step<string>)
    requires i < |batch| && i <= |steps| && steps[i..] == Steps(consult, batch[i..], active)
    requires step == StepOf(consult, batch[i], active)
    ensures i < |steps| && steps[i] == step
    ensures step.Abort? ==> |steps| == i + 1
    ensures !step.Abort? ==> steps[i + 1..] == Steps(consult, batch[i + 1..], active && !step.NotActivatedThenFree?)
  {
    StepsUnfold(consult, batch, i, active);
    if !step.Abort? {
      assert steps[i + 1..] == steps[i..][1..];
    }
  }

  /** One turn of the batch loop, on the `i`-th eligible scene. */
  method Advance(db: Db, sign: string -> string, premium: Scene -> Result<string, string>, free: Scene -> string,
                 userId: string, projectId: string, batch: seq<Scene>, ghost start: Tables, ghost steps: seq<Step<string>>,
                 ghost image: ImageMaker, ghost path: Scene -> string, i: nat, active: bool, now: int)
    returns (step: Step<string>)
    requires i < |batch| && i <= |steps| && steps[i..] == Steps(ConsultOf(premium), batch[i..], active)
    requires MakesImages(image, db.idOf, sign, free, userId, projectId, now) && MakesPaths(path, userId, projectId, now)
    requires TablesOf(db) == HandledFirst(start, image, path, batch, steps, i)
    modifies db
    ensures i < |steps| && step == steps[i]
    ensures step.Abort? ==>
      |steps| == i + 1 && TablesOf(db) == Interrupted(HandledFirst(start, image, path, batch, steps, i), batch[i])
    ensures !step.Abort? ==>
      && steps[i + 1..] == Steps(ConsultOf(premium), batch[i + 1..], active && !step.NotActivatedThenFree?)
      && TablesOf(db) == HandledFirst(start, image, path, batch, steps, i + 1)
    ensures db.projects == old(db.projects) && db.videos == old(db.videos)
  {
    step := HandleScene(db, sign, premium, free, userId, projectId, batch[i], active, now);
    StepsAdvance(ConsultOf(premium), batch, steps, i, active, step);
    if !step.Abort? {
      HandledNext(start, image, path, batch, steps, i);
    }
  }

  /**
   * The loop over the eligible scenes: the steps taken are `Steps` of the batch; the tables are
   * those of the handled scenes; on an abort the failing scene is left `processing`.
   */
  method ProcessBatch(db: Db, sign: string -> string, premium: Scene -> Result<string, string>, free: Scene -> string,
                      ghost image: ImageMaker, ghost path: Scene -> string, configured: bool, userId: string,
                      projectId: string, batch: seq<Scene>, now: int)
    returns (aborted: Option<string>)
    requires MakesImages(image, db.idOf, sign, free, userId, projectId, now) && MakesPaths(path, userId, projectId, now)
    modifies db
    ensures var steps := Steps(ConsultOf(premium), batch, configured);
      var k := HandledCount(steps, batch);
      && k <= |batch| && k <= |steps|
      && (aborted.Some? <==> Aborted(steps))
      && (aborted.Some? ==>
            aborted.value == steps[k].message
            && TablesOf(db) == Interrupted(HandledFirst(old(TablesOf(db)), image, path, batch, steps, k), batch[k]))
      && (aborted.None? ==> TablesOf(db) == HandledFirst(old(TablesOf(db)), image, path, batch, steps, k))
    ensures db.projects == old(db.projects) && db.videos == old(db.videos)
  {
    ghost var start := TablesOf(db);
    var active := configured;
    ghost var steps := Steps(ConsultOf(premium), batch, active);
    HandledNone(start, image, path, batch, steps);
    var i := 0;
    while i < |batch|
      invariant 0 <= i <= |batch| && i <= |steps|
      invariant steps[i..] == Steps(ConsultOf(premium), batch[i..], active)
      invariant i == 0 || !steps[i - 1].Abort?
      invariant TablesOf(db) == HandledFirst(start, image, path, batch, steps, i)
      invariant db.projects == old(db.projects) && db.videos == old(db.videos)
    {
      var step := Advance(db, sign, premium, free, userId, projectId, batch, start, steps, image, path, i, active, now);
      if step.Abort? {
        return Some(step.message);
      }
      active := active && !step.NotActivatedThenFree?;
      i := i + 1;
    }
    assert |steps| == i;
    aborted := None;
  }

  /** The free-path URL of every scene, as a value. */
  function FreeOf(sv: Services): Scene -> string {
    s => FreeImageUrl(sv, s)
  }

  /** The scenes of a loaded project that the batch handles. */
  function BatchOf(p: ProjectWithScenes): seq<Scene> {
    Eligible(PlainScenes(p.scenes))
  }

  /** The batch's steps for a loaded project: the premium generator is in use when its key is set. */
  function StepsOf(sv: Services, p: ProjectWithScenes): seq<Step<string>> {
    Steps(ConsultOf(PremiumOf(sv, p.project.style)), BatchOf(p), VolcImage.IsConfigured(sv.volcKey))
  }

  /**
   * `POST /api/generate/images`. The guards come first and change nothing; a project that is not
   * the caller's is an error (500, with its message). The batch then runs over the eligible scenes;
   * an abort answers 500 with the provider's message and leaves the stage alone. Otherwise the
   * stage is written `images`, whatever it was, and the reply counts the eligible scenes.
   */
  method Post(db: Db, user: Option<string>, body: Body, sv: Services, now: int) returns (reply: Reply<nat>)
    modifies db
    ensures Precheck<nat>(user, body).Some? ==> reply == Precheck<nat>(user, body).value && unchanged(db)
    ensures Precheck<nat>(user, body).None? ==>
      var projectId, userId := body.projectId.value, user.value;
      var loaded := old(Loaded(db, projectId, userId));
      && (loaded.Err? ==> reply == Reply(500, Err(ErrorMessage(loaded.error))) && unchanged(db))
      && (loaded.Ok? ==>
        var batch, steps := BatchOf(loaded.value), StepsOf(sv, loaded.value);
        var k := HandledCount(steps, batch);
        var t := HandledFirst(old(TablesOf(db)), ImagesOf(db.idOf, sv.sign, FreeOf(sv), userId, projectId, now),
                              UploadsOf(userId, projectId, now), batch, steps, k);
        && k <= |batch| && k <= |steps|
        && db.videos == old(db.videos)
        && (Aborted(steps) ==>
              && reply == Reply(500, Err(steps[k].message))
              && TablesOf(db) == Interrupted(t, batch[k])
              && db.projects == old(db.projects))
        && (!Aborted(steps) ==>
              && TablesOf(db) == t
              && (OwnedBy(old(db.projects), projectId, userId) ==>
                    && reply == Reply(200, Ok(|batch|))
                    && db.projects == UpdateProjectRows(old(db.projects), projectId, StageUpdate(Stage.Images), now))
              && (!OwnedBy(old(db.projects), projectId, userId) ==>
                    reply == Reply(500, Err(ErrorMessage(Unauthorized))) && db.projects == old(db.projects))))
  {
    var guard := Precheck<nat>(user, body);
    if guard.Some? {
      return guard.value;
    }
    var projectId, userId := body.projectId.value, user.value;
    var loaded := GetProjectById(db, projectId, userId);
    if loaded.Err? {
      return Reply(500, Err(ErrorMessage(loaded.error)));
    }
    var batch := Eligible(PlainScenes(loaded.value.scenes));
    var style := loaded.value.project.style;
    ImagesOfMakesImages(db.idOf, sv.sign, FreeOf(sv), userId, projectId, now);
    UploadsOfMakesPaths(userId, projectId, now);
    var aborted := ProcessBatch(db, sv.sign, PremiumOf(sv, style), FreeOf(sv), ImagesOf(db.idOf, sv.sign, FreeOf(sv), userId, projectId, now),
                                UploadsOf(userId, projectId, now), VolcImage.IsConfigured(sv.volcKey), userId, projectId, batch, now);
    if aborted.Some? {
      return Reply(500, Err(aborted.value));
    }
    var written := UpdateProject(db, projectId, userId, StageUpdate(Stage.Images), now);
    if written.Err? {
      return Reply(500, Err(ErrorMessage(written.error)));
    }
    reply := Reply(200, Ok(|batch|));
  }

  /** The batch is exactly the loaded scenes whose description is confirmed and whose image is pending. */
  lemma BatchIsEligible(p: ProjectWithScenes)
    ensures forall s :: s in BatchOf(p) <==> s in PlainScenes(p.scenes) && AwaitsImage(s)
  {
  }
}
