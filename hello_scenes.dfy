/**
 * The scene data-access layer of the hello-nextjs application: batch creation, queries, per-scene
 * writes (each a single-row update that fails when the row is missing), bulk confirmations that
 * only confirm completed media, resets, replace-all deletion and the count queries.
 */
module HelloScenes {
  import opened Common
  import opened Order
  import opened Database

  /** The `code` of a `SceneError`. */
  datatype SceneError = NotFound | Unauthorized | DatabaseError

  /** What a single-row `.update(...).eq("id", id).select().single()` returns. */
  function SingleResult(rows: seq<Scene>, id: string, p: ScenePatch): Result<Scene, SceneError> {
    var hits := Selected(rows, WithId(id));
    if |hits| == 1 then Ok(Apply(p, hits[0])) else Err(DatabaseError)
  }

  /** The table after that single-row update: unchanged when it fails. */
  function SingleTable(rows: seq<Scene>, id: string, p: ScenePatch): seq<Scene> {
    if |Selected(rows, WithId(id))| == 1 then UpdateWhere(rows, WithId(id), p) else rows
  }

  method CreateScenes(db: Db, projectId: string, items: seq<SceneInput>) returns (created: seq<Scene>)
    modifies db
    ensures created == NewScenes(db.idOf, old(db.serial), projectId, items)
    ensures db.scenes == old(db.scenes) + created && db.serial == old(db.serial) + |items|
    ensures db.projects == old(db.projects) && db.images == old(db.images)
    ensures db.videos == old(db.videos) && db.objects == old(db.objects)
  {
    created := NewScenes(db.idOf, db.serial, projectId, items);
    db.scenes := db.scenes + created;
    db.serial := db.serial + |items|;
  }

  method GetScenesByProjectId(db: Db, projectId: string) returns (r: seq<Scene>)
    ensures SortedAsc(r, OrderIndexOf)
    ensures multiset(r) == multiset(Selected(db.scenes, OfProject(projectId)))
  {
    r := ScenesOfProject(db.scenes, projectId);
  }

  method GetScenesWithMediaByProjectId(db: Db, projectId: string) returns (r: seq<SceneWithMedia>)
    ensures r == WithMedia(ScenesOfProject(db.scenes, projectId), db.images, db.videos)
  {
    var scenes := ScenesOfProject(db.scenes, projectId);
    if scenes == [] {
      return [];
    }
    r := WithMedia(scenes, db.images, db.videos);
  }

  /** `.single()` reports PGRST116 when no row (or more than one) has the id. */
  method GetSceneById(db: Db, sceneId: string) returns (r: Result<Scene, SceneError>)
    ensures var hits := Selected(db.scenes, WithId(sceneId));
      if |hits| == 1 then r == Ok(hits[0]) else r == Err(NotFound)
  {
    var hits := Selected(db.scenes, WithId(sceneId));
    if |hits| == 1 {
      r := Ok(hits[0]);
    } else {
      r := Err(NotFound);
    }
  }

  method UpdateSingle(db: Db, sceneId: string, p: ScenePatch) returns (r: Result<Scene, SceneError>)
    modifies db
    ensures r == SingleResult(old(db.scenes), sceneId, p)
    ensures db.scenes == SingleTable(old(db.scenes), sceneId, p)
    ensures db.serial == old(db.serial) && db.projects == old(db.projects)
    ensures db.images == old(db.images) && db.videos == old(db.videos) && db.objects == old(db.objects)
  {
    var row := UpdateSceneById(db, sceneId, p);
    match row
    case Some(s) => r := Ok(s);
    case None => r := Err(DatabaseError);
  }

  method UpdateSceneDescription(db: Db, sceneId: string, description: string) returns (r: Result<Scene, SceneError>)
    modifies db
    ensures r == SingleResult(old(db.scenes), sceneId, SetDescription(description))
    ensures db.scenes == SingleTable(old(db.scenes), sceneId, SetDescription(description))
    ensures db.serial == old(db.serial) && db.projects == old(db.projects)
    ensures db.images == old(db.images) && db.videos == old(db.videos) && db.objects == old(db.objects)
  {
    r := UpdateSingle(db, sceneId, SetDescription(description));
  }

  method ConfirmSceneDescription(db: Db, sceneId: string) returns (r: Result<Scene, SceneError>)
    modifies db
    ensures r == SingleResult(old(db.scenes), sceneId, ConfirmDescription)
    ensures db.scenes == SingleTable(old(db.scenes), sceneId, ConfirmDescription)
    ensures db.serial == old(db.serial) && db.projects == old(db.projects)
    ensures db.images == old(db.images) && db.videos == old(db.videos) && db.objects == old(db.objects)
  {
    r := UpdateSingle(db, sceneId, ConfirmDescription);
  }

  method UpdateSceneImageStatus(db: Db, sceneId: string, status: Status) returns (r: Result<Scene, SceneError>)
    modifies db
    ensures r == SingleResult(old(db.scenes), sceneId, SetImageStatus(status))
    ensures db.scenes == SingleTable(old(db.scenes), sceneId, SetImageStatus(status))
    ensures db.serial == old(db.serial) && db.projects == old(db.projects)
    ensures db.images == old(db.images) && db.videos == old(db.videos) && db.objects == old(db.objects)
  {
    r := UpdateSingle(db, sceneId, SetImageStatus(status));
  }

  method ConfirmSceneImage(db: Db, sceneId: string) returns (r: Result<Scene, SceneError>)
    modifies db
    ensures r == SingleResult(old(db.scenes), sceneId, ConfirmImage)
    ensures db.scenes == SingleTable(old(db.scenes), sceneId, ConfirmImage)
    ensures db.serial == old(db.serial) && db.projects == old(db.projects)
    ensures db.images == old(db.images) && db.videos == old(db.videos) && db.objects == old(db.objects)
  {
    r := UpdateSingle(db, sceneId, ConfirmImage);
  }

  method UpdateSceneVideoStatus(db: Db, sceneId: string, status: Status) returns (r: Result<Scene, SceneError>)
    modifies db
    ensures r == SingleResult(old(db.scenes), sceneId, SetVideoStatus(status))
    ensures db.scenes == SingleTable(old(db.scenes), sceneId, SetVideoStatus(status))
    ensures db.serial == old(db.serial) && db.projects == old(db.projects)
    ensures db.images == old(db.images) && db.videos == old(db.videos) && db.objects == old(db.objects)
  {
    r := UpdateSingle(db, sceneId, SetVideoStatus(status));
  }

  method ConfirmSceneVideo(db: Db, sceneId: string) returns (r: Result<Scene, SceneError>)
    modifies db
    ensures r == SingleResult(old(db.scenes), sceneId, ConfirmVideo)
    ensures db.scenes == SingleTable(old(db.scenes), sceneId, ConfirmVideo)
    ensures db.serial == old(db.serial) && db.projects == old(db.projects)
    ensures db.images == old(db.images) && db.videos == old(db.videos) && db.objects == old(db.objects)
  {
    r := UpdateSingle(db, sceneId, ConfirmVideo);
  }

  /** Resets the image to `pending` and un-confirms it in one write; the video fields stay. */
  method ResetSceneImageStatus(db: Db, sceneId: string) returns (r: Result<Scene, SceneError>)
    modifies db
    ensures r == SingleResult(old(db.scenes), sceneId, ResetImage)
    ensures db.scenes == SingleTable(old(db.scenes), sceneId, ResetImage)
    ensures ConfirmedAreCompleted(old(db.scenes)) ==> ConfirmedAreCompleted(db.scenes)
    ensures db.serial == old(db.serial) && db.projects == old(db.projects)
    ensures db.images == old(db.images) && db.videos == old(db.videos) && db.objects == old(db.objects)
  {
    if ConfirmedAreCompleted(db.scenes) {
      UpdateKeepsConfirmedCompleted(db.scenes, WithId(sceneId), ResetImage);
    }
    r := UpdateSingle(db, sceneId, ResetImage);
  }

  method ResetSceneVideoStatus(db: Db, sceneId: string) returns (r: Result<Scene, SceneError>)
    modifies db
    ensures r == SingleResult(old(db.scenes), sceneId, ResetVideo)
    ensures db.scenes == SingleTable(old(db.scenes), sceneId, ResetVideo)
    ensures ConfirmedAreCompleted(old(db.scenes)) ==> ConfirmedAreCompleted(db.scenes)
    ensures db.serial == old(db.serial) && db.projects == old(db.projects)
    ensures db.images == old(db.images) && db.videos == old(db.videos) && db.objects == old(db.objects)
  {
    if ConfirmedAreCompleted(db.scenes) {
      UpdateKeepsConfirmedCompleted(db.scenes, WithId(sceneId), ResetVideo);
    }
    r := UpdateSingle(db, sceneId, ResetVideo);
  }

  /** Confirms every description of the project and returns how many rows it touched. */
  method ConfirmAllDescriptions(db: Db, projectId: string) returns (count: nat)
    modifies db
    ensures db.scenes == UpdateWhere(old(db.scenes), OfProject(projectId), ConfirmDescription)
    ensures count == |Selected(old(db.scenes), OfProject(projectId))|
    ensures db.serial == old(db.serial) && db.projects == old(db.projects)
    ensures db.images == old(db.images) && db.videos == old(db.videos) && db.objects == old(db.objects)
  {
    var touched := UpdateScenesWhere(db, OfProject(projectId), ConfirmDescription);
    count := |touched|;
  }

  /** The bulk image confirmation: only the project's scenes whose image is `completed`. */
  function ConfirmAllImagesTable(rows: seq<Scene>, projectId: string): seq<Scene> {
    UpdateWhere(rows, OfProjectWithImageStatus(projectId, Status.Completed), ConfirmImage)
  }

  function ConfirmAllVideosTable(rows: seq<Scene>, projectId: string): seq<Scene> {
    UpdateWhere(rows, OfProjectWithVideoStatus(projectId, Status.Completed), ConfirmVideo)
  }

  method ConfirmAllImages(db: Db, projectId: string) returns (count: nat)
    modifies db
    ensures db.scenes == ConfirmAllImagesTable(old(db.scenes), projectId)
    ensures count == |Selected(old(db.scenes), OfProjectWithImageStatus(projectId, Status.Completed))|
    ensures ConfirmedAreCompleted(old(db.scenes)) ==> ConfirmedAreCompleted(db.scenes)
    ensures db.serial == old(db.serial) && db.projects == old(db.projects)
    ensures db.images == old(db.images) && db.videos == old(db.videos) && db.objects == old(db.objects)
  {
    if ConfirmedAreCompleted(db.scenes) {
      UpdateKeepsConfirmedCompleted(db.scenes, OfProjectWithImageStatus(projectId, Status.Completed), ConfirmImage);
    }
    var touched := UpdateScenesWhere(db, OfProjectWithImageStatus(projectId, Status.Completed), ConfirmImage);
    count := |touched|;
  }

  method ConfirmAllVideos(db: Db, projectId: string) returns (count: nat)
    modifies db
    ensures db.scenes == ConfirmAllVideosTable(old(db.scenes), projectId)
    ensures count == |Selected(old(db.scenes), OfProjectWithVideoStatus(projectId, Status.Completed))|
    ensures ConfirmedAreCompleted(old(db.scenes)) ==> ConfirmedAreCompleted(db.scenes)
    ensures db.serial == old(db.serial) && db.projects == old(db.projects)
    ensures db.images == old(db.images) && db.videos == old(db.videos) && db.objects == old(db.objects)
  {
    if ConfirmedAreCompleted(db.scenes) {
      UpdateKeepsConfirmedCompleted(db.scenes, OfProjectWithVideoStatus(projectId, Status.Completed), ConfirmVideo);
    }
    var touched := UpdateScenesWhere(db, OfProjectWithVideoStatus(projectId, Status.Completed), ConfirmVideo);
    count := |touched|;
  }

  /**
   * The bulk image confirmation changes no column but `image_confirmed`, and a scene ends up
   * confirmed exactly when it already was or it belongs to the project with a completed image.
   */
  lemma ConfirmAllImagesExactly(rows: seq<Scene>, projectId: string)
    ensures |ConfirmAllImagesTable(rows, projectId)| == |rows|
    ensures forall i :: 0 <= i < |rows| ==>
      var after := ConfirmAllImagesTable(rows, projectId)[i];
      && after == rows[i].(imageConfirmed := after.imageConfirmed)
      && (after.imageConfirmed <==>
          rows[i].imageConfirmed || (rows[i].projectId == projectId && rows[i].imageStatus == Status.Completed))
  {
    UpdateWhereAt(rows, OfProjectWithImageStatus(projectId, Status.Completed), ConfirmImage);
  }

  lemma ConfirmAllVideosExactly(rows: seq<Scene>, projectId: string)
    ensures |ConfirmAllVideosTable(rows, projectId)| == |rows|
    ensures forall i :: 0 <= i < |rows| ==>
      var after := ConfirmAllVideosTable(rows, projectId)[i];
      && after == rows[i].(videoConfirmed := after.videoConfirmed)
      && (after.videoConfirmed <==>
          rows[i].videoConfirmed || (rows[i].projectId == projectId && rows[i].videoStatus == Status.Completed))
  {
    UpdateWhereAt(rows, OfProjectWithVideoStatus(projectId, Status.Completed), ConfirmVideo);
  }

  /** A second bulk image confirmation leaves the table as the first left it and reports the same count. */
  lemma ConfirmAllImagesTwice(rows: seq<Scene>, projectId: string)
    ensures ConfirmAllImagesTable(ConfirmAllImagesTable(rows, projectId), projectId) == ConfirmAllImagesTable(rows, projectId)
    ensures |Selected(ConfirmAllImagesTable(rows, projectId), OfProjectWithImageStatus(projectId, Status.Completed))|
         == |Selected(rows, OfProjectWithImageStatus(projectId, Status.Completed))|
  {
    UpdateWhereIdempotent(rows, OfProjectWithImageStatus(projectId, Status.Completed), ConfirmImage);
    UpdateWhereKeepsSelection(rows, OfProjectWithImageStatus(projectId, Status.Completed), ConfirmImage);
  }

  lemma ConfirmAllVideosTwice(rows: seq<Scene>, projectId: string)
    ensures ConfirmAllVideosTable(ConfirmAllVideosTable(rows, projectId), projectId) == ConfirmAllVideosTable(rows, projectId)
    ensures |Selected(ConfirmAllVideosTable(rows, projectId), OfProjectWithVideoStatus(projectId, Status.Completed))|
         == |Selected(rows, OfProjectWithVideoStatus(projectId, Status.Completed))|
  {
    UpdateWhereIdempotent(rows, OfProjectWithVideoStatus(projectId, Status.Completed), ConfirmVideo);
    UpdateWhereKeepsSelection(rows, OfProjectWithVideoStatus(projectId, Status.Completed), ConfirmVideo);
  }

  /** Removes every scene of the project and returns how many there were before. */
  method DeleteScenesByProjectId(db: Db, projectId: string) returns (count: nat)
    modifies db
    ensures count == |Selected(old(db.scenes), OfProject(projectId))|
    ensures db.scenes == OtherProjects(old(db.scenes), projectId)
    ensures Selected(db.scenes, OfProject(projectId)) == [] && count + |db.scenes| == |old(db.scenes)|
    ensures db.images == ImagesOutside(old(db.images), SceneIdsOf(old(db.scenes), projectId))
    ensures db.videos == VideosOutside(old(db.videos), SceneIdsOf(old(db.scenes), projectId))
    ensures db.serial == old(db.serial) && db.projects == old(db.projects) && db.objects == old(db.objects)
  {
    count := |Selected(db.scenes, OfProject(projectId))|;
    OtherProjectsCount(db.scenes, projectId);
    DeleteScenesOf(db, projectId);
  }

  method GetConfirmedDescriptionCount(db: Db, projectId: string) returns (count: nat)
    ensures count == |Selected(db.scenes, OfProjectWithDescriptionConfirmed(projectId))|
  {
    count := |Selected(db.scenes, OfProjectWithDescriptionConfirmed(projectId))|;
  }

  method GetCompletedImageCount(db: Db, projectId: string) returns (count: nat)
    ensures count == |Selected(db.scenes, OfProjectWithImageStatus(projectId, Status.Completed))|
  {
    count := |Selected(db.scenes, OfProjectWithImageStatus(projectId, Status.Completed))|;
  }

  method GetCompletedVideoCount(db: Db, projectId: string) returns (count: nat)
    ensures count == |Selected(db.scenes, OfProjectWithVideoStatus(projectId, Status.Completed))|
  {
    count := |Selected(db.scenes, OfProjectWithVideoStatus(projectId, Status.Completed))|;
  }
}
