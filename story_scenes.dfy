/**
 * The scene data-access layer of story-to-video-app: the same table operations as the hello-nextjs
 * variant, except that the bulk confirmations confirm every scene of the project whatever its
 * status, return nothing, and the status writes ignore store errors.
 */
module StoryScenes {
  import opened Common
  import opened Order
  import opened Database

  datatype SceneError = NotFound | Unauthorized | DatabaseError

  method CreateScenes(db: Db, projectId: string, items: seq<SceneInput>) returns (created: seq<Scene>)
    modifies db
    ensures created == NewScenes(db.idOf, old(db.serial), projectId, items)
    ensures db.scenes == old(db.scenes) + created && db.serial == old(db.serial) + |items|
    ensures db.projects == old(db.projects) && db.images == old(db.images)
    ensures db.videos == old(db.videos) && db.objects == old(db.objects)
  {
    created := NewScenes(db.idOf, db.serial, projectId, items);
    db.scenes := db.scenes + created;
    db.serial := db.serial + |items|;
  }

  method GetScenesByProjectId(db: Db, projectId: string) returns (r: seq<Scene>)
    ensures SortedAsc(r, OrderIndexOf)
    ensures multiset(r) == multiset(Selected(db.scenes, OfProject(projectId)))
  {
    r := ScenesOfProject(db.scenes, projectId);
  }

  /** Any failure of the single-row read, a missing row included, is reported as `not_found`. */
  method GetSceneById(db: Db, sceneId: string) returns (r: Result<Scene, SceneError>)
    ensures var hits := Selected(db.scenes, WithId(sceneId));
      if |hits| == 1 then r == Ok(hits[0]) else r == Err(NotFound)
  {
    var hits := Selected(db.scenes, WithId(sceneId));
    if |hits| == 1 {
      r := Ok(hits[0]);
    } else {
      r := Err(NotFound);
    }
  }

  function SingleResult(rows: seq<Scene>, id: string, p: ScenePatch): Result<Scene, SceneError> {
    var hits := Selected(rows, WithId(id));
    if |hits| == 1 then Ok(Apply(p, hits[0])) else Err(DatabaseError)
  }

  function SingleTable(rows: seq<Scene>, id: string, p: ScenePatch): seq<Scene> {
    if |Selected(rows, WithId(id))| == 1 then UpdateWhere(rows, WithId(id), p) else rows
  }

  method UpdateSingle(db: Db, sceneId: string, p: ScenePatch) returns (r: Result<Scene, SceneError>)
    modifies db
    ensures r == SingleResult(old(db.scenes), sceneId, p)
    ensures db.scenes == SingleTable(old(db.scenes), sceneId, p)
    ensures db.serial == old(db.serial) && db.projects == old(db.projects)
    ensures db.images == old(db.images) && db.videos == old(db.videos) && db.objects == old(db.objects)
  {
    var row := UpdateSceneById(db, sceneId, p);
    match row
    case Some(s) => r := Ok(s);
    case None => r := Err(DatabaseError);
  }

  method UpdateSceneDescription(db: Db, sceneId: string, description: string) returns (r: Result<Scene, SceneError>)
    modifies db
    ensures r == SingleResult(old(db.scenes), sceneId, SetDescription(description))
    ensures db.scenes == SingleTable(old(db.scenes), sceneId, SetDescription(description))
    ensures db.serial == old(db.serial) && db.projects == old(db.projects)
    ensures db.images == old(db.images) && db.videos == old(db.videos) && db.objects == old(db.objects)
  {
    r := UpdateSingle(db, sceneId, SetDescription(description));
  }

  method ConfirmSceneDescription(db: Db, sceneId: string) returns (r: Result<Scene, SceneError>)
    modifies db
    ensures r == SingleResult(old(db.scenes), sceneId, ConfirmDescription)
    ensures db.scenes == SingleTable(old(db.scenes), sceneId, ConfirmDescription)
    ensures db.serial == old(db.serial) && db.projects == old(db.projects)
    ensures db.images == old(db.images) && db.videos == old(db.videos) && db.objects == old(db.objects)
  {
    r := UpdateSingle(db, sceneId, ConfirmDescription);
  }

  method ConfirmSceneImage(db: Db, sceneId: string) returns (r: Result<Scene, SceneError>)
    modifies db
    ensures r == SingleResult(old(db.scenes), sceneId, ConfirmImage)
    ensures db.scenes == SingleTable(old(db.scenes), sceneId, ConfirmImage)
    ensures db.serial == old(db.serial) && db.projects == old(db.projects)
    ensures db.images == old(db.images) && db.videos == old(db.videos) && db.objects == old(db.objects)
  {
    r := UpdateSingle(db, sceneId, ConfirmImage);
  }

  method ConfirmSceneVideo(db: Db, sceneId: string) returns (r: Result<Scene, SceneError>)
    modifies db
    ensures r == SingleResult(old(db.scenes), sceneId, ConfirmVideo)
    ensures db.scenes == SingleTable(old(db.scenes), sceneId, ConfirmVideo)
    ensures db.serial == old(db.serial) && db.projects == old(db.projects)
    ensures db.images == old(db.images) && db.videos == old(db.videos) && db.objects == old(db.objects)
  {
    r := UpdateSingle(db, sceneId, ConfirmVideo);
  }

  /** The bulk confirmations of this variant: every scene of the project, whatever its status. */
  function ConfirmAllTable(rows: seq<Scene>, projectId: string, p: ScenePatch): seq<Scene> {
    UpdateWhere(rows, OfProject(projectId), p)
  }

  method ConfirmAllDescriptions(db: Db, projectId: string)
    modifies db
    ensures db.scenes == ConfirmAllTable(old(db.scenes), projectId, ConfirmDescription)
    ensures db.serial == old(db.serial) && db.projects == old(db.projects)
    ensures db.images == old(db.images) && db.videos == old(db.videos) && db.objects == old(db.objects)
  {
    var _ := UpdateScenesWhere(db, OfProject(projectId), ConfirmDescription);
  }

  method ConfirmAllImages(db: Db, projectId: string)
    modifies db
    ensures db.scenes == ConfirmAllTable(old(db.scenes), projectId, ConfirmImage)
    ensures db.serial == old(db.serial) && db.projects == old(db.projects)
    ensures db.images == old(db.images) && db.videos == old(db.videos) && db.objects == old(db.objects)
  {
    var _ := UpdateScenesWhere(db, OfProject(projectId), ConfirmImage);
  }

  method ConfirmAllVideos(db: Db, projectId: string)
    modifies db
    ensures db.scenes == ConfirmAllTable(old(db.scenes), projectId, ConfirmVideo)
    ensures db.serial == old(db.serial) && db.projects == old(db.projects)
    ensures db.images == old(db.images) && db.videos == old(db.videos) && db.objects == old(db.objects)
  {
    var _ := UpdateScenesWhere(db, OfProject(projectId), ConfirmVideo);
  }

  /**
   * A bulk confirmation of this variant sets its flag on every scene of the project and on no
   * other scene, and changes no other column.
   */
  lemma ConfirmAllExactly(rows: seq<Scene>, projectId: string, p: ScenePatch)
    requires p.ConfirmDescription? || p.ConfirmImage? || p.ConfirmVideo?
    ensures |ConfirmAllTable(rows, projectId, p)| == |rows|
    ensures forall i :: 0 <= i < |rows| ==>
      ConfirmAllTable(rows, projectId, p)[i] == if rows[i].projectId == projectId then Apply(p, rows[i]) else rows[i]
    ensures forall i :: 0 <= i < |rows| && rows[i].projectId == projectId ==>
      var after := ConfirmAllTable(rows, projectId, p)[i];
      && (p.ConfirmDescription? ==> after.descriptionConfirmed)
      && (p.ConfirmImage? ==> after.imageConfirmed)
      && (p.ConfirmVideo? ==> after.videoConfirmed)
  {
    UpdateWhereAt(rows, OfProject(projectId), p);
  }

  /**
   * Unlike the hello-nextjs variant, bulk image confirmation can confirm an image that was never
   * generated: a freshly created scene ends up confirmed while still `pending`.
   */
  lemma ConfirmAllImagesConfirmsPending()
    ensures var rows := NewScenes(k => "scene", 0, "project", [SceneInput(1, "dawn")]);
      && ConfirmedAreCompleted(rows)
      && !ConfirmedAreCompleted(ConfirmAllTable(rows, "project", ConfirmImage))
  {
    var rows := NewScenes(k => "scene", 0, "project", [SceneInput(1, "dawn")]);
    UpdateWhereAt(rows, OfProject("project"), ConfirmImage);
    assert ConfirmAllTable(rows, "project", ConfirmImage)[0].imageStatus == Status.Pending;
  }

  method DeleteScenesByProjectId(db: Db, projectId: string)
    modifies db
    ensures db.scenes == OtherProjects(old(db.scenes), projectId)
    ensures Selected(db.scenes, OfProject(projectId)) == []
    ensures forall i :: 0 <= i < |old(db.scenes)| && old(db.scenes)[i].projectId != projectId ==> old(db.scenes)[i] in db.scenes
    ensures db.images == ImagesOutside(old(db.images), SceneIdsOf(old(db.scenes), projectId))
    ensures db.videos == VideosOutside(old(db.videos), SceneIdsOf(old(db.scenes), projectId))
    ensures db.serial == old(db.serial) && db.projects == old(db.projects) && db.objects == old(db.objects)
  {
    OtherProjectsCount(db.scenes, projectId);
    DeleteScenesOf(db, projectId);
  }

  /** `.update({ image_status }).eq("id", sceneId)` without `.single()`: no error is raised, even when no row matches. */
  method UpdateSceneImageStatus(db: Db, sceneId: string, status: Status)
    modifies db
    ensures db.scenes == UpdateWhere(old(db.scenes), WithId(sceneId), SetImageStatus(status))
    ensures db.serial == old(db.serial) && db.projects == old(db.projects)
    ensures db.images == old(db.images) && db.videos == old(db.videos) && db.objects == old(db.objects)
  {
    var _ := UpdateScenesWhere(db, WithId(sceneId), SetImageStatus(status));
  }

  method UpdateSceneVideoStatus(db: Db, sceneId: string, status: Status)
    modifies db
    ensures db.scenes == UpdateWhere(old(db.scenes), WithId(sceneId), SetVideoStatus(status))
    ensures db.serial == old(db.serial) && db.projects == old(db.projects)
    ensures db.images == old(db.images) && db.videos == old(db.videos) && db.objects == old(db.objects)
  {
    var _ := UpdateScenesWhere(db, WithId(sceneId), SetVideoStatus(status));
  }

  /** A status write changes exactly one column of the rows with that id and nothing else. */
  lemma StatusWriteExactly(rows: seq<Scene>, sceneId: string, status: Status)
    ensures |UpdateWhere(rows, WithId(sceneId), SetImageStatus(status))| == |rows|
    ensures forall i :: 0 <= i < |rows| ==>
      UpdateWhere(rows, WithId(sceneId), SetImageStatus(status))[i]
        == if rows[i].id == sceneId then rows[i].(imageStatus := status) else rows[i]
    ensures |UpdateWhere(rows, WithId(sceneId), SetVideoStatus(status))| == |rows|
    ensures forall i :: 0 <= i < |rows| ==>
      UpdateWhere(rows, WithId(sceneId), SetVideoStatus(status))[i]
        == if rows[i].id == sceneId then rows[i].(videoStatus := status) else rows[i]
  {
    UpdateWhereAt(rows, WithId(sceneId), SetImageStatus(status));
    UpdateWhereAt(rows, WithId(sceneId), SetVideoStatus(status));
  }
}
