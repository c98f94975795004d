/**
 * The bulk confirmation routes of story-to-video-app: `POST /api/scenes/confirm-all-descriptions`
 * and `POST /api/scenes/confirm-all-images`. Each loads the project as its owner, confirms every
 * scene of the project, then moves the stage on.
 */
module StoryConfirm {
  import opened Common
  import opened Database
  import opened Projects
  import opened Http
  import StoryScenes

  const ProjectMissing: string := "项目不存在"
  const Forbidden: string := "无权限"

  /** The description route's catch: `not_found` is 404, `unauthorized` 403, anything else 500 with its message. */
  function DescriptionsFailure(e: ProjectError): (r: Reply<()>)
    ensures r.Reply?
    ensures r.body.Err?
    ensures r.status == 404 <==> e == NotFound
    ensures r.status == 403 <==> e == Unauthorized
  {
    match e
    case NotFound => Reply(404, Err(ProjectMissing))
    case Unauthorized => Reply(403, Err(Forbidden))
    case DatabaseError => Reply(500, Err(ErrorMessage(e)))
  }

  /** The image route's catch: only `not_found` has its own status (404); everything else is 500 with its message. */
  function ImagesFailure(e: ProjectError): (r: Reply<()>)
    ensures r.Reply?
    ensures r.body.Err?
    ensures r.status == 404 <==> e == NotFound
    ensures r.status != 404 ==> r == Reply(500, Err(ErrorMessage(e)))
  {
    if e == NotFound then Reply(404, Err(ProjectMissing)) else Reply(500, Err(ErrorMessage(e)))
  }

  /** An `unauthorized` error from the stage write is 403 on one route and 500 on the other. */
  lemma UnauthorizedDiffers()
    ensures DescriptionsFailure(Unauthorized).status == 403
    ensures ImagesFailure(Unauthorized) == Reply(500, Err("无权限"))
  {
  }

  /**
   * `POST /api/scenes/confirm-all-descriptions`. The guards and a project the caller cannot load
   * (404) change nothing. Otherwise every description of the project is confirmed, and then the
   * stage is written `images`; a failing stage write still leaves the descriptions confirmed.
   */
  method ConfirmAllDescriptions(db: Db, user: Option<string>, body: Body, now: int) returns (reply: Reply<()>)
    modifies db
    ensures Precheck<()>(user, body).Some? ==> reply == Precheck<()>(user, body).value && unchanged(db)
    ensures Precheck<()>(user, body).None? ==>
      var projectId, userId := body.projectId.value, user.value;
      var loaded := old(Loaded(db, projectId, userId));
      && (loaded.Err? ==> reply == DescriptionsFailure(loaded.error) && unchanged(db))
      && (loaded.Ok? ==>
        && db.scenes == StoryScenes.ConfirmAllTable(old(db.scenes), projectId, ConfirmDescription)
        && db.serial == old(db.serial) && db.images == old(db.images)
        && db.videos == old(db.videos) && db.objects == old(db.objects)
        && (OwnedBy(old(db.projects), projectId, userId) ==>
              && reply == Reply(200, Ok(()))
              && db.projects == UpdateProjectRows(old(db.projects), projectId, StageUpdate(Stage.Images), now))
        && (!OwnedBy(old(db.projects), projectId, userId) ==>
              reply == DescriptionsFailure(Unauthorized) && db.projects == old(db.projects)))
  {
    var guard := Precheck<()>(user, body);
    if guard.Some? {
      return guard.value;
    }
    var projectId, userId := body.projectId.value, user.value;
    var loaded := GetProjectById(db, projectId, userId);
    if loaded.Err? {
      return DescriptionsFailure(loaded.error);
    }
    StoryScenes.ConfirmAllDescriptions(db, projectId);
    var written := UpdateProject(db, projectId, userId, StageUpdate(Stage.Images), now);
    if written.Err? {
      return DescriptionsFailure(written.error);
    }
    reply := Reply(200, Ok(()));
  }

  /**
   * `POST /api/scenes/confirm-all-images`: the same steps with every image confirmed, whatever its
   * status, and the stage written `videos`; an `unauthorized` stage write surfaces as 500.
   */
  method ConfirmAllImages(db: Db, user: Option<string>, body: Body, now: int) returns (reply: Reply<()>)
    modifies db
    ensures Precheck<()>(user, body).Some? ==> reply == Precheck<()>(user, body).value && unchanged(db)
    ensures Precheck<()>(user, body).None? ==>
      var projectId, userId := body.projectId.value, user.value;
      var loaded := old(Loaded(db, projectId, userId));
      && (loaded.Err? ==> reply == ImagesFailure(loaded.error) && unchanged(db))
      && (loaded.Ok? ==>
        && db.scenes == StoryScenes.ConfirmAllTable(old(db.scenes), projectId, ConfirmImage)
        && db.serial == old(db.serial) && db.images == old(db.images)
        && db.videos == old(db.videos) && db.objects == old(db.objects)
        && (OwnedBy(old(db.projects), projectId, userId) ==>
              && reply == Reply(200, Ok(()))
              && db.projects == UpdateProjectRows(old(db.projects), projectId, StageUpdate(Stage.Videos), now))
        && (!OwnedBy(old(db.projects), projectId, userId) ==>
              reply == ImagesFailure(Unauthorized) && db.projects == old(db.projects)))
  {
    var guard := Precheck<()>(user, body);
    if guard.Some? {
      return guard.value;
    }
    var projectId, userId := body.projectId.value, user.value;
    var loaded := GetProjectById(db, projectId, userId);
    if loaded.Err? {
      return ImagesFailure(loaded.error);
    }
    StoryScenes.ConfirmAllImages(db, projectId);
    var written := UpdateProject(db, projectId, userId, StageUpdate(Stage.Videos), now);
    if written.Err? {
      return ImagesFailure(written.error);
    }
    reply := Reply(200, Ok(()));
  }
}
