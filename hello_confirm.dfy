/**
 * The bulk confirmation routes of hello-nextjs: `POST /api/scenes/confirm-all-descriptions`,
 * `.../confirm-all-images` and `.../confirm-all-videos`. Each checks ownership first, then confirms
 * through the hello-nextjs scene layer and answers with the count of confirmed rows; only the video
 * route moves the stage (to `completed`).
 */
module HelloConfirm {
  import opened Common
  import opened Database
  import opened Projects
  import opened Http
  import HelloScenes

  const Unauthorized401: string := "Unauthorized"
  const ProjectIdRequired: string := "projectId is required"
  const ProjectNotFound: string := "Project not found"

  /**
   * The checks before ownership: no user is 401; a body that is not JSON makes `request.json()`
   * throw, and a `null` body makes `const { projectId } = body` throw, both inside the route's
   * `try`, which answers 500 with the route's `failed` message; a missing `projectId` is 400.
   */
  function Guard<T>(user: Option<string>, body: Body, failed: string): (r: Option<Reply<T>>)
    ensures r.None? <==> user.Some? && HasProjectId(body)
    ensures user.None? ==> r == Some(Reply(401, Err(Unauthorized401)))
    ensures user.Some? && (body.Unparsable? || body.NullJson?) ==> r == Some(Reply(500, Err(failed)))
    ensures user.Some? && body.Parsed? && !HasProjectId(body) ==> r == Some(Reply(400, Err(ProjectIdRequired)))
  {
    if user.None? then Some(Reply(401, Err(Unauthorized401)))
    else if body.Unparsable? || body.NullJson? then Some(Reply(500, Err(failed)))
    else if !HasProjectId(body) then Some(Reply(400, Err(ProjectIdRequired)))
    else None
  }

  /**
   * The hello-nextjs guard and the story app's `Precheck` let exactly the same requests on and
   * answer a missing user or `projectId` with the same statuses; they part only on a body that is
   * not JSON (400 there, 500 here) and on a `null` body (an escaped exception there, 500 here).
   */
  lemma GuardMatchesPrecheck<T>(user: Option<string>, body: Body, failed: string)
    ensures Guard<T>(user, body, failed).None? <==> Precheck<T>(user, body).None?
    ensures user.None? || (body.Parsed? && !HasProjectId(body)) ==>
      && Guard<T>(user, body, failed).Some? && Precheck<T>(user, body).Some?
      && Guard<T>(user, body, failed).value.Reply? && Precheck<T>(user, body).value.Reply?
      && Guard<T>(user, body, failed).value.status == Precheck<T>(user, body).value.status
    ensures user.Some? && body.Unparsable? ==>
      Precheck<T>(user, body) == Some(Reply(400, Err(InvalidJson))) && Guard<T>(user, body, failed) == Some(Reply(500, Err(failed)))
    ensures user.Some? && body.NullJson? ==>
      Precheck<T>(user, body) == Some(Uncaught) && Guard<T>(user, body, failed) == Some(Reply(500, Err(failed)))
  {
  }

  /** A caller who does not own the project: 403 before anything is written. */
  function NotOwner<T>(): Reply<T> {
    Reply(403, Err("Unauthorized"))
  }

  const DescriptionsFailed: string := "Failed to confirm all descriptions"
  const ImagesFailed: string := "Failed to confirm all images"
  const VideosFailed: string := "Failed to confirm all videos"

  /**
   * `POST .../confirm-all-descriptions`. `isOwner` stands for the ownership query. An owner gets
   * every description of the project confirmed and the number of the project's scenes back; the
   * stage is left alone.
   */
  method ConfirmAllDescriptions(db: Db, user: Option<string>, body: Body, isOwner: (string, string) -> bool)
    returns (reply: Reply<nat>)
    modifies db
    ensures Guard<nat>(user, body, DescriptionsFailed).Some? ==>
      reply == Guard<nat>(user, body, DescriptionsFailed).value && unchanged(db)
    ensures Guard<nat>(user, body, DescriptionsFailed).None? ==>
      var projectId, userId := body.projectId.value, user.value;
      && (!isOwner(projectId, userId) ==> reply == NotOwner() && unchanged(db))
      && (isOwner(projectId, userId) ==>
        && reply == Reply(200, Ok(|Selected(old(db.scenes), OfProject(projectId))|))
        && db.scenes == UpdateWhere(old(db.scenes), OfProject(projectId), ConfirmDescription)
        && db.projects == old(db.projects) && db.serial == old(db.serial)
        && db.images == old(db.images) && db.videos == old(db.videos) && db.objects == old(db.objects))
  {
    var guard := Guard<nat>(user, body, DescriptionsFailed);
    if guard.Some? {
      return guard.value;
    }
    var projectId, userId := body.projectId.value, user.value;
    if !isOwner(projectId, userId) {
      return NotOwner();
    }
    var count := HelloScenes.ConfirmAllDescriptions(db, projectId);
    reply := Reply(200, Ok(count));
  }

  /**
   * `POST .../confirm-all-images`: an owner gets exactly the project's scenes with a `completed`
   * image confirmed, and their number back; the stage is left alone.
   */
  method ConfirmAllImages(db: Db, user: Option<string>, body: Body, isOwner: (string, string) -> bool)
    returns (reply: Reply<nat>)
    modifies db
    ensures Guard<nat>(user, body, ImagesFailed).Some? ==>
      reply == Guard<nat>(user, body, ImagesFailed).value && unchanged(db)
    ensures Guard<nat>(user, body, ImagesFailed).None? ==>
      var projectId, userId := body.projectId.value, user.value;
      && (!isOwner(projectId, userId) ==> reply == NotOwner() && unchanged(db))
      && (isOwner(projectId, userId) ==>
        && reply == Reply(200, Ok(|Selected(old(db.scenes), OfProjectWithImageStatus(projectId, Status.Completed))|))
        && db.scenes == HelloScenes.ConfirmAllImagesTable(old(db.scenes), projectId)
        && (ConfirmedAreCompleted(old(db.scenes)) ==> ConfirmedAreCompleted(db.scenes))
        && db.projects == old(db.projects) && db.serial == old(db.serial)
        && db.images == old(db.images) && db.videos == old(db.videos) && db.objects == old(db.objects))
  {
    var guard := Guard<nat>(user, body, ImagesFailed);
    if guard.Some? {
      return guard.value;
    }
    var projectId, userId := body.projectId.value, user.value;
    if !isOwner(projectId, userId) {
      return NotOwner();
    }
    var count := HelloScenes.ConfirmAllImages(db, projectId);
    reply := Reply(200, Ok(count));
  }

  /** The video route's answer: the count and the stage it moved the project to. */
  datatype VideosConfirmed = VideosConfirmed(count: nat, stage: Stage)

  /** The video route's catch for an error of the stage write: `not_found` 404, `unauthorized` 403, else 500. */
  function StageFailure(e: ProjectError): (r: Reply<VideosConfirmed>)
    ensures r.Reply?
    ensures r.body.Err?
    ensures r.status == 404 <==> e == NotFound
    ensures r.status == 403 <==> e == Unauthorized
  {
    match e
    case NotFound => Reply(404, Err(ProjectNotFound))
    case Unauthorized => Reply(403, Err("Unauthorized"))
    case DatabaseError => Reply(500, Err(VideosFailed))
  }

  /**
   * The stage write `updateProjectStage(projectId, userId, "completed")`, whose store code is not
   * part of this model: `failure` scripts its error, and without one the project's stage becomes
   * `completed`.
   */
  method UpdateProjectStage(db: Db, projectId: string, stage: Stage, failure: Option<ProjectError>, now: int)
    returns (r: Option<ProjectError>)
    modifies db
    ensures r == failure
    ensures failure.Some? ==> db.projects == old(db.projects)
    ensures failure.None? ==> db.projects == UpdateProjectRows(old(db.projects), projectId, StageUpdate(stage), now)
    ensures db.scenes == old(db.scenes) && db.serial == old(db.serial)
    ensures db.images == old(db.images) && db.videos == old(db.videos) && db.objects == old(db.objects)
  {
    if failure.None? {
      db.projects := UpdateProjectRows(db.projects, projectId, StageUpdate(stage), now);
    }
    r := failure;
  }

  /**
   * `POST .../confirm-all-videos`: an owner gets exactly the project's scenes with a `completed`
   * video confirmed; then the stage is written `completed` and the reply is the count with that
   * stage. A failing stage write keeps the confirmations and answers its error.
   */
  method ConfirmAllVideos(db: Db, user: Option<string>, body: Body, isOwner: (string, string) -> bool,
                          stageFailure: Option<ProjectError>, now: int)
    returns (reply: Reply<VideosConfirmed>)
    modifies db
    ensures Guard<VideosConfirmed>(user, body, VideosFailed).Some? ==>
      reply == Guard<VideosConfirmed>(user, body, VideosFailed).value && unchanged(db)
    ensures Guard<VideosConfirmed>(user, body, VideosFailed).None? ==>
      var projectId, userId := body.projectId.value, user.value;
      && (!isOwner(projectId, userId) ==> reply == NotOwner() && unchanged(db))
      && (isOwner(projectId, userId) ==>
        var count := |Selected(old(db.scenes), OfProjectWithVideoStatus(projectId, Status.Completed))|;
        && db.scenes == HelloScenes.ConfirmAllVideosTable(old(db.scenes), projectId)
        && (ConfirmedAreCompleted(old(db.scenes)) ==> ConfirmedAreCompleted(db.scenes))
        && db.serial == old(db.serial)
        && db.images == old(db.images) && db.videos == old(db.videos) && db.objects == old(db.objects)
        && (stageFailure.None? ==>
              && reply == Reply(200, Ok(VideosConfirmed(count, Stage.Completed)))
              && db.projects == UpdateProjectRows(old(db.projects), projectId, StageUpdate(Stage.Completed), now))
        && (stageFailure.Some? ==> reply == StageFailure(stageFailure.value) && db.projects == old(db.projects)))
  {
    var guard := Guard<VideosConfirmed>(user, body, VideosFailed);
    if guard.Some? {
      return guard.value;
    }
    var projectId, userId := body.projectId.value, user.value;
    if !isOwner(projectId, userId) {
      return NotOwner();
    }
    var count := HelloScenes.ConfirmAllVideos(db, projectId);
    var failed := UpdateProjectStage(db, projectId, Stage.Completed, stageFailure, now);
    if failed.Some? {
      return StageFailure(failed.value);
    }
    reply := Reply(200, Ok(VideosConfirmed(count, Stage.Completed)));
  }
}
