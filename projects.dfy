/**
 * The project data-access layer: creation at stage `draft`, the paged list of a user's projects,
 * the owner-scoped read with scenes and media attached, and owner-checked update and delete.
 */
module Projects {
  import opened Common
  import opened Order
  import opened Database

  /** The `code` of a `ProjectError`. */
  datatype ProjectError = NotFound | Unauthorized | DatabaseError

  /** The message each `ProjectError` carries on the paths this model takes. */
  function ErrorMessage(e: ProjectError): string {
    match e
    case NotFound => "项目不存在"
    case Unauthorized => "无权限"
    case DatabaseError => "获取项目失败"
  }

  /** The updatable columns; a `None` field is not sent. `user_id` is not among them. */
  datatype ProjectUpdate = ProjectUpdate(
    title: Option<string>,
    story: Option<string>,
    style: Option<string>,
    stage: Option<Stage>,
    finalVideoPath: Option<Option<string>>,
    finalVideoUrl: Option<Option<string>>)

  function StageUpdate(stage: Stage): ProjectUpdate {
    ProjectUpdate(None, None, None, Some(stage), None, None)
  }

  /** `{ ...updates, updated_at: now }` applied to a row. */
  function ApplyUpdate(p: Project, u: ProjectUpdate, now: int): (r: Project)
    ensures r.id == p.id && r.userId == p.userId && r.updatedAt == now
    ensures r.title == u.title.GetOr(p.title) && r.stage == u.stage.GetOr(p.stage)
    ensures r.story == (if u.story.Some? then u.story else p.story)
    ensures r.style == (if u.style.Some? then u.style else p.style)
    ensures r.finalVideoPath == u.finalVideoPath.GetOr(p.finalVideoPath)
    ensures r.finalVideoUrl == u.finalVideoUrl.GetOr(p.finalVideoUrl)
  {
    Project(
      p.id, p.userId,
      u.title.GetOr(p.title),
      if u.story.Some? then u.story else p.story,
      if u.style.Some? then u.style else p.style,
      u.stage.GetOr(p.stage),
      u.finalVideoPath.GetOr(p.finalVideoPath),
      u.finalVideoUrl.GetOr(p.finalVideoUrl),
      now)
  }

  function ProjectsWithId(rows: seq<Project>, projectId: string): seq<Project> {
    Filter(rows, (p: Project) => p.id == projectId)
  }

  function ProjectsOfUser(rows: seq<Project>, userId: string): seq<Project> {
    Filter(rows, (p: Project) => p.userId == userId)
  }

  /** Every row with the id updated; the others as they were. */
  function UpdateProjectRows(rows: seq<Project>, projectId: string, u: ProjectUpdate, now: int): (r: seq<Project>)
    ensures |r| == |rows|
    ensures forall i :: 0 <= i < |rows| ==>
      r[i] == if rows[i].id == projectId then ApplyUpdate(rows[i], u, now) else rows[i]
  {
    seq(|rows|, i requires 0 <= i < |rows| =>
      if rows[i].id == projectId then ApplyUpdate(rows[i], u, now) else rows[i])
  }

  /** The new row: owned by the caller, at `draft`, story defaulting to "" and style to "default". */
  method CreateProject(db: Db, userId: string, title: string, story: Option<string>, style: Option<string>, now: int)
    returns (p: Project)
    modifies db
    ensures p == Project(db.idOf(old(db.serial)), userId, title, Some(story.GetOr("")), Some(style.GetOr("default")),
                         Stage.Draft, None, None, now)
    ensures db.projects == old(db.projects) + [p] && db.serial == old(db.serial) + 1
    ensures db.scenes == old(db.scenes) && db.images == old(db.images)
    ensures db.videos == old(db.videos) && db.objects == old(db.objects)
  {
    p := Project(db.idOf(db.serial), userId, title, Some(story.GetOr("")), Some(style.GetOr("default")),
                 Stage.Draft, None, None, now);
    db.projects := db.projects + [p];
    db.serial := db.serial + 1;
  }

  /** `.range(offset, offset + limit - 1)`: the rows at positions offset .. offset + limit - 1 that exist. */
  function Window<T>(s: seq<T>, offset: nat, limit: nat): (r: seq<T>)
    ensures |r| <= limit
    ensures offset >= |s| ==> r == []
    ensures offset < |s| ==> r == s[offset..if offset + limit < |s| then offset + limit else |s|]
    ensures forall i :: 0 <= i < |r| ==> r[i] in s
  {
    if offset >= |s| then []
    else if offset + limit < |s| then s[offset..offset + limit]
    else s[offset..]
  }

  /** Page `page + 1` starts where page `page` ends: the pages tile the ordered list without overlap. */
  lemma ConsecutivePages<T>(s: seq<T>, page: nat, limit: nat)
    requires page >= 1
    ensures var a := (page - 1) * limit;
      Window(s, a, limit) + Window(s, a + limit, limit) == Window(s, a, 2 * limit)
  {
    var a := (page - 1) * limit;
    if a + limit < |s| {
      assert s[a..a + limit] + Window(s, a + limit, limit) == Window(s, a, 2 * limit);
    }
  }

  function PageOffset(page: int, limit: int): (r: nat)
    requires page >= 1 && limit >= 1
  {
    MulNonNegative(page - 1, limit);
    (page - 1) * limit
  }

  lemma MulNonNegative(a: nat, b: nat)
    ensures a * b >= 0
  {
  }

  /**
   * The user's projects, most recently updated first, cut to page `page` of `limit` rows (defaults
   * 1 and 20); `total` counts all of the user's projects.
   */
  method GetProjects(db: Db, userId: string, page: Option<int>, limit: Option<int>)
    returns (projects: seq<Project>, total: nat)
    requires page.GetOr(1) >= 1 && limit.GetOr(20) >= 1
    ensures var mine := SortDesc(ProjectsOfUser(db.projects, userId), UpdatedAtOf);
      projects == Window(mine, PageOffset(page.GetOr(1), limit.GetOr(20)), limit.GetOr(20))
    ensures total == |ProjectsOfUser(db.projects, userId)|
    ensures |projects| <= limit.GetOr(20) && SortedDesc(projects, UpdatedAtOf)
    ensures forall i :: 0 <= i < |projects| ==> projects[i] in db.projects && projects[i].userId == userId
  {
    var l := limit.GetOr(20);
    var offset := PageOffset(page.GetOr(1), l);
    var users := ProjectsOfUser(db.projects, userId);
    var mine := SortDesc(users, UpdatedAtOf);
    projects := Window(mine, offset, l);
    total := |users|;
    WindowKeepsOrder(mine, offset, l, UpdatedAtOf);
    forall i | 0 <= i < |projects|
      ensures projects[i] in db.projects && projects[i].userId == userId
    {
      assert projects[i] in multiset(mine);
      assert projects[i] in users;
    }
  }

  /** The page window of a descending list is itself descending. */
  lemma WindowKeepsOrder<T>(s: seq<T>, offset: nat, limit: nat, key: T -> int)
    requires SortedDesc(s, key)
    ensures SortedDesc(Window(s, offset, limit), key)
  {
  }

  /** `.eq("id", projectId).eq("user_id", userId)`. */
  function OwnedHits(rows: seq<Project>, projectId: string, userId: string): seq<Project> {
    Filter(rows, (p: Project) => p.id == projectId && p.userId == userId)
  }

  /** What `getProjectById` yields on the store's current tables. */
  function Loaded(db: Db, projectId: string, userId: string): Result<ProjectWithScenes, ProjectError>
    reads db
  {
    var hits := OwnedHits(db.projects, projectId, userId);
    if |hits| == 1 then Ok(ProjectWithScenes(hits[0], WithMedia(ScenesOfProject(db.scenes, projectId), db.images, db.videos)))
    else Err(NotFound)
  }

  /**
   * The project only if it has the id and belongs to the user (otherwise `not_found`), with its
   * scenes in order_index order, each carrying exactly its own images and videos.
   */
  method GetProjectById(db: Db, projectId: string, userId: string) returns (r: Result<ProjectWithScenes, ProjectError>)
    ensures var hits := OwnedHits(db.projects, projectId, userId);
      if |hits| == 1 then
        r == Ok(ProjectWithScenes(hits[0], WithMedia(ScenesOfProject(db.scenes, projectId), db.images, db.videos)))
      else
        r == Err(NotFound)
    ensures r == Loaded(db, projectId, userId)
    ensures r.Ok? ==> r.value.project.id == projectId && r.value.project.userId == userId
    ensures r.Ok? ==> forall i :: 0 <= i < |r.value.scenes| ==> r.value.scenes[i].scene.projectId == projectId
  {
    var hits := OwnedHits(db.projects, projectId, userId);
    if |hits| != 1 {
      return Err(NotFound);
    }
    var scenes := ScenesOfProject(db.scenes, projectId);
    r := Ok(ProjectWithScenes(hits[0], WithMedia(scenes, db.images, db.videos)));
  }

  /** Another user's project is reported as missing, never returned. */
  lemma ForeignProjectIsHidden(rows: seq<Project>, projectId: string, userId: string)
    requires forall i :: 0 <= i < |rows| && rows[i].id == projectId ==> rows[i].userId != userId
    ensures OwnedHits(rows, projectId, userId) == []
  {
    FilterNone(rows, (p: Project) => p.id == projectId && p.userId == userId);
  }

  /** The ownership read both update and delete start with: exactly one row with the id, owned by the user. */
  predicate OwnedBy(rows: seq<Project>, projectId: string, userId: string) {
    var existing := ProjectsWithId(rows, projectId);
    |existing| == 1 && existing[0].userId == userId
  }

  /**
   * A missing project or one owned by someone else is `unauthorized` and nothing changes;
   * otherwise the supplied fields and `updated_at` are written.
   */
  method UpdateProject(db: Db, projectId: string, userId: string, u: ProjectUpdate, now: int)
    returns (r: Result<Project, ProjectError>)
    modifies db
    ensures !OwnedBy(old(db.projects), projectId, userId) ==> r == Err(Unauthorized) && db.projects == old(db.projects)
    ensures OwnedBy(old(db.projects), projectId, userId) ==>
      && r == Ok(ApplyUpdate(ProjectsWithId(old(db.projects), projectId)[0], u, now))
      && db.projects == UpdateProjectRows(old(db.projects), projectId, u, now)
    ensures db.serial == old(db.serial) && db.scenes == old(db.scenes) && db.images == old(db.images)
    ensures db.videos == old(db.videos) && db.objects == old(db.objects)
  {
    var existing := ProjectsWithId(db.projects, projectId);
    if |existing| != 1 || existing[0].userId != userId {
      return Err(Unauthorized);
    }
    db.projects := UpdateProjectRows(db.projects, projectId, u, now);
    r := Ok(ApplyUpdate(existing[0], u, now));
  }

  /** An owner's update leaves every other project, and the owner of this one, as they were. */
  lemma UpdateTouchesOnlyThatProject(rows: seq<Project>, projectId: string, u: ProjectUpdate, now: int)
    ensures forall i :: 0 <= i < |rows| ==>
      var after := UpdateProjectRows(rows, projectId, u, now)[i];
      && after.userId == rows[i].userId && after.id == rows[i].id
      && (rows[i].id != projectId ==> after == rows[i])
  {
  }

  /** The same ownership check as the update, then every row with the id is removed. */
  method DeleteProject(db: Db, projectId: string, userId: string) returns (r: Option<ProjectError>)
    modifies db
    ensures !OwnedBy(old(db.projects), projectId, userId) ==> r == Some(Unauthorized) && db.projects == old(db.projects)
    ensures OwnedBy(old(db.projects), projectId, userId) ==>
      r == None && db.projects == Filter(old(db.projects), (p: Project) => p.id != projectId)
    ensures db.serial == old(db.serial) && db.scenes == old(db.scenes) && db.images == old(db.images)
    ensures db.videos == old(db.videos) && db.objects == old(db.objects)
  {
    var existing := ProjectsWithId(db.projects, projectId);
    if |existing| != 1 || existing[0].userId != userId {
      return Some(Unauthorized);
    }
    db.projects := Filter(db.projects, (p: Project) => p.id != projectId);
    r := None;
  }
}
