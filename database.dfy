/**
 * The four tables of the store (projects, scenes, images, videos) with the row shapes of the
 * application's database types, the media bucket of object storage, and the row-level update and
 * delete semantics of the store's `.update(patch).eq(column, value)` and `.delete().eq(...)` calls.
 */
module Database {
  import opened Common
  import opened Order

  /** A project's pipeline stage. */
  datatype Stage = Draft | Scenes | Images | Videos | Completed

  /** Generation status of a scene's image or video. */
  datatype Status = Pending | Processing | Completed | Failed

  datatype Project = Project(
    id: string,
    userId: string,
    title: string,
    story: Option<string>,
    style: Option<string>,
    stage: Stage,
    finalVideoPath: Option<string>,
    finalVideoUrl: Option<string>,
    updatedAt: int)

  datatype Scene = Scene(
    id: string,
    projectId: string,
    orderIndex: int,
    description: string,
    descriptionConfirmed: bool,
    imageStatus: Status,
    imageConfirmed: bool,
    videoStatus: Status,
    videoConfirmed: bool)

  datatype Image = Image(
    id: string,
    sceneId: string,
    storagePath: string,
    url: string,
    width: Option<int>,
    height: Option<int>,
    version: int)

  datatype Video = Video(
    id: string,
    sceneId: string,
    storagePath: string,
    url: string,
    duration: Option<int>,
    taskId: Option<string>,
    version: int)

  datatype SceneWithMedia = SceneWithMedia(scene: Scene, images: seq<Image>, videos: seq<Video>)

  datatype ProjectWithScenes = ProjectWithScenes(project: Project, scenes: seq<SceneWithMedia>)

  /** The plain scene rows of some loaded scenes, in order. */
  function PlainScenes(ws: seq<SceneWithMedia>): (r: seq<Scene>)
    ensures |r| == |ws| && forall i :: 0 <= i < |ws| ==> r[i] == ws[i].scene
  {
    seq(|ws|, i requires 0 <= i < |ws| => ws[i].scene)
  }

  /** What a caller of `createScenes` supplies per scene. */
  datatype SceneInput = SceneInput(orderIndex: int, description: string)

  /**
   * The store: its tables, the paths held in the media bucket, and the identifier generator
   * that gives the k-th row ever inserted the id `idOf(k)`.
   */
  class Db {
    const idOf: nat -> string
    var serial: nat
    var projects: seq<Project>
    var scenes: seq<Scene>
    var images: seq<Image>
    var videos: seq<Video>
    var objects: set<string>

    constructor (idOf: nat -> string)
      ensures this.idOf == idOf && serial == 0
      ensures projects == [] && scenes == [] && images == [] && videos == [] && objects == {}
    {
      this.idOf := idOf;
      serial := 0;
      projects, scenes, images, videos := [], [], [], [];
      objects := {};
    }
  }

  function VersionOfImage(i: Image): int { i.version }

  function VersionOfVideo(v: Video): int { v.version }

  function OrderIndexOf(s: Scene): int { s.orderIndex }

  function UpdatedAtOf(p: Project): int { p.updatedAt }

  // ---------- scene rows as `createScenes` builds them ----------

  /** A scene row as inserted: no confirmation yet and both media pending. */
  predicate IsFresh(s: Scene) {
    && !s.descriptionConfirmed
    && s.imageStatus == Status.Pending && !s.imageConfirmed
    && s.videoStatus == Status.Pending && !s.videoConfirmed
  }

  function NewScene(id: string, projectId: string, item: SceneInput): Scene {
    Scene(id, projectId, item.orderIndex, item.description, false, Status.Pending, false, Status.Pending, false)
  }

  /** The rows `createScenes(projectId, items)` inserts when the store's next serial is `serial`. */
  function NewScenes(idOf: nat -> string, serial: nat, projectId: string, items: seq<SceneInput>): (r: seq<Scene>)
    ensures |r| == |items|
    ensures forall k :: 0 <= k < |items| ==>
      && r[k].id == idOf(serial + k)
      && r[k].projectId == projectId
      && r[k].orderIndex == items[k].orderIndex
      && r[k].description == items[k].description
      && IsFresh(r[k])
  {
    seq(|items|, k requires 0 <= k < |items| => NewScene(idOf(serial + k), projectId, items[k]))
  }

  // ---------- `.update(patch).eq(...)` on the scenes table ----------

  /** The `.eq` filters the scene queries use. */
  datatype SceneFilter =
    | WithId(id: string)
    | OfProject(projectId: string)
    | OfProjectWithImageStatus(projectId: string, imageStatus: Status)
    | OfProjectWithVideoStatus(projectId: string, videoStatus: Status)
    | OfProjectWithDescriptionConfirmed(projectId: string)

  predicate Matches(f: SceneFilter, s: Scene) {
    match f
    case WithId(id) => s.id == id
    case OfProject(pid) => s.projectId == pid
    case OfProjectWithImageStatus(pid, st) => s.projectId == pid && s.imageStatus == st
    case OfProjectWithVideoStatus(pid, st) => s.projectId == pid && s.videoStatus == st
    case OfProjectWithDescriptionConfirmed(pid) => s.projectId == pid && s.descriptionConfirmed
  }

  /** The update payloads the scene operations send. */
  datatype ScenePatch =
    | SetDescription(description: string)
    | ConfirmDescription
    | SetImageStatus(imageStatus: Status)
    | ConfirmImage
    | SetVideoStatus(videoStatus: Status)
    | ConfirmVideo
    | ResetImage
    | ResetVideo

  function Apply(p: ScenePatch, s: Scene): Scene {
    match p
    case SetDescription(d) => s.(description := d)
    case ConfirmDescription => s.(descriptionConfirmed := true)
    case SetImageStatus(st) => s.(imageStatus := st)
    case ConfirmImage => s.(imageConfirmed := true)
    case SetVideoStatus(st) => s.(videoStatus := st)
    case ConfirmVideo => s.(videoConfirmed := true)
    case ResetImage => s.(imageStatus := Status.Pending, imageConfirmed := false)
    case ResetVideo => s.(videoStatus := Status.Pending, videoConfirmed := false)
  }

  /** Every row matching `f` gets `p`; all other rows stay as they are. */
  function UpdateWhere(rows: seq<Scene>, f: SceneFilter, p: ScenePatch): seq<Scene> {
    if rows == [] then []
    else [if Matches(f, rows[0]) then Apply(p, rows[0]) else rows[0]] + UpdateWhere(rows[1..], f, p)
  }

  /** The rows a filter selects, in table order (`.select().eq(...)`). */
  function Selected(rows: seq<Scene>, f: SceneFilter): seq<Scene> {
    Filter(rows, (s: Scene) => Matches(f, s))
  }

  lemma {:induction false} UpdateWhereAt(rows: seq<Scene>, f: SceneFilter, p: ScenePatch)
    ensures |UpdateWhere(rows, f, p)| == |rows|
    ensures forall i :: 0 <= i < |rows| ==>
      UpdateWhere(rows, f, p)[i] == if Matches(f, rows[i]) then Apply(p, rows[i]) else rows[i]
  {
    if rows != [] {
      UpdateWhereAt(rows[1..], f, p);
    }
  }

  /** The patch leaves untouched the column the filter tests. */
  predicate Stable(f: SceneFilter, p: ScenePatch) {
    match f
    case WithId(_) => true
    case OfProject(_) => true
    case OfProjectWithImageStatus(_, _) => !p.SetImageStatus? && !p.ResetImage?
    case OfProjectWithVideoStatus(_, _) => !p.SetVideoStatus? && !p.ResetVideo?
    case OfProjectWithDescriptionConfirmed(_) => !p.ConfirmDescription?
  }

  lemma StableMatch(f: SceneFilter, p: ScenePatch, s: Scene)
    requires Stable(f, p)
    ensures Matches(f, Apply(p, s)) == Matches(f, s)
    ensures Apply(p, Apply(p, s)) == Apply(p, s)
  {
  }

  /** A second identical update changes nothing. */
  lemma {:induction false} UpdateWhereIdempotent(rows: seq<Scene>, f: SceneFilter, p: ScenePatch)
    requires Stable(f, p)
    ensures UpdateWhere(UpdateWhere(rows, f, p), f, p) == UpdateWhere(rows, f, p)
  {
    if rows != [] {
      var head := if Matches(f, rows[0]) then Apply(p, rows[0]) else rows[0];
      var tail := UpdateWhere(rows[1..], f, p);
      assert UpdateWhere(rows, f, p) == [head] + tail;
      assert ([head] + tail)[1..] == tail;
      StableMatch(f, p, rows[0]);
      UpdateWhereIdempotent(rows[1..], f, p);
    }
  }

  /** An update that leaves the filtered column alone selects as many rows afterwards as before. */
  lemma {:induction false} UpdateWhereKeepsSelection(rows: seq<Scene>, f: SceneFilter, p: ScenePatch)
    requires Stable(f, p)
    ensures |Selected(UpdateWhere(rows, f, p), f)| == |Selected(rows, f)|
  {
    if rows != [] {
      var head := if Matches(f, rows[0]) then Apply(p, rows[0]) else rows[0];
      var tail := UpdateWhere(rows[1..], f, p);
      assert UpdateWhere(rows, f, p) == [head] + tail;
      assert ([head] + tail)[1..] == tail;
      StableMatch(f, p, rows[0]);
      UpdateWhereKeepsSelection(rows[1..], f, p);
    }
  }

  // ---------- `.delete().eq("project_id", projectId)` on the scenes table ----------

  /** The ids of the project's scenes. */
  function SceneIdsOf(rows: seq<Scene>, projectId: string): set<string> {
    set s | s in rows && s.projectId == projectId :: s.id
  }

  function OtherProjects(rows: seq<Scene>, projectId: string): seq<Scene> {
    Filter(rows, (s: Scene) => s.projectId != projectId)
  }

  /** Media rows left after their scenes are deleted (the schema's ON DELETE CASCADE). */
  function ImagesOutside(images: seq<Image>, sceneIds: set<string>): seq<Image> {
    Filter(images, (i: Image) => i.sceneId !in sceneIds)
  }

  function VideosOutside(videos: seq<Video>, sceneIds: set<string>): seq<Video> {
    Filter(videos, (v: Video) => v.sceneId !in sceneIds)
  }

  function ImagesOfScene(images: seq<Image>, sceneId: string): seq<Image> {
    Filter(images, (i: Image) => i.sceneId == sceneId)
  }

  function VideosOfScene(videos: seq<Video>, sceneId: string): seq<Video> {
    Filter(videos, (v: Video) => v.sceneId == sceneId)
  }

  /** Scenes of other projects survive the deletion; together with the project's scenes they make up the table. */
  lemma {:induction false} OtherProjectsCount(rows: seq<Scene>, projectId: string)
    ensures |OtherProjects(rows, projectId)| + |Selected(rows, OfProject(projectId))| == |rows|
    ensures Selected(OtherProjects(rows, projectId), OfProject(projectId)) == []
  {
    if rows != [] {
      assert rows == [rows[0]] + rows[1..];
      OtherProjectsCount(rows[1..], projectId);
    }
  }

  /**
   * `.update(p).eq("id", id).select().single()`: the updated row comes back when exactly one row
   * has the id; with none (or several) the call fails and the table is left as it was.
   */
  method UpdateSceneById(db: Db, id: string, p: ScenePatch) returns (r: Option<Scene>)
    modifies db
    ensures var hits := Selected(old(db.scenes), WithId(id));
      if |hits| == 1 then
        r == Some(Apply(p, hits[0])) && db.scenes == UpdateWhere(old(db.scenes), WithId(id), p)
      else
        r == None && db.scenes == old(db.scenes)
    ensures db.serial == old(db.serial) && db.projects == old(db.projects)
    ensures db.images == old(db.images) && db.videos == old(db.videos) && db.objects == old(db.objects)
  {
    var hits := Selected(db.scenes, WithId(id));
    if |hits| == 1 {
      db.scenes := UpdateWhere(db.scenes, WithId(id), p);
      r := Some(Apply(p, hits[0]));
    } else {
      r := None;
    }
  }

  /** `.update(p).eq(...)` on every row the filter selects. */
  method UpdateScenesWhere(db: Db, f: SceneFilter, p: ScenePatch) returns (touched: seq<Scene>)
    modifies db
    ensures db.scenes == UpdateWhere(old(db.scenes), f, p)
    ensures |touched| == |Selected(old(db.scenes), f)|
    ensures db.serial == old(db.serial) && db.projects == old(db.projects)
    ensures db.images == old(db.images) && db.videos == old(db.videos) && db.objects == old(db.objects)
  {
    touched := Selected(db.scenes, f);
    db.scenes := UpdateWhere(db.scenes, f, p);
  }

  /** `.delete().eq("project_id", projectId)`; the schema cascades to the scenes' images and videos. */
  method DeleteScenesOf(db: Db, projectId: string)
    modifies db
    ensures db.scenes == OtherProjects(old(db.scenes), projectId)
    ensures db.images == ImagesOutside(old(db.images), SceneIdsOf(old(db.scenes), projectId))
    ensures db.videos == VideosOutside(old(db.videos), SceneIdsOf(old(db.scenes), projectId))
    ensures db.serial == old(db.serial) && db.projects == old(db.projects) && db.objects == old(db.objects)
  {
    var ids := SceneIdsOf(db.scenes, projectId);
    db.images := ImagesOutside(db.images, ids);
    db.videos := VideosOutside(db.videos, ids);
    db.scenes := OtherProjects(db.scenes, projectId);
  }

  /** Every confirmed image or video is a completed one. */
  predicate ConfirmedAreCompleted(rows: seq<Scene>) {
    forall i :: 0 <= i < |rows| ==>
      && (rows[i].imageConfirmed ==> rows[i].imageStatus == Status.Completed)
      && (rows[i].videoConfirmed ==> rows[i].videoStatus == Status.Completed)
  }

  /** Patches under which no row can end up confirmed without being completed. */
  predicate KeepsConfirmation(f: SceneFilter, p: ScenePatch) {
    match p
    case ConfirmImage => f.OfProjectWithImageStatus? && f.imageStatus == Status.Completed
    case ConfirmVideo => f.OfProjectWithVideoStatus? && f.videoStatus == Status.Completed
    case SetImageStatus(st) => st == Status.Completed
    case SetVideoStatus(st) => st == Status.Completed
    case _ => true
  }

  lemma {:induction false} UpdateKeepsConfirmedCompleted(rows: seq<Scene>, f: SceneFilter, p: ScenePatch)
    requires KeepsConfirmation(f, p) && ConfirmedAreCompleted(rows)
    ensures ConfirmedAreCompleted(UpdateWhere(rows, f, p))
  {
    UpdateWhereAt(rows, f, p);
  }

  lemma NewScenesAreConsistent(idOf: nat -> string, serial: nat, projectId: string, items: seq<SceneInput>)
    ensures ConfirmedAreCompleted(NewScenes(idOf, serial, projectId, items))
  {
  }

  /** `.select().eq("project_id", p).order("order_index", { ascending: true })`. */
  function ScenesOfProject(rows: seq<Scene>, projectId: string): (r: seq<Scene>)
    ensures SortedAsc(r, OrderIndexOf)
    ensures multiset(r) == multiset(Selected(rows, OfProject(projectId)))
    ensures forall i :: 0 <= i < |r| ==> r[i].projectId == projectId && r[i] in rows
  {
    var mine := Selected(rows, OfProject(projectId));
    var r := SortAsc(mine, OrderIndexOf);
    SameMembers(r, mine);
    r
  }

  /** Each scene with exactly the image and video rows whose `scene_id` is its id. */
  function WithMedia(scenes: seq<Scene>, images: seq<Image>, videos: seq<Video>): (r: seq<SceneWithMedia>)
    ensures |r| == |scenes|
    ensures forall i :: 0 <= i < |r| ==>
      && r[i].scene == scenes[i]
      && r[i].images == ImagesOfScene(images, scenes[i].id)
      && r[i].videos == VideosOfScene(videos, scenes[i].id)
  {
    seq(|scenes|, i requires 0 <= i < |scenes| =>
      SceneWithMedia(scenes[i], ImagesOfScene(images, scenes[i].id), VideosOfScene(videos, scenes[i].id)))
  }
}
