/**
 * `POST /api/generate/scenes`: the project's story is cut into scenes by the story-to-scenes
 * generator, and those scenes replace the project's old ones; the stage becomes `scenes`.
 */
module GenerateScenes {
  import opened Common
  import opened Order
  import opened Text
  import opened Database
  import opened Projects
  import opened Http
  import StoryScenes
  import StoryToScenes

  /** The scripted services the generator consults: whether a text-model key is set, the model, the JSON parser. */
  datatype Services = Services(
    hasKey: bool,
    ask: string -> StoryToScenes.ChatReply,
    parse: string -> Result<StoryToScenes.Json, string>)

  const NoStory: string := "项目没有故事内容"

  /** `project.story?.trim() || ""`. */
  function StoryOf(p: Project): string {
    if p.story.Some? then Trim(p.story.value) else ""
  }

  /** The generator's outcome for a project: its trimmed story and its style. */
  function GeneratedFor(sv: Services, p: Project): Result<seq<SceneInput>, string> {
    StoryToScenes.StoryToScenes(StoryOf(p), p.style, sv.hasKey, sv.ask, sv.parse)
  }

  /** `gen` gives the generator's outcome for every project. */
  ghost predicate Generates(gen: Project -> Result<seq<SceneInput>, string>, sv: Services) {
    forall p {:trigger GeneratedFor(sv, p)} :: gen(p) == GeneratedFor(sv, p)
  }

  /** The generator itself is such a `gen`. */
  lemma GeneratedForGenerates(sv: Services)
    ensures Generates(p => GeneratedFor(sv, p), sv)
  {
  }

  /** The generator's call for a loaded project with a story. */
  method Generate(sv: Services, ghost gen: Project -> Result<seq<SceneInput>, string>, project: Project)
    returns (r: Result<seq<SceneInput>, string>)
    requires Generates(gen, sv)
    ensures r == gen(project)
  {
    r := StoryToScenes.StoryToScenes(StoryOf(project), project.style, sv.hasKey, sv.ask, sv.parse);
    assert r == GeneratedFor(sv, project);
  }

  /** A project without a story, or with white space only, has nothing to cut. */
  lemma NoStoryWhenBlank(p: Project)
    ensures StoryOf(p) == [] <==> p.story.None? || AllSpace(p.story.value)
  {
  }

  /** The scene table after the replacement: the other projects' rows, then the new ones. */
  function Replaced(rows: seq<Scene>, idOf: nat -> string, serial: nat, projectId: string, items: seq<SceneInput>)
    : seq<Scene>
  {
    OtherProjects(rows, projectId) + NewScenes(idOf, serial, projectId, items)
  }

  /**
   * Replace-all: afterwards the project's scenes are exactly the new ones, in the generator's order
   * with its order indexes and descriptions; every scene of another project is still there.
   */
  lemma ReplacedScenes(rows: seq<Scene>, idOf: nat -> string, serial: nat, projectId: string, items: seq<SceneInput>)
    ensures var after, created := Replaced(rows, idOf, serial, projectId, items), NewScenes(idOf, serial, projectId, items);
      && Selected(after, OfProject(projectId)) == created
      && |created| == |items|
      && (forall k :: 0 <= k < |items| ==>
            created[k].orderIndex == items[k].orderIndex && created[k].description == items[k].description
            && IsFresh(created[k]))
      && (forall i :: 0 <= i < |rows| && rows[i].projectId != projectId ==> rows[i] in after)
  {
    ReplacedSelectsNew(rows, idOf, serial, projectId, items);
    var others := OtherProjects(rows, projectId);
    forall i | 0 <= i < |rows| && rows[i].projectId != projectId
      ensures rows[i] in Replaced(rows, idOf, serial, projectId, items)
    {
      assert rows[i] in others;
    }
  }

  /** The project's rows after the replacement are the new ones: none of its old rows is left. */
  lemma ReplacedSelectsNew(rows: seq<Scene>, idOf: nat -> string, serial: nat, projectId: string, items: seq<SceneInput>)
    ensures Selected(Replaced(rows, idOf, serial, projectId, items), OfProject(projectId))
      == NewScenes(idOf, serial, projectId, items)
  {
    var others, created := OtherProjects(rows, projectId), NewScenes(idOf, serial, projectId, items);
    var mine := (s: Scene) => Matches(OfProject(projectId), s);
    FilterAppend(others, created, mine);
    OtherProjectsCount(rows, projectId);
    FilterAll(created, mine);
  }

  /**
   * `POST /api/generate/scenes`. The guards come first and change nothing; so do a project that is
   * not the caller's (500, with its message), a blank story (400) and a generator error (500, with
   * its message): the generator runs before anything is deleted. Then the project's scenes are
   * replaced by the generated ones (their media go with them), and the stage is written `scenes`
   * whatever it was; the reply carries the created rows.
   */
  method Post(db: Db, user: Option<string>, body: Body, sv: Services, ghost gen: Project -> Result<seq<SceneInput>, string>,
              now: int)
    returns (reply: Reply<seq<Scene>>)
    requires Generates(gen, sv)
    modifies db
    ensures Precheck<seq<Scene>>(user, body).Some? ==> reply == Precheck<seq<Scene>>(user, body).value && unchanged(db)
    ensures Precheck<seq<Scene>>(user, body).None? ==>
      var projectId, userId := body.projectId.value, user.value;
      var loaded := old(Loaded(db, projectId, userId));
      && (loaded.Err? ==> reply == Reply(500, Err(ErrorMessage(loaded.error))) && unchanged(db))
      && (loaded.Ok? && StoryOf(loaded.value.project) == [] ==> reply == Reply(400, Err(NoStory)) && unchanged(db))
      && (loaded.Ok? && StoryOf(loaded.value.project) != [] ==>
        var generated := gen(loaded.value.project);
        && (generated.Err? ==> reply == Reply(500, Err(generated.error)) && unchanged(db))
        && (generated.Ok? ==>
          var created := NewScenes(db.idOf, old(db.serial), projectId, generated.value);
          && db.scenes == Replaced(old(db.scenes), db.idOf, old(db.serial), projectId, generated.value)
          && db.serial == old(db.serial) + |generated.value|
          && db.images == ImagesOutside(old(db.images), SceneIdsOf(old(db.scenes), projectId))
          && db.videos == VideosOutside(old(db.videos), SceneIdsOf(old(db.scenes), projectId))
          && db.objects == old(db.objects)
          && (OwnedBy(old(db.projects), projectId, userId) ==>
                && reply == Reply(200, Ok(created))
                && db.projects == UpdateProjectRows(old(db.projects), projectId, StageUpdate(Stage.Scenes), now))
          && (!OwnedBy(old(db.projects), projectId, userId) ==>
                reply == Reply(500, Err(ErrorMessage(Unauthorized))) && db.projects == old(db.projects))))
  {
    var guard := Precheck<seq<Scene>>(user, body);
    if guard.Some? {
      return guard.value;
    }
    var projectId, userId := body.projectId.value, user.value;
    var loaded := GetProjectById(db, projectId, userId);
    if loaded.Err? {
      return Reply(500, Err(ErrorMessage(loaded.error)));
    }
    var project := loaded.value.project;
    var story := StoryOf(project);
    if story == [] {
      return Reply(400, Err(NoStory));
    }
    var scenes := Generate(sv, gen, project);
    if scenes.Err? {
      return Reply(500, Err(scenes.error));
    }
    StoryScenes.DeleteScenesByProjectId(db, projectId);
    var created := StoryScenes.CreateScenes(db, projectId, scenes.value);
    var written := UpdateProject(db, projectId, userId, StageUpdate(Stage.Scenes), now);
    if written.Err? {
      return Reply(500, Err(ErrorMessage(written.error)));
    }
    reply := Reply(200, Ok(created));
  }
}
