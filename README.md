# Story-to-video pipeline: a verified model

This project models the core of two Next.js applications that turn a written story into a short
video: `story-to-video-app` and its sibling `hello-nextjs`. A user writes a story; it is cut into
scenes, each scene description gets an image, each confirmed image gets a video, and the project
moves through the stages draft, scenes, images, videos and completed.

What is modelled:

- **The store.** The projects, scenes, images and videos tables and the media bucket are fields of
  one class, `Database.Db`. The row shapes follow the application's database types. Store calls
  are methods that change those fields in place: inserts, filtered bulk updates and deletes.
- **The data-access layers.**
  - Both scene layers, which differ in what their bulk confirmations touch: hello-nextjs confirms
    only completed media, story-to-video-app confirms every scene.
  - The versioned media layer: a new image or video gets one more than the scene's highest
    version, while the free-path inserts always use version 1.
  - The owner-checked project layer.
- **The providers.** The text model, the image and video generators, photo search and object
  storage are parameters that return scripted outcomes. Only their deterministic parts are
  modelled:
  - prompt composition and truncation;
  - style defaults;
  - the bounded retry loop of the image generator;
  - task-status normalisation;
  - the offline story splitter (four to eight segments);
  - the JSON answer normaliser;
  - the search-keyword fallback.
- **The generation routes** for scenes, images and videos.
  - The image and video routes are loops over the eligible scenes.
  - In those loops, a "model not activated" error switches the premium provider off for the rest
    of the batch, and any other provider error aborts the request.
- **The confirmation routes** of both applications, with their guards and stage writes.
- **The client-side derived state.**
  - The newest image or video shown per scene.
  - The video polling targets and when a polling round ends.
  - The gating of the generate and confirm buttons.
  - The continuous-play clip list and index.
  - The final-video source.
  - Both stage indicators.
  - The middleware route guard.

Each loop of the source is a method with invariants, proved equal to a specification function.
The properties the code promises are then proved about that function. These include:

- the 4–8 segment bound;
- "confirmed implies completed" for hello-nextjs;
- idempotent bulk confirmation;
- sticky fallback;
- "only these rows change".

## Model

| member | source | states |
|---|---|---|
| Database.Db.constructor | story-to-video-app/src/types/database.ts:9-51 | the store starts with empty tables, an empty bucket and its row serial at 0 |
| Database.NewScenes | hello-nextjs/src/lib/db/scenes.ts:42-51 | one inserted row per input, in input order, with the project id, the input's order index and description, the k-th fresh id, nothing confirmed and both media pending |
| Database.UpdateWhereAt | hello-nextjs/src/lib/db/scenes.ts:231-235 | `.update(patch).eq(...)` keeps the table's length and order, patches exactly the rows the filter matches and leaves every other row as it was |
| Database.StableMatch | hello-nextjs/src/lib/db/scenes.ts:303-308 | a patch that leaves the filtered column alone keeps a row matching, and applying it twice equals applying it once |
| Database.UpdateWhereIdempotent | hello-nextjs/src/lib/db/scenes.ts:303-308 | repeating such a filtered bulk update leaves the table as the first one left it |
| Database.UpdateWhereKeepsSelection | hello-nextjs/src/lib/db/scenes.ts:303-315 | such an update selects as many rows afterwards as before, so a repeated call returns the same count |
| Database.OtherProjectsCount | hello-nextjs/src/lib/db/scenes.ts:402-411 | the rows of other projects and the project's rows together make up the table, and no row of the project survives the delete |
| Database.UpdateSceneById | hello-nextjs/src/lib/db/scenes.ts:181-193 | `.update(p).eq("id", id).select().single()` returns the patched row and patches the table when exactly one row has the id; otherwise it fails and no table changes |
| Database.UpdateScenesWhere | hello-nextjs/src/lib/db/scenes.ts:231-242 | a bulk update patches the matching rows, returns as many rows as matched, and touches no other table |
| Database.DeleteScenesOf | hello-nextjs/src/lib/db/scenes.ts:407-411 | deleting a project's scenes keeps the other projects' scenes and removes the images and videos of the deleted scenes (the cascade), nothing else |
| Database.UpdateKeepsConfirmedCompleted | hello-nextjs/src/lib/db/scenes.ts:300-308 | a bulk update that confirms only completed media, or that sets a status to completed, keeps every confirmed image and video completed |
| Database.NewScenesAreConsistent | hello-nextjs/src/lib/db/scenes.ts:42-51 | freshly inserted scenes have no confirmed medium, so none is confirmed without being completed |
| Database.ScenesOfProject | hello-nextjs/src/lib/db/scenes.ts:74-78 | the project's scenes, sorted by order index ascending, and exactly the table's rows of that project (as a multiset) |
| Database.WithMedia | hello-nextjs/src/lib/db/scenes.ts:133-137 | each scene in order, with exactly the image and the video rows whose scene id is its id |
| HelloScenes.CreateScenes | hello-nextjs/src/lib/db/scenes.ts:33-64 | the inserted rows are appended to the scene table and returned; the serial advances by their count; no other table changes |
| HelloScenes.GetScenesByProjectId | hello-nextjs/src/lib/db/scenes.ts:71-86 | the result is sorted by order index and holds exactly the project's scenes |
| HelloScenes.GetScenesWithMediaByProjectId | hello-nextjs/src/lib/db/scenes.ts:93-138 | the project's ordered scenes, each with its own images and videos; none for a project without scenes |
| HelloScenes.GetSceneById | hello-nextjs/src/lib/db/scenes.ts:145-163 | the row with the id when there is exactly one, otherwise the not-found error |
| HelloScenes.UpdateSingle | hello-nextjs/src/lib/db/scenes.ts:181-193 | a single-row write returns the patched row, or a database error with the table unchanged when no single row has the id |
| HelloScenes.UpdateSceneDescription | hello-nextjs/src/lib/db/scenes.ts:171-194 | writes only the description of the one row with the id, or fails with a database error and changes nothing |
| HelloScenes.ConfirmSceneDescription | hello-nextjs/src/lib/db/scenes.ts:201-219 | sets `description_confirmed` on the one row with the id, or fails and changes nothing |
| HelloScenes.UpdateSceneImageStatus | hello-nextjs/src/lib/db/scenes.ts:251-270 | writes only the image status of the one row with the id, or fails and changes nothing |
| HelloScenes.ConfirmSceneImage | hello-nextjs/src/lib/db/scenes.ts:277-293 | sets `image_confirmed` on the one row with the id whatever its status, or fails and changes nothing |
| HelloScenes.UpdateSceneVideoStatus | hello-nextjs/src/lib/db/scenes.ts:324-343 | writes only the video status of the one row with the id, or fails and changes nothing |
| HelloScenes.ConfirmSceneVideo | hello-nextjs/src/lib/db/scenes.ts:350-366 | sets `video_confirmed` on the one row with the id, or fails and changes nothing |
| HelloScenes.ResetSceneImageStatus | hello-nextjs/src/lib/db/scenes.ts:426-445 | puts the image back to pending and unconfirmed in one write and keeps "confirmed implies completed" |
| HelloScenes.ResetSceneVideoStatus | hello-nextjs/src/lib/db/scenes.ts:452-471 | puts the video back to pending and unconfirmed in one write and keeps "confirmed implies completed" |
| HelloScenes.ConfirmAllDescriptions | hello-nextjs/src/lib/db/scenes.ts:226-243 | confirms the description of every scene of the project and returns how many scenes that is |
| HelloScenes.ConfirmAllImages | hello-nextjs/src/lib/db/scenes.ts:300-316 | confirms the image of exactly the project's scenes whose image is completed, returns their count, and keeps "confirmed implies completed" |
| HelloScenes.ConfirmAllVideos | hello-nextjs/src/lib/db/scenes.ts:373-389 | confirms the video of exactly the project's scenes whose video is completed, returns their count, and keeps "confirmed implies completed" |
| HelloScenes.ConfirmAllImagesExactly | hello-nextjs/src/lib/db/scenes.ts:303-308 | only `image_confirmed` changes, and a scene is confirmed afterwards iff it was before or it is the project's with a completed image |
| HelloScenes.ConfirmAllVideosExactly | hello-nextjs/src/lib/db/scenes.ts:376-381 | only `video_confirmed` changes, and a scene is confirmed afterwards iff it was before or it is the project's with a completed video |
| HelloScenes.ConfirmAllImagesTwice | hello-nextjs/src/lib/db/scenes.ts:300-316 | confirming all images twice leaves the table as once did, and the second call reports the same count |
| HelloScenes.ConfirmAllVideosTwice | hello-nextjs/src/lib/db/scenes.ts:373-389 | confirming all videos twice leaves the table as once did, and the second call reports the same count |
| HelloScenes.DeleteScenesByProjectId | hello-nextjs/src/lib/db/scenes.ts:396-419 | returns the number of the project's scenes before the delete; afterwards the project has none, the other rows remain, and the deleted scenes' media are gone |
| HelloScenes.GetConfirmedDescriptionCount | hello-nextjs/src/lib/db/scenes.ts:478-495 | the number of the project's scenes with a confirmed description |
| HelloScenes.GetCompletedImageCount | hello-nextjs/src/lib/db/scenes.ts:502-519 | the number of the project's scenes whose image is completed |
| HelloScenes.GetCompletedVideoCount | hello-nextjs/src/lib/db/scenes.ts:526-543 | the number of the project's scenes whose video is completed |
| StoryScenes.CreateScenes | story-to-video-app/src/lib/db/scenes.ts:18-39 | the inserted rows (fresh, in input order) are appended and returned; the serial advances by their count; no other table changes |
| StoryScenes.GetScenesByProjectId | story-to-video-app/src/lib/db/scenes.ts:41-50 | the result is sorted by order index and holds exactly the project's scenes |
| StoryScenes.GetSceneById | story-to-video-app/src/lib/db/scenes.ts:52-61 | the row with the id when there is exactly one, otherwise the not-found error |
| StoryScenes.UpdateSingle | story-to-video-app/src/lib/db/scenes.ts:68-75 | a single-row write returns the patched row, or a database error with the table unchanged |
| StoryScenes.UpdateSceneDescription | story-to-video-app/src/lib/db/scenes.ts:63-76 | writes only the description of the one row with the id, or fails and changes nothing |
| StoryScenes.ConfirmSceneDescription | story-to-video-app/src/lib/db/scenes.ts:78-88 | sets `description_confirmed` on the one row with the id, or fails and changes nothing |
| StoryScenes.ConfirmSceneImage | story-to-video-app/src/lib/db/scenes.ts:105-115 | sets `image_confirmed` on the one row with the id, or fails and changes nothing |
| StoryScenes.ConfirmSceneVideo | story-to-video-app/src/lib/db/scenes.ts:126-136 | sets `video_confirmed` on the one row with the id, or fails and changes nothing |
| StoryScenes.ConfirmAllDescriptions | story-to-video-app/src/lib/db/scenes.ts:90-97 | confirms the description of every scene of the project; nothing else changes |
| StoryScenes.ConfirmAllImages | story-to-video-app/src/lib/db/scenes.ts:117-124 | confirms the image of every scene of the project, whatever its status; nothing else changes |
| StoryScenes.ConfirmAllVideos | story-to-video-app/src/lib/db/scenes.ts:138-145 | confirms the video of every scene of the project, whatever its status; nothing else changes |
| StoryScenes.ConfirmAllExactly | story-to-video-app/src/lib/db/scenes.ts:117-124 | a bulk confirmation patches exactly the project's rows, sets its flag on each of them and leaves other projects' rows alone |
| StoryScenes.ConfirmAllImagesConfirmsPending | story-to-video-app/src/lib/db/scenes.ts:117-124 | unlike the hello-nextjs variant, the bulk image confirmation confirms a scene whose image is still pending, so "confirmed implies completed" is not kept |
| StoryScenes.DeleteScenesByProjectId | story-to-video-app/src/lib/db/scenes.ts:99-103 | afterwards the project has no scenes, every other project's scene remains, and the deleted scenes' media are gone |
| StoryScenes.UpdateSceneImageStatus | story-to-video-app/src/lib/db/scenes.ts:147-153 | writes the image status of the rows with the id, and raises no error even when no row has it |
| StoryScenes.UpdateSceneVideoStatus | story-to-video-app/src/lib/db/scenes.ts:155-161 | writes the video status of the rows with the id, and raises no error even when no row has it |
| StoryScenes.StatusWriteExactly | story-to-video-app/src/lib/db/scenes.ts:152 | a status write changes exactly the status column of the rows with that id and nothing else |
| Media.Seed | story-to-video-app/src/lib/db/media.ts:11-12 | the picsum seed is non-empty, at most 8 characters and hyphen-free: the first up-to-8 characters of the id with hyphens removed, or "0" when nothing is left |
| Media.FreeImageUrlIgnoresHyphens | story-to-video-app/src/lib/db/media.ts:11-14 | two scene ids that agree on their first 8 non-hyphen characters get the same placeholder image |
| Media.FreeImageUrlShape | story-to-video-app/src/lib/db/media.ts:13 | the placeholder image url is the picsum seed prefix, then the seed, then the fixed `/800/450` size |
| Media.JsRem | story-to-video-app/src/lib/db/media.ts:26 | JavaScript's `%` stays strictly between -n and n, equals the mathematical remainder for a non-negative dividend and is never positive for a negative one |
| Media.FreeSceneVideoUrlAsWritten | story-to-video-app/src/lib/db/media.ts:17-27 | the lookup as written returns the catalog clip at `orderIndex mod 6` for every non-negative order index |
| Media.NegativeOrderIndexHasNoVideo | story-to-video-app/src/lib/db/media.ts:25-27 | order index -1 makes the lookup as written index the catalog at -1 and return no clip |
| Media.FreeVideoUrlFixesLookup | story-to-video-app/src/lib/db/media.ts:25-27 | the corrected lookup gives a catalog clip for every order index, and the same clip as the code wherever the code gives one |
| Media.FreeVideoUrlRotates | story-to-video-app/src/lib/db/media.ts:17-27 | consecutive order indexes step through the six sample clips and repeat with period six |
| Media.UploadFile | story-to-video-app/src/lib/db/media.ts:39-57 | the file lands at `<userId>/<projectId>/<fileName>` in the bucket (an upsert: adding a present path changes nothing) and the url is the signed url of that path; no table changes |
| Media.NextImageVersionIsNext | story-to-video-app/src/lib/db/media.ts:66-73 | the new image version is above every version of the scene, directly follows the highest one, and is 1 for a scene with no images |
| Media.NextVideoVersionIsNext | story-to-video-app/src/lib/db/media.ts:151-158 | the new video version is above every version of the scene, directly follows the highest one, and is 1 for a scene with no videos |
| Media.CreateImageRecord | story-to-video-app/src/lib/db/media.ts:59-88 | appends one image row with a fresh id, the given path, url and sizes (null when absent) and the scene's next version, and returns it; no other table changes |
| Media.NextVersionIsLatest | story-to-video-app/src/lib/db/media.ts:59-113 | an image recorded with the next version is what the latest-image query returns for that scene afterwards |
| Media.GetImagesBySceneId | story-to-video-app/src/lib/db/media.ts:90-99 | returns exactly the scene's images (as a multiset), newest version first |
| Media.GetLatestImageBySceneId | story-to-video-app/src/lib/db/media.ts:102-113 | returns null exactly when the scene has no image, and otherwise one of its images whose version no other image of the scene exceeds |
| Media.DeleteImagesBySceneId | story-to-video-app/src/lib/db/media.ts:115-118 | removes exactly the scene's image rows, keeping the others in order; nothing else changes |
| Media.DeleteOldSceneImages | story-to-video-app/src/lib/db/media.ts:120-127 | a scene without images changes nothing; otherwise its non-empty stored paths leave the bucket and all its image rows leave the table, so none remains |
| Media.UploadAndCreateImage | story-to-video-app/src/lib/db/media.ts:129-146 | the upload's path and signed url become a new image row of the scene with the next version |
| Media.CreateProcessingVideo | story-to-video-app/src/lib/db/media.ts:149-172 | appends a video row with empty path and url, the task id and the scene's next version; no other table changes |
| Media.CompletedVideos | story-to-video-app/src/lib/db/media.ts:181-188 | the rows with the id get the path, url and duration (null when absent), keeping id, scene, task and version; other rows are untouched |
| Media.UpdateCompletedVideo | story-to-video-app/src/lib/db/media.ts:174-190 | the videos table becomes the completed rows above; nothing else changes |
| Media.CreateImage | story-to-video-app/src/lib/db/media.ts:193-207 | appends an image row at version 1 with the given url or the picsum placeholder and the given path or `external/scene-<id>-<now>.jpg`, and returns its fresh id |
| Media.CreateVideo | story-to-video-app/src/lib/db/media.ts:209-224 | appends a video row at version 1 with the given url or the sample clip for the order index (0 when absent), looked up with the corrected remainder and the given path or `external/scene-<id>-<now>.mp4`, and returns its fresh id |
| Media.FreeImageMayNotBeLatest | story-to-video-app/src/lib/db/media.ts:193-207 | because the free path always writes version 1, a free image added beside a version-2 image is not the scene's latest image |
| Projects.ApplyUpdate | story-to-video-app/src/lib/db/projects.ts:128-131 | `{ ...updates, updated_at: now }`: each supplied field replaces the column, every field left out keeps its value, the id and owner never change and `updated_at` becomes the time of the update |
| Projects.UpdateProjectRows | story-to-video-app/src/lib/db/projects.ts:128-131 | the table keeps its length; rows with the id get the update and every other row is untouched |
| Projects.CreateProject | story-to-video-app/src/lib/db/projects.ts:22-45 | appends one project row with a fresh id, owned by the caller, at stage `draft`, story defaulting to "" and style to "default", and returns it; no other table changes |
| Projects.Window | story-to-video-app/src/lib/db/projects.ts:54-60 | `.range(offset, offset + limit - 1)` yields at most `limit` rows: the rows from the offset on that exist, empty past the end, each taken from the list |
| Projects.ConsecutivePages | story-to-video-app/src/lib/db/projects.ts:52-60 | page n and page n+1 together are the double-size window at page n's offset: the pages tile the list without gap or overlap |
| Projects.GetProjects | story-to-video-app/src/lib/db/projects.ts:47-69 | returns page `page` (default 1) of `limit` (default 20) rows of the caller's projects, newest `updated_at` first, each one a row of the caller; `total` counts all of the caller's projects |
| Projects.WindowKeepsOrder | story-to-video-app/src/lib/db/projects.ts:59-60 | a page cut from a newest-first list is itself newest first |
| Projects.GetProjectById | story-to-video-app/src/lib/db/projects.ts:71-106 | `not_found` unless exactly one row has the id and belongs to the user; otherwise that project, with the project's scenes in `order_index` order, each carrying exactly its own images and videos |
| Projects.ForeignProjectIsHidden | story-to-video-app/src/lib/db/projects.ts:76-84 | when no row with the id belongs to the user, the owner-scoped read finds nothing, so another user's project is never returned |
| Projects.UpdateProject | story-to-video-app/src/lib/db/projects.ts:108-136 | a missing project or one owned by someone else gives `unauthorized` and changes nothing; otherwise the rows with the id get the supplied fields and the new `updated_at`, and the updated row is returned |
| Projects.UpdateTouchesOnlyThatProject | story-to-video-app/src/lib/db/projects.ts:128-131 | an update keeps every row's id and owner and leaves every other project as it was |
| Projects.DeleteProject | story-to-video-app/src/lib/db/projects.ts:138-149 | the same ownership check gives `unauthorized` and changes nothing; otherwise exactly the rows with the id are removed, the rest kept in order |
| Http.Precheck | story-to-video-app/src/app/api/generate/images/route.ts:19-35 | a request goes on exactly when a user is signed in and the body is JSON with a truthy `projectId`; otherwise 401 "未登录", or 400 "无效 JSON", or 400 "缺少 projectId", checked in that order; a `null` body, destructured outside every `try`, escapes as the framework's bare 500, and it is the only body that does |
| Fallback.Classify | story-to-video-app/src/app/api/generate/images/route.ts:48-71 | a premium success is kept; a premium error whose message matches the not-activated pattern falls back to the free path; any other error is rethrown with its message |
| Fallback.NotActivatedIgnoresCase | story-to-video-app/src/app/api/generate/images/route.ts:65 | the `/i` test classifies a message exactly as it classifies its lower-cased form |
| Fallback.PleaseOnOneLine | story-to-video-app/src/app/api/generate/images/route.ts:65 | `请.*开通` matches "请先开通" but not "请" and "开通" split by a line break, since `.` stops at line terminators |
| Fallback.Steps | story-to-video-app/src/app/api/generate/images/route.ts:45-80 | a batch takes at most one step per scene, and it stops early only on an aborting step, which is its last |
| Fallback.NotActivatedIsSticky | story-to-video-app/src/app/api/generate/videos/route.ts:39-74 | once a scene reports the premium model not activated, every later scene takes the free path without consulting it; a scene reaches the provider only if no earlier scene switched it off; with the provider off on entry no scene consults it |
| Fallback.StepsUnfold | story-to-video-app/src/app/api/generate/images/route.ts:45-80 | the steps from scene i on are scene i's step followed, unless it aborts, by the steps from scene i+1 with the provider switched off if scene i reported not activated |
| Fallback.StickyOverThree | story-to-video-app/src/app/api/generate/images/route.ts:43-72 | a batch of three whose first premium call reports not activated takes the free path for the two later scenes without consulting the provider |
| Database.PlainScenes | story-to-video-app/src/app/api/generate/images/route.ts:38 | the plain scene rows of the loaded scenes, one per scene and in the same order, as both generation routes take them (videos/route.ts:35 likewise) |
| GenerateImages.StatusOverwrite | story-to-video-app/src/app/api/generate/images/route.ts:46-79 | writing `processing` and then `completed` to a scene leaves the table as writing `completed` alone |
| GenerateImages.WriteImage | story-to-video-app/src/app/api/generate/images/route.ts:50-78 | a premium step uploads the picture as `scene-<id>-<now>.png` and records it with the next version; any other step records the free URL at version 1; one image row is added in either case |
| GenerateImages.HandleScene | story-to-video-app/src/app/api/generate/images/route.ts:45-80 | one loop turn: the scene goes `processing`; an aborting step stops there and adds nothing; otherwise the scene ends `completed` with exactly one new image row (and the upload, on the premium path) |
| GenerateImages.CompletedFirstAt | story-to-video-app/src/app/api/generate/images/route.ts:45-80 | after k turns the scene rows whose id is one of the first k handled scenes' ids are image-`completed` and every other row is unchanged |
| GenerateImages.CompletedRowAt | story-to-video-app/src/app/api/generate/images/route.ts:45-80 | a single scene row after k turns is image-`completed` exactly when its id is one of the first k handled scenes' ids, and is otherwise unchanged |
| Fallback.Appended | story-to-video-app/src/app/api/generate/images/route.ts:45-80 | the first k turns of a batch append exactly k rows, the image rows of the images route and the video rows of the videos route (videos/route.ts:41-74) |
| GenerateImages.AddedImagesAre | story-to-video-app/src/app/api/generate/images/route.ts:50-78 | the j-th row the route appends belongs to the j-th handled scene under the j-th new id: a premium row holds the picture uploaded as `scene-<id>-<timestamp>.png` in the caller's project folder and its signed URL, a free row the free URL as version 1 |
| GenerateImages.AddedImageAt | story-to-video-app/src/app/api/generate/images/route.ts:50-78 | the j-th row appended while handling any longer prefix of the batch is still the row written for the j-th handled scene |
| GenerateImages.PremiumPathsAre | story-to-video-app/src/app/api/generate/images/route.ts:53-61 | a storage path is uploaded exactly when some handled scene took the premium step and the path is that scene's premium file in the caller's project folder |
| GenerateImages.HandledNone | story-to-video-app/src/app/api/generate/images/route.ts:43-45 | before the first turn the tables are as they were |
| GenerateImages.HandledNext | story-to-video-app/src/app/api/generate/images/route.ts:45-80 | the tables after i+1 turns are those after i turns with the i-th scene handled: `completed`, one new row numbered and versioned against the table as it then stands, and its upload if premium |
| GenerateImages.StepsAdvance | story-to-video-app/src/app/api/generate/images/route.ts:45-80 | the step scene i takes is the i-th of the batch's steps, an abort is the last step, and the remaining steps are those of the rest of the batch with the provider's new on/off state |
| GenerateImages.Advance | story-to-video-app/src/app/api/generate/images/route.ts:45-80 | one turn keeps the loop's invariant: the step taken is the batch's step for that scene; a non-abort step moves the tables from the first i handled scenes to the first i+1; an abort leaves that scene `processing` and writes nothing else |
| GenerateImages.ProcessBatch | story-to-video-app/src/app/api/generate/images/route.ts:43-80 | the loop's outcome: an abort exactly when the batch's steps abort, with the provider's message; the tables are those of the handled scenes (each `completed`, with its image row and, if premium, its upload), with the failing scene left `processing` after an abort; no video or project change |
| GenerateImages.Post | story-to-video-app/src/app/api/generate/images/route.ts:18-89 | the guards reply and change nothing; a project that is missing or not the caller's is a 500 with its message; an aborted batch is a 500 with the provider's message and leaves the stage alone; otherwise every eligible scene is `completed` with one new image, the stage becomes `images` and the reply counts the eligible scenes |
| GenerateImages.BatchIsEligible | story-to-video-app/src/app/api/generate/images/route.ts:38-40 | the batch holds exactly the loaded scenes whose description is confirmed and whose image is pending |
| GenerateVideos.HandledIs | story-to-video-app/src/app/api/generate/videos/route.ts:55-72 | a handled scene adds one video row under the next id, sets its status to `processing` for a submitted task or `completed` otherwise, and adds a result entry only for a submitted task |
| GenerateVideos.HandledNone | story-to-video-app/src/app/api/generate/videos/route.ts:38-41 | before the loop the tables and the result list are as they started |
| GenerateVideos.HandledNext | story-to-video-app/src/app/api/generate/videos/route.ts:41-74 | handling scene k after the first k scenes gives the tables and results of the first k+1 |
| GenerateVideos.ConsultScene | story-to-video-app/src/app/api/generate/videos/route.ts:43-69 | while the provider is in use, a scene with a picture submits its latest picture (signed url for a stored file, else the row's url) and the outcome is classified; without a picture or with the provider off the scene takes the free path |
| GenerateVideos.WriteScene | story-to-video-app/src/app/api/generate/videos/route.ts:55-73 | a submitted task gets a `processing` row and status and joins `results` with the new row's id; otherwise the sample clip for the scene's order index is written and the scene becomes `completed` |
| GenerateVideos.HandleScene | story-to-video-app/src/app/api/generate/videos/route.ts:41-74 | one loop turn takes the batch's step for the scene; an abort writes nothing, any other step writes that scene's row, status and result |
| GenerateVideos.StepsAdvance | story-to-video-app/src/app/api/generate/videos/route.ts:41-74 | the step scene i takes is the i-th of the batch's steps, an abort is the last step, and the remaining steps are those of the rest of the batch with the provider's new on/off state |
| GenerateVideos.Advance | story-to-video-app/src/app/api/generate/videos/route.ts:41-74 | one turn keeps the loop invariant: the tables and results are those of the scenes handled so far |
| GenerateVideos.ProcessBatch | story-to-video-app/src/app/api/generate/videos/route.ts:38-74 | an abort exactly when the batch's steps abort, with the provider's message; the tables and `results` are those of the scenes handled before it, in order; images, objects and projects are untouched |
| GenerateVideos.StatusesAfterAt | story-to-video-app/src/app/api/generate/videos/route.ts:56-72 | only the video status of scene rows changes; a row no handled scene names is untouched; a handled row carries the status of the last handled scene with its id |
| GenerateVideos.StatusesAfterColumns | story-to-video-app/src/app/api/generate/videos/route.ts:56-72 | the per-scene status updates keep every row and change no column but the video status |
| GenerateVideos.StatusesAfterUntouched | story-to-video-app/src/app/api/generate/videos/route.ts:56-72 | a scene row whose id no handled scene carries is exactly as before |
| GenerateVideos.StatusesAfterLast | story-to-video-app/src/app/api/generate/videos/route.ts:56-72 | a handled scene's row carries the status written for the last handled scene with that id |
| GenerateVideos.StatusAfterLastAt | story-to-video-app/src/app/api/generate/videos/route.ts:56-72 | the same for one row and one handled scene that no later handled scene shares an id with |
| GenerateVideos.AddedVideosAre | story-to-video-app/src/app/api/generate/videos/route.ts:55-71 | the j-th appended row belongs to the j-th handled scene under the j-th new id: a submitted task's row has no file and records the task; a free row holds the scene's sample clip as version 1 |
| GenerateVideos.AddedVideoAt | story-to-video-app/src/app/api/generate/videos/route.ts:55-71 | the j-th row appended while handling any longer prefix of the batch is still the row written for the j-th handled scene |
| GenerateVideos.SubmittedAreTasks | story-to-video-app/src/app/api/generate/videos/route.ts:57 | `results` lists exactly the submitted tasks, each naming its scene, its task id and the id of the row inserted for it |
| GenerateVideos.SubmittedMember | story-to-video-app/src/app/api/generate/videos/route.ts:57 | every entry of `results` is the entry of some handled scene whose task was created |
| GenerateVideos.SubmittedIncludes | story-to-video-app/src/app/api/generate/videos/route.ts:57 | every handled scene whose task was created has its entry in `results` |
| GenerateVideos.Post | story-to-video-app/src/app/api/generate/videos/route.ts:15-87 | the guards reply and change nothing; a project that is missing or not the caller's is a 500 with its message; an aborted batch is a 500 with the provider's message and leaves the stage alone; otherwise the stage becomes `videos` and the reply counts the eligible scenes and lists the submitted tasks |
| GenerateVideos.BatchIsEligible | story-to-video-app/src/app/api/generate/videos/route.ts:35-37 | the batch holds exactly the loaded scenes whose image is confirmed and whose video is pending |
| GenerateScenes.Generate | story-to-video-app/src/app/api/generate/scenes/route.ts:36 | the generator is called with the project's trimmed story and its style, and its outcome is returned as is |
| GenerateScenes.NoStoryWhenBlank | story-to-video-app/src/app/api/generate/scenes/route.ts:32-35 | the story counts as missing exactly when there is none or it is white space only |
| GenerateScenes.ReplacedScenes | story-to-video-app/src/app/api/generate/scenes/route.ts:37-41 | after delete-then-create the project's scenes are exactly the new rows, one per generated scene in the generator's order with its order index and description, all unconfirmed and pending; every other project's scene is kept |
| GenerateScenes.ReplacedSelectsNew | story-to-video-app/src/app/api/generate/scenes/route.ts:37-41 | selecting the project's scenes after delete-then-create yields exactly the newly created rows: none of the old ones is left |
| GenerateScenes.Post | story-to-video-app/src/app/api/generate/scenes/route.ts:12-48 | the guards, a project that is missing or not the caller's (500), a blank story (400) and a generator error (500 with its message) all change nothing; otherwise the project's old scenes and their media are replaced by the generated scenes, the stage becomes `scenes` and the reply carries the created rows |
| StoryConfirm.DescriptionsFailure | story-to-video-app/src/app/api/scenes/confirm-all-descriptions/route.ts:34-45 | the description route answers `not_found` with 404 and `unauthorized` with 403, exactly, and every error reply is an error |
| StoryConfirm.ImagesFailure | story-to-video-app/src/app/api/scenes/confirm-all-images/route.ts:29-37 | the image route answers `not_found`, and only it, with 404; every other error is a 500 carrying its message |
| StoryConfirm.UnauthorizedDiffers | story-to-video-app/src/app/api/scenes/confirm-all-images/route.ts:29-37 | an `unauthorized` error is 403 on the description route but 500 "无权限" on the image route |
| StoryConfirm.ConfirmAllDescriptions | story-to-video-app/src/app/api/scenes/confirm-all-descriptions/route.ts:11-46 | the guards and a project the caller cannot load change nothing; otherwise every description of the project is confirmed and then the stage becomes `images`; a failing stage write still leaves the descriptions confirmed |
| StoryConfirm.ConfirmAllImages | story-to-video-app/src/app/api/scenes/confirm-all-images/route.ts:6-38 | the same steps with every image of the project confirmed whatever its status, then the stage `videos`; a failing stage write surfaces as 500 and keeps the confirmations |
| HelloConfirm.Guard | hello-nextjs/src/app/api/scenes/confirm-all-descriptions/route.ts:16-35 | no user is 401 "Unauthorized"; a body that is not JSON or is `null` throws inside the `try` and is a 500 with the route's failure message; a missing `projectId` is 400; otherwise the request goes on |
| HelloConfirm.GuardMatchesPrecheck | hello-nextjs/src/app/api/scenes/confirm-all-descriptions/route.ts:16-35 | the hello-nextjs guard and the story app's precheck let exactly the same requests on and give the same status for a missing user or `projectId`; they differ only on a body that is not JSON (400 against 500) and on a `null` body (an escaped exception against 500) |
| HelloConfirm.ConfirmAllDescriptions | hello-nextjs/src/app/api/scenes/confirm-all-descriptions/route.ts:16-59 | a non-owner gets 403 and nothing changes; an owner gets every description of the project confirmed and the number of the project's scenes back; the stage is left alone |
| HelloConfirm.ConfirmAllImages | hello-nextjs/src/app/api/scenes/confirm-all-images/route.ts:16-59 | a non-owner gets 403 and nothing changes; an owner gets exactly the project's image-`completed` scenes confirmed and their number back, so confirmed images stay completed ones; the stage is left alone |
| HelloConfirm.StageFailure | hello-nextjs/src/app/api/scenes/confirm-all-videos/route.ts:56-68 | a stage-write error is 404 exactly for `not_found`, 403 exactly for `unauthorized`, else 500 |
| HelloConfirm.UpdateProjectStage | hello-nextjs/src/app/api/scenes/confirm-all-videos/route.ts:47 | the stage write either fails with its error and changes nothing, or writes the project's stage and nothing else |
| HelloConfirm.ConfirmAllVideos | hello-nextjs/src/app/api/scenes/confirm-all-videos/route.ts:16-70 | a non-owner gets 403 and nothing changes; an owner gets exactly the project's video-`completed` scenes confirmed, then the stage becomes `completed` and the reply is the count with that stage; a failing stage write keeps the confirmations and answers its error |
| DescriptionQuery.FallbackQuery | story-to-video-app/src/lib/ai/description-to-query.ts:56-61 | the fallback keywords are never empty, at most 30 characters and free of CJK ideographs: the collapsed, trimmed 30-character cut when it has no ideograph and is not empty, else "story scene" |
| DescriptionQuery.GenericHasNoCjk | story-to-video-app/src/lib/ai/description-to-query.ts:59-60 | the generic keywords hold no CJK ideograph |
| DescriptionQuery.Accepted | story-to-video-app/src/lib/ai/description-to-query.ts:44-49 | the model's answer is used exactly when the request succeeded and the trimmed content is present, non-empty and at most 80 characters, and then it is that trimmed content |
| DescriptionQuery.ImageSearchQuery | story-to-video-app/src/lib/ai/description-to-query.ts:12-54 | the query is never empty and at most 80 characters; a blank description gives "story scene"; without a key it is the fallback of the first 500 trimmed characters |
| DescriptionQuery.AnswerUsedExactlyWhenUsable | story-to-video-app/src/lib/ai/description-to-query.ts:20-53 | with a key and a non-blank description, a usable answer is returned trimmed, and a thrown request, a failed status, or a missing, blank or over-long answer all fall back |
| DescriptionQuery.OnlyFirst500Matter | story-to-video-app/src/lib/ai/description-to-query.ts:13 | two descriptions that agree on their first 500 trimmed characters give the same query |
| Unsplash.SearchTerm | story-to-video-app/src/lib/images/unsplash.ts:20 | the search term is never empty and at most 100 characters: the trimmed query cut to 100 characters, or "scene" for a blank query |
| Unsplash.FirstPhotoUrl | story-to-video-app/src/lib/images/unsplash.ts:28-29 | a url exactly when the first hit has a regular or a small url; the regular one wins and an empty string counts as present |
| Unsplash.PhotoUrlByQuery | story-to-video-app/src/lib/images/unsplash.ts:18-33 | a photo url only with a key and a successful search, and then the first hit's url; no key, a failed status or a thrown request give null |
| VolcImage.StyleSuffix | story-to-video-app/src/lib/ai/volc-image.ts:22-36 | a known style gets its own English suffix; a missing or unknown style gets the realistic one (inherited property names are not modelled, see Left out) |
| VolcImage.FullPromptCarriesText | story-to-video-app/src/lib/ai/volc-image.ts:54 | the prompt sent is the unified prefix, a space, the trimmed text cut to 560 characters and the style suffix, and the text and suffix can be read back from their positions |
| VolcImage.AttemptOutcome | story-to-video-app/src/lib/ai/volc-image.ts:67-106 | an attempt times out exactly when the request was aborted, and yields an image only from a successful reply without an error field whose data array is non-empty |
| VolcImage.B64Preferred | story-to-video-app/src/lib/ai/volc-image.ts:86-100 | a non-empty `b64_json` is returned as is; otherwise a non-empty url gives an image exactly when its download succeeds; with neither the attempt fails with the no-image message |
| VolcImage.RunFrom | story-to-video-app/src/lib/ai/volc-image.ts:66-113 | the loop makes at most two requests; past the last attempt it raises the latest failure's message, or the generic one; a success is the image of the attempt it stopped at |
| VolcImage.Generated | story-to-video-app/src/lib/ai/volc-image.ts:46-53 | no more than two requests are made, and without a key none is made and the call fails with the missing-key message |
| VolcImage.Backoffs | story-to-video-app/src/lib/ai/volc-image.ts:107-108 | the wait before attempt i+2 is 1500·(i+1) milliseconds |
| VolcImage.GenerateImageFromPrompt | story-to-video-app/src/lib/ai/volc-image.ts:46-114 | the loop returns what the attempts' outcomes determine, makes at most two requests, and waits once before each further attempt and never after the last |
| VolcImage.TimeoutStops | story-to-video-app/src/lib/ai/volc-image.ts:103-106 | a timeout on the first attempt ends the call at once with the timeout message and no retry |
| VolcImage.SucceedsExactlyWhen | story-to-video-app/src/lib/ai/volc-image.ts:66-113 | the call succeeds exactly when the first attempt yields an image or fails without timing out and the second yields one; two failures raise the second failure's message |
| VolcVideo.StyleHint | story-to-video-app/src/lib/ai/volc-video.ts:48-73 | a known style gets its own hint; a missing or unknown style gets the realistic one (inherited property names are not modelled, see Left out) |
| VolcVideo.PromptText | story-to-video-app/src/lib/ai/volc-video.ts:74 | the shot text is at most 400 characters: the default prompt when none is given, else the given prompt trimmed and cut (an empty prompt stays empty) |
| VolcVideo.BuildRequest | story-to-video-app/src/lib/ai/volc-video.ts:72-84 | the request names the fixed model and the image url, carries no watermark, a duration defaulting to 5, and the text `整体风格：<hint>。本镜头：<text>，时长约<duration>秒，与前后镜头衔接自然。` |
| VolcVideo.CreateVideoTask | story-to-video-app/src/lib/ai/volc-video.ts:66-102 | without a key it fails before any request; it succeeds exactly when the reply has no error field, an ok status and a non-empty id, and the task id is that id |
| VolcVideo.CreateErrorFieldFirst | story-to-video-app/src/lib/ai/volc-video.ts:99-100 | an error field with neither message nor code fails with the generic creation message even when the HTTP status is fine |
| VolcVideo.NormaliseStatus | story-to-video-app/src/lib/ai/volc-video.ts:122-126 | after lower-casing, running/processing give `processing`, success/succeeded/completed give `completed`, failed gives `failed`, each exactly, and anything else `pending` |
| VolcVideo.NormaliseIgnoresCase | story-to-video-app/src/lib/ai/volc-video.ts:123 | a status word and its lower-cased form normalise alike |
| VolcVideo.VideoTaskStatus | story-to-video-app/src/lib/ai/volc-video.ts:107-130 | without a key it fails before any request; an error field gives `failed` with its message before the HTTP status is looked at; otherwise an ok reply gives the normalised status and `content.video_url`, falling back to `output.url` |
| StoryToScenes.FirstWordLen | story-to-video-app/src/lib/ai/story-to-scenes.ts:84 | a connective word is recognised only where one of the listed words starts the text, and its length is that word's |
| StoryToScenes.TrimmedPieces | story-to-video-app/src/lib/ai/story-to-scenes.ts:94-97 | every piece kept after trimming is trimmed and longer than one character |
| StoryToScenes.ChunkSize | story-to-video-app/src/lib/ai/story-to-scenes.ts:110-111 | a non-empty block gets a chunk size of at least one, so the chunking loop advances |
| StoryToScenes.ChunkEnd | story-to-video-app/src/lib/ai/story-to-scenes.ts:113-118 | each chunk ends strictly after it starts and never past the block |
| StoryToScenes.ChunksAreSolid | story-to-video-app/src/lib/ai/story-to-scenes.ts:119-120 | blank chunks are dropped, so every chunk kept starts with a non-blank character |
| StoryToScenes.RawSegments | story-to-video-app/src/lib/ai/story-to-scenes.ts:94-124 | the segments before normalisation (sentences, else soft pieces, else length chunks) are all non-blank |
| StoryToScenes.GroupBounds | story-to-video-app/src/lib/ai/story-to-scenes.ts:131-134 | every merge group's start is at most its end, which is at most the number of segments |
| StoryToScenes.GroupNonEmpty | story-to-video-app/src/lib/ai/story-to-scenes.ts:131-134 | with more segments than groups, every group holds at least one segment |
| StoryToScenes.Merged | story-to-video-app/src/lib/ai/story-to-scenes.ts:130-138 | merging produces exactly `want` strings |
| StoryToScenes.Template | story-to-video-app/src/lib/ai/story-to-scenes.ts:141-143 | the template gives four scenes, each the combined text framed with the four suffixes in order |
| StoryToScenes.FirstEight | story-to-video-app/src/lib/ai/story-to-scenes.ts:145 | the result is the first min(8, n) segments |
| StoryToScenes.ChunkEndAt | story-to-video-app/src/lib/ai/story-to-scenes.ts:113-118 | the loop's end computation agrees with the chunk-end specification |
| StoryToScenes.ChunkByLength | story-to-video-app/src/lib/ai/story-to-scenes.ts:112-122 | the chunking loop produces exactly the specified chunks |
| StoryToScenes.MergeGroups | story-to-video-app/src/lib/ai/story-to-scenes.ts:130-138 | the merging loop produces exactly the specified groups |
| StoryToScenes.SplitRaw | story-to-video-app/src/lib/ai/story-to-scenes.ts:94-124 | the three-stage split produces exactly the specified raw segments |
| StoryToScenes.SplitParagraphToSegments | story-to-video-app/src/lib/ai/story-to-scenes.ts:89-146 | the splitter agrees with its specification; a blank story gives the single placeholder and any other story between four and eight segments |
| StoryToScenes.GroupsAreNonEmpty | story-to-video-app/src/lib/ai/story-to-scenes.ts:133-137 | each merge group covers a non-empty range of segments and its joined, trimmed text is non-empty, so the fallback is never used |
| StoryToScenes.MergedSize | story-to-video-app/src/lib/ai/story-to-scenes.ts:139 | filtering the merged groups removes nothing |
| StoryToScenes.SegmentCount | story-to-video-app/src/lib/ai/story-to-scenes.ts:89-146 | a blank story gives the single placeholder; any other story gives between four and eight segments |
| StoryToScenes.SolidStoryCount | story-to-video-app/src/lib/ai/story-to-scenes.ts:125-145 | a story that is not blank gives between four and eight segments |
| StoryToScenes.FinishSize | story-to-video-app/src/lib/ai/story-to-scenes.ts:125-145 | from non-blank raw segments, the final count is between four and eight |
| StoryToScenes.NormalizeSize | story-to-video-app/src/lib/ai/story-to-scenes.ts:128-144 | normalising non-blank segments leaves at least four |
| StoryToScenes.FewSegmentsUseTemplate | story-to-video-app/src/lib/ai/story-to-scenes.ts:125-144 | with fewer than four raw segments the result is the four template scenes built from the comma-joined segments |
| StoryToScenes.ManySegmentsMerge | story-to-video-app/src/lib/ai/story-to-scenes.ts:128-139 | with more than eight raw segments the result is eight groups that tile the segments in order, each the trimmed comma-join of its range |
| StoryToScenes.MockDescription | story-to-video-app/src/lib/ai/story-to-scenes.ts:155 | every description starts with the shot prefix followed by the segment, and gets the shot tail exactly when the segment has at most eight characters |
| StoryToScenes.MockScenes | story-to-video-app/src/lib/ai/story-to-scenes.ts:153-156 | one scene per segment, numbered from 1, with the framed description |
| StoryToScenes.MockStoryToScenes | story-to-video-app/src/lib/ai/story-to-scenes.ts:151-156 | the mock numbers the splitter's segments, so a non-blank story gets four to eight scenes |
| StoryToScenes.DescriptionOf | story-to-video-app/src/lib/ai/story-to-scenes.ts:37 | a scene description is never empty and always trimmed |
| StoryToScenes.SceneItems | story-to-video-app/src/lib/ai/story-to-scenes.ts:35-38 | mapping succeeds exactly when no element is null, and then yields one item per element, in order |
| StoryToScenes.LastIndexOf | story-to-video-app/src/lib/ai/story-to-scenes.ts:31 | the index found holds the character and none follows it; -1 means the character is absent |
| StoryToScenes.BraceBlock | story-to-video-app/src/lib/ai/story-to-scenes.ts:31 | a block is found exactly when some `{` precedes some `}`, and it starts with `{` and ends with `}` |
| StoryToScenes.ParseScenesJson | story-to-video-app/src/lib/ai/story-to-scenes.ts:30-39 | text without a brace block fails with the not-found message; every scene parsed has a non-empty trimmed description |
| StoryToScenes.ParseScenesJsonOutcome | story-to-video-app/src/lib/ai/story-to-scenes.ts:33-38 | a parsed object whose `scenes` is missing or not an array is rejected; an array of objects is accepted element for element with numeric order index and description (order indexes from strings cover decimal integers only, see Left out) |
| StoryToScenes.StoryToScenes | story-to-video-app/src/lib/ai/story-to-scenes.ts:44-81 | without an API key the result is the mock split; with one, a thrown request error is passed on, a failed HTTP status becomes the error carrying status and body, a missing or empty answer is the error "AI 未返回内容", and a non-empty answer is parsed as a scene list |
| StoryToScenes.AnsweredScenesAreDescribed | story-to-video-app/src/lib/ai/story-to-scenes.ts:78-80 | with an API key, scenes come only from the model's answer, and every description is non-empty and trimmed |
| StoryToScenes.NoKeyNoCall | story-to-video-app/src/lib/ai/story-to-scenes.ts:48-50 | without an API key the text model is never consulted |
| ImagesStageView.LatestImage | story-to-video-app/src/components/project/ImagesStageView.tsx:58-63 | the image shown is null exactly for a scene without images, and otherwise one of its images with the highest version |
| ImagesStageView.LatestImageIsStoreLatest | story-to-video-app/src/components/project/ImagesStageView.tsx:58-63 | the view's newest-first pick and the store's latest image carry the same version |
| ImagesStageView.AllImagesDoneMeans | story-to-video-app/src/components/project/ImagesStageView.tsx:54-56 | all images are done exactly when no scene's image is pending and some scene's image is completed |
| ImagesStageView.BatchEnablesGenerate | story-to-video-app/src/components/project/ImagesStageView.tsx:54-100 | whenever the image route would handle some scene, the "generate all images" button is enabled while no request runs |
| ImagesStageView.ConfirmExcludesGenerate | story-to-video-app/src/components/project/ImagesStageView.tsx:94-105 | once the confirm button is shown, the generate button is disabled |
| VideosStageView.TargetOf | story-to-video-app/src/components/project/VideosStageView.tsx:52-54 | a scene contributes at most one polling target |
| VideosStageView.CollectPollTargets | story-to-video-app/src/components/project/VideosStageView.tsx:48-55 | the loop collects exactly the specified polling targets, in scene order |
| VideosStageView.TaskOfScene | story-to-video-app/src/components/project/VideosStageView.tsx:52-54 | one turn of the loop: a scene yields a polling target exactly when its newest video records a non-empty task id, and the target names that scene, task and video |
| VideosStageView.TargetOfIs | story-to-video-app/src/components/project/VideosStageView.tsx:52-54 | a processing scene's target is a given task exactly when it is its newest video's non-empty task id, with that scene's and video's ids |
| VideosStageView.PollTargetsExact | story-to-video-app/src/components/project/VideosStageView.tsx:48-55 | a task is polled exactly when some processing scene's newest video carries it, and there are at most as many targets as processing scenes |
| VideosStageView.TargetIsPolled | story-to-video-app/src/components/project/VideosStageView.tsx:48-55 | every polled task comes from a processing scene's newest video |
| VideosStageView.PolledIsTarget | story-to-video-app/src/components/project/VideosStageView.tsx:48-55 | every processing scene whose newest video has a task id is polled |
| VideosStageView.PolledStatusPrefersData | story-to-video-app/src/components/project/VideosStageView.tsx:15 | the nested status wins over the outer one; a reply with neither reads as still processing; otherwise the status read is one the reply carries |
| VideosStageView.StatusesOf | story-to-video-app/src/components/project/VideosStageView.tsx:25-29 | one status per reply, in order, each read as the poll reads it |
| VideosStageView.RoundEndsWhenAllFinished | story-to-video-app/src/components/project/VideosStageView.tsx:30-36 | a polling round stops exactly when every reply reads completed or failed, so one silent reply keeps polling |
| VideosStageView.NeedsVideoIsBatch | story-to-video-app/src/components/project/VideosStageView.tsx:113 | the view's scenes needing a video are exactly the scenes the video route selects, in order |
| VideosStageView.NeedGenerateCountsBatch | story-to-video-app/src/components/project/VideosStageView.tsx:113-158 | the count of scenes needing a video equals the video route's batch size, so the button is usable exactly when that route has work |
| VideosStageView.AllVideosDoneMeans | story-to-video-app/src/components/project/VideosStageView.tsx:111-116 | all videos are done exactly when no scene's video is pending and some scene's video is completed |
| CompletedStageView.LatestVideo | story-to-video-app/src/components/project/CompletedStageView.tsx:7-12 | the `latestVideo` helper of both the completed and the videos view (VideosStageView.tsx:118-123): the video shown is null exactly for a scene without videos, and otherwise one of its videos with the highest version |
| CompletedStageView.ClipOf | story-to-video-app/src/components/project/CompletedStageView.tsx:22-24 | a scene contributes at most one clip |
| CompletedStageView.SceneUrlsKeepOrder | story-to-video-app/src/components/project/CompletedStageView.tsx:22-24 | the clip list of a concatenation of scenes is the concatenation of their clip lists, so clips follow scene order |
| CompletedStageView.SceneUrlsArePresent | story-to-video-app/src/components/project/CompletedStageView.tsx:22-24 | every clip is a non-empty url and there are at most as many clips as scenes |
| CompletedStageView.OneSceneUrl | story-to-video-app/src/components/project/CompletedStageView.tsx:22-24 | one scene gives its newest video's url, or nothing when that url is missing or empty |
| CompletedStageView.NextIndexInRange | story-to-video-app/src/components/project/CompletedStageView.tsx:65-71 | advancing after a clip ends stays on a valid clip |
| CompletedStageView.PlayedIndexCycles | story-to-video-app/src/components/project/CompletedStageView.tsx:65-71 | after k clips have ended the index is k modulo the number of clips, so play cycles through them in order |
| CompletedStageView.FinalVideoSource | story-to-video-app/src/components/project/CompletedStageView.tsx:25-43 | a signed url is fetched exactly when a path is recorded and no url is stored; a stored url is shown whenever there is one, the fetched one when none is stored |
| StageIndicator.CurrentIndex | story-to-video-app/src/components/project/StageIndicator.tsx:12 | every stage is found, at a position holding that stage |
| StageIndicator.StageListed | story-to-video-app/src/components/project/StageIndicator.tsx:1-7 | every stage of a project is among the listed stages |
| StageIndicator.StagesInOrder | story-to-video-app/src/components/project/StageIndicator.tsx:1-12 | each listed stage is found at its own position, draft first and completed last |
| StageIndicator.StagesDistinct | story-to-video-app/src/components/project/StageIndicator.tsx:1-7 | no stage is listed twice |
| StageIndicator.ChipLook | story-to-video-app/src/components/project/StageIndicator.tsx:16-27 | a chip is done exactly before the current stage, current exactly at it and upcoming exactly after it |
| StageIndicator.Chips | story-to-video-app/src/components/project/StageIndicator.tsx:15-33 | one chip per listed stage, in order |
| StageIndicator.LabelsUnmarked | story-to-video-app/src/components/project/StageIndicator.tsx:1-7 | no stage label itself begins with the done mark |
| StageIndicator.ChipsShowProgress | story-to-video-app/src/components/project/StageIndicator.tsx:15-33 | earlier stages are done, exactly the current one is highlighted, later ones upcoming; each chip shows its label, behind the check mark exactly when done |
| StageIndicator.ChipText | story-to-video-app/src/components/project/StageIndicator.tsx:29-30 | a chip's text ends with its label and starts with the check mark exactly before the current stage |
| HelloStageIndicator.CurrentIndex | hello-nextjs/src/components/project/StageIndicator.tsx:26 | every stage is found, at a position holding that stage |
| HelloStageIndicator.SameOrderAsStoryApp | hello-nextjs/src/components/project/StageIndicator.tsx:6-16 | both apps list the stages in the same order, so they agree on every stage's position |
| HelloStageIndicator.Steps | hello-nextjs/src/components/project/StageIndicator.tsx:32-98 | one step per listed stage, in order |
| HelloStageIndicator.StepsShowProgress | hello-nextjs/src/components/project/StageIndicator.tsx:32-98 | earlier stages are completed with a check, the current one highlighted, later ones numbered from 1; a connector follows every stage but the last, green exactly when it leaves a completed stage; the two apps agree on which stages are done |
| HelloStageIndicator.MobileShowsPosition | hello-nextjs/src/components/project/StageIndicator.tsx:102-130 | the narrow view shows the current label, its position among the five stages, and fills the dots up to and including the current one |
| Middleware.ProtectedByPrefix | story-to-video-app/src/middleware.ts:17-20 | a path is protected exactly when it starts with `/projects` or `/create`, and an auth page exactly when it starts with `/login` or `/register` |
| Middleware.PrefixNotSegment | story-to-video-app/src/middleware.ts:17-20 | protection is by string prefix, not by path segment: `/projectsX` and `/created` are protected, `/` and `/login` are not |
| Middleware.DecideCases | story-to-video-app/src/middleware.ts:22-30 | a visitor without a session is sent to login exactly on a protected path; a signed-in user is sent home exactly on an auth path; everything else passes |
| Middleware.RedirectsSettle | story-to-video-app/src/middleware.ts:22-30 | neither redirect loops: the login page admits a visitor without a session and home admits a signed-in user |
| Text.Trim | story-to-video-app/src/lib/ai/story-to-scenes.ts:90 | the result is a trimmed slice of the input with only blanks cut from either end, and is empty exactly when the input is blank |
| Text.Take | story-to-video-app/src/lib/ai/story-to-scenes.ts:90 | the result is the input's prefix of length min(n, length) |
| Text.Lower | story-to-video-app/src/lib/ai/volc-video.ts:123 | each ASCII capital A-Z becomes its lower-case letter and every other character is kept, so the length is kept; this is `toLowerCase` restricted to the A-Z fold (see Left out) |
| Text.LowerIsIdempotent | story-to-video-app/src/lib/ai/volc-video.ts:123 | lower-casing twice is lower-casing once |
| Text.CollapseSpaces | story-to-video-app/src/lib/ai/description-to-query.ts:58 | every blank run becomes a single space, no two spaces are adjacent, a non-blank first character is kept, and the text never grows |
| Text.Without | story-to-video-app/src/lib/db/media.ts:12 | removing a character leaves none of it and adds nothing |
| Text.FirstIndex | story-to-video-app/src/lib/ai/story-to-scenes.ts:116 | the position found is the first character matching, or -1 when none does |
| Order.Filter | story-to-video-app/src/components/project/ImagesStageView.tsx:54-55 | the result holds exactly the elements meeting the condition, drawn from the input |
| Order.SortAsc | story-to-video-app/src/lib/db/scenes.ts:47 | the result is sorted by ascending key and is a permutation of the input |
| Order.SortDesc | story-to-video-app/src/components/project/ImagesStageView.tsx:61 | the result is sorted by descending key and is a permutation of the input |
| Order.Latest | story-to-video-app/src/lib/db/media.ts:102-113 | none exactly for an empty input; otherwise an element whose key no other element exceeds |
| Order.MaxKeyWhereIsMax | story-to-video-app/src/lib/db/media.ts:66-73 | the highest key among matching elements is none exactly when nothing matches, and otherwise is attained by a match and bounds every match |
| Order.SortedHead | story-to-video-app/src/components/project/ImagesStageView.tsx:58-63 | the head of a descending sort is none exactly for an empty input, and otherwise an element with the largest key |
| Order.SortedHeadKeyIsLatestKey | story-to-video-app/src/components/project/ImagesStageView.tsx:58-63 | the view's sorted head and the store's latest pick carry the same key |
| Order.IndexOf | story-to-video-app/src/components/project/StageIndicator.tsx:12 | the position found is the first one holding the element, or -1 exactly when it is absent |

## Left out

- Store failures. Every store call succeeds except where the source itself reports a missing row: `.single()` on no row, and the owner checks. Database errors raised by inserts and bulk updates are not modelled.
- Network calls, object-storage uploads and signed-URL creation are parameters with scripted outcomes. The model does not capture request bodies on the wire or HTTP headers.
- Timers are not modelled:
  - the `AbortController` timeouts of the image and video clients (a timeout is a scripted "aborted" outcome);
  - the retry back-off delay (only whether a back-off happens is modelled);
  - the `setInterval`/`setTimeout` polling of the videos view (one polling round is modelled).
- Concurrency is not modelled:
  - the `Promise.all` fan-out of the media query in hello-nextjs;
  - the parallel polls of one round;
  - the race between reading the highest version and inserting the next one.

  Every operation runs alone.
- `Date.now()` in storage paths and in `updated_at` is a timestamp parameter.
- `JSON.parse` is a parameter. Its result is the `StoryToScenes.Json` structure, and numbers in it are integers.
- The regular expressions are explicit predicates over characters and substrings:
  - the "not activated" test;
  - the CJK test;
  - the sentence and soft split patterns;
  - the `{...}` block match.
- Text.Lower: `toLowerCase` is modelled for the ASCII letters A-Z only, and the length is always kept. The full function also folds a few non-ASCII letters: the Kelvin sign becomes "k", and a dotted capital I becomes "i" followed by a combining dot, which changes the length. The source compares with no word that contains "k", and a combining dot after "i" spoils every match. The "not activated" patterns (images/route.ts:65, videos/route.ts:61) carry `/i` without the `u` flag, so they never fold a non-ASCII character to an ASCII one. Every comparison the source makes therefore comes out the same.
- String lengths count characters, not UTF-16 code units. They differ only for characters outside the Basic Multilingual Plane.
- `Math.ceil`/`Math.floor` on fractions in the splitter are written as integer division, which gives the same value for the non-negative lengths involved.
- `isProjectOwner` and `updateProjectStage` of hello-nextjs are parameters, because their code is not part of this model. Their outcome is a scripted success, refusal or error.
- The final-video export endpoint, the signed-URL endpoint, `downloadVideo` and the video task polling route are not part of this model. The views only read what those endpoints return.
- The middleware's `matcher` pattern is not modelled. The guard is modelled for every path it runs on. The `redirect` query parameter carries the path as is: URL encoding is not modelled.
- The progress-bar width of the hello stage indicator is floating-point display arithmetic and is not modelled.
- Rendering, React state setters, page reloads and the pages and forms around the views are not modelled. Only the helpers and predicates the views compute are modelled.
- A missing `version` counting as 0 in the views' sorts is not modelled: every row of the model carries a version.
- Latest picks: when two rows of a scene share the highest version, the model does not say which one the store's query and the view's sort return. It proves only that both carry the highest version.
- GenerateImages.Post: the premium image generator is applied through the function `VolcImage.Generated`. `VolcImage.GenerateImageFromPrompt`, the imperative retry loop, is proved equal to that function.
- Projects.GetProjects: requires the page and the limit to be at least 1. The source does not check them, and the store's answer to a negative range is not modelled.
- Projects: deleting a project does not cascade to its scenes. Deleting scenes does cascade to their images and videos, as the hello-nextjs scene layer documents.
- Media.CreateVideo: the fallback clip is looked up with the corrected, non-negative remainder (`FreeSceneVideoUrl`). As written, the source gives `undefined` for a negative order index. The insert of a row without a url is then refused and `createVideo` throws "创建视频记录失败". The as-written lookup and its failing input are under Findings.
- GenerateVideos.WriteScene: a free-path row takes the corrected sample clip, so a scene with a negative order index gets a clip where the source's insert fails.
- GenerateVideos.HandleScene: writes its row through WriteScene, so it does not capture the source's failed insert for a negative order index.
- GenerateVideos.Advance: its invariant describes the rows by `NewVideo`, which uses the corrected clip lookup; the failed insert for a negative order index is not modelled.
- GenerateVideos.ProcessBatch: a batch holding a free-path scene with a negative order index completes in the model. In the source, that scene's insert fails, the error ends the loop and the scene stays `processing`.
- GenerateVideos.AddedVideosAre: states a sample clip for every free row, the corrected behaviour; the source has none for a negative order index.
- GenerateVideos.AddedVideoAt: the row it describes is `NewVideo` with the corrected clip lookup.
- GenerateVideos.Post: for a free-path scene with a negative order index, the model answers 200 and writes the stage `videos`. The source answers 500 "创建视频记录失败" and does not write the stage.
- VolcImage.StyleSuffix: the lookup `map[style] ?? map.realistic` also finds the names that every JavaScript object inherits, such as "constructor", "toString" and "__proto__". Such a style yields a function or an object, which is stringified into the prompt. The model gives those names the realistic suffix like any other unknown style.
- VolcVideo.StyleHint: the same inherited-property lookup in `STYLE_HINTS[style] ?? STYLE_HINTS.realistic` is not modelled; those names get the realistic hint.
- StoryToScenes.ParseScenesJsonOutcome: an order index given as a string is read by `NumberOfString`. It covers blank strings and optionally signed decimal integers only. Strings that `Number` reads in other forms, such as "0x10" (16), "1e3" (1000), "2.0" (2) or "Infinity", give 0 in the model.
- StoryToScenes.SceneItems: the error for a `null` scene element is the engine's `TypeError` message, "Cannot read properties of null (reading 'order_index')". That is V8's wording, which Node.js uses; other engines word it differently.
- Http.Precheck: only bodies whose `projectId` is missing or a string are modelled. A truthy `projectId` of another JSON type (a number, `true`, an array or an object) passes the `!projectId` check on every route and reaches the database queries, whose answer to it is not modelled.
- Database.Db: row ids come from a parameter `idOf` applied to the store's serial counter. The store's generated UUIDs are not modelled.

## Findings

| source | as written | input that shows it | evidently intended | confidence | as-written member | corrected member |
|---|---|---|---|---|---|---|
| story-to-video-app/src/lib/db/media.ts:25-27 | `SAMPLE_VIDEO_URLS[orderIndex % 6]`: JavaScript's `%` keeps the sign of a negative order index, and indexing with a negative number gives `undefined` | order index -1, which the text model's answer can produce | a non-negative remainder, so every scene gets one of the six sample clips | not executed | Media.NegativeOrderIndexHasNoVideo | Media.FreeVideoUrlFixesLookup |
