/**
 * The media data-access layer: free placeholder URLs, object storage, and the versioned image and
 * video tables. A new generated image or video gets one more than the scene's highest version; the
 * free-path inserts always use version 1.
 */
module Media {
  import opened Common
  import opened Order
  import opened Text
  import opened Database

  // ---------- free placeholders ----------

  /** The picsum seed: the scene id without hyphens, cut to 8 characters, or "0" when that is empty. */
  function Seed(sceneId: string): (r: string)
    ensures r != [] && |r| <= 8 && '-' !in r
    ensures var w := Without(sceneId, '-');
      w != [] ==> |r| == (if |w| < 8 then |w| else 8) && r == w[..|r|]
    ensures Without(sceneId, '-') == [] ==> r == "0"
  {
    var s := Take(Without(sceneId, '-'), 8);
    if s == [] then "0" else s
  }

  function FreeSceneImageUrl(sceneId: string): string {
    "https://picsum.photos/seed/" + Seed(sceneId) + "/800/450"
  }

  /** Two scene ids that agree once hyphens are dropped, up to their 8th character, share a placeholder. */
  lemma FreeImageUrlIgnoresHyphens(a: string, b: string)
    requires Take(Without(a, '-'), 8) == Take(Without(b, '-'), 8)
    ensures FreeSceneImageUrl(a) == FreeSceneImageUrl(b)
  {
  }

  /** The placeholder names the seed between a fixed prefix and the fixed size suffix. */
  lemma FreeImageUrlShape(sceneId: string)
    ensures var u := FreeSceneImageUrl(sceneId);
      && StartsWith(u, "https://picsum.photos/seed/")
      && u[|u| - 8..] == "/800/450"
      && u[27..|u| - 8] == Seed(sceneId)
  {
  }

  /** The public bucket the six sample clips are served from. */
  const SampleBase: string := "https://commondatastorage.googleapis.com/gtv-videos-bucket/sample/"

  const SampleVideoUrls: seq<string> := [
    SampleBase + "ForBiggerBlazes.mp4",
    SampleBase + "ForBiggerEscapes.mp4",
    SampleBase + "ForBiggerFun.mp4",
    SampleBase + "ForBiggerJoy.mp4",
    SampleBase + "ForBiggerMeltdown.mp4",
    SampleBase + "Sintel.mp4"
  ]

  /** JavaScript's `a % n`: the remainder takes the sign of the dividend. */
  function JsRem(a: int, n: int): (r: int)
    requires n > 0
    ensures -n < r < n
    ensures a >= 0 ==> r == a % n
    ensures a < 0 ==> r <= 0
  {
    if a >= 0 then a % n else -((-a) % n)
  }

  /**
   * The catalog lookup as written: `SAMPLE_VIDEO_URLS[orderIndex % 6]`. A negative order index
   * gives a negative remainder, and indexing with it yields `undefined` (None here).
   */
  function FreeSceneVideoUrlAsWritten(orderIndex: int): (r: Option<string>)
    ensures orderIndex >= 0 ==> r == Some(SampleVideoUrls[orderIndex % 6])
  {
    var k := JsRem(orderIndex, |SampleVideoUrls|);
    if 0 <= k then Some(SampleVideoUrls[k]) else None
  }

  /** Order index -1 (reachable: it comes from the text model's answer) has no placeholder video. */
  lemma NegativeOrderIndexHasNoVideo()
    ensures FreeSceneVideoUrlAsWritten(-1) == None
  {
    assert JsRem(-1, 6) == -1;
  }

  /** The catalog lookup the rotation intends: a non-negative remainder for every order index. */
  function FreeSceneVideoUrl(orderIndex: int): string {
    SampleVideoUrls[orderIndex % 6]
  }

  /** Every order index gets a catalog clip, the one the lookup as written gives whenever it gives one. */
  lemma FreeVideoUrlFixesLookup(orderIndex: int)
    ensures FreeSceneVideoUrl(orderIndex) in SampleVideoUrls
    ensures FreeSceneVideoUrlAsWritten(orderIndex).Some? ==>
      FreeSceneVideoUrlAsWritten(orderIndex) == Some(FreeSceneVideoUrl(orderIndex))
  {
  }

  /** Consecutive order indexes walk through the catalog and come back after six. */
  lemma FreeVideoUrlRotates(orderIndex: int)
    ensures FreeSceneVideoUrl(orderIndex + 6) == FreeSceneVideoUrl(orderIndex)
    ensures FreeSceneVideoUrl(orderIndex + 1) == SampleVideoUrls[(orderIndex % 6 + 1) % 6]
  {
    var q, k := orderIndex / 6, orderIndex % 6;
    assert orderIndex + 6 == 6 * (q + 1) + k;
    assert (orderIndex + 6) % 6 == k;
    if k < 5 {
      assert orderIndex + 1 == 6 * q + (k + 1);
    } else {
      assert orderIndex + 1 == 6 * (q + 1);
    }
    assert (orderIndex + 1) % 6 == (k + 1) % 6;
    assert FreeSceneVideoUrl(orderIndex + 1) == SampleVideoUrls[(orderIndex + 1) % 6];
  }

  // ---------- object storage ----------

  /** Where `uploadFile` puts a file in the media bucket. */
  function ObjectPath(userId: string, projectId: string, fileName: string): string {
    userId + "/" + projectId + "/" + fileName
  }

  /**
   * Uploads (upserting) to `<userId>/<projectId>/<fileName>` and returns the path with a signed URL
   * for it; `sign` stands for the storage service's URL signer.
   */
  method UploadFile(db: Db, userId: string, projectId: string, fileName: string, sign: string -> string)
    returns (path: string, url: string)
    modifies db
    ensures path == ObjectPath(userId, projectId, fileName) && url == sign(path)
    ensures db.objects == old(db.objects) + {path}
    ensures db.serial == old(db.serial) && db.projects == old(db.projects) && db.scenes == old(db.scenes)
    ensures db.images == old(db.images) && db.videos == old(db.videos)
  {
    path := ObjectPath(userId, projectId, fileName);
    db.objects := db.objects + {path};
    url := sign(path);
  }

  // ---------- versioned images ----------

  /** One more than the scene's highest image version, or 1 when it has none. */
  function NextImageVersion(images: seq<Image>, sceneId: string): int {
    match MaxKeyWhere(images, VersionOfImage, (i: Image) => i.sceneId == sceneId)
    case None => 1
    case Some(m) => m + 1
  }

  /** The next image version is above every version the scene has, and right after the highest one. */
  lemma NextImageVersionIsNext(images: seq<Image>, sceneId: string)
    ensures var v := NextImageVersion(images, sceneId);
      && (forall i :: 0 <= i < |images| && images[i].sceneId == sceneId ==> images[i].version < v)
      && (v == 1 || exists i :: 0 <= i < |images| && images[i].sceneId == sceneId && images[i].version == v - 1)
      && ((forall i :: 0 <= i < |images| ==> images[i].sceneId != sceneId) ==> v == 1)
  {
    MaxKeyWhereIsMax(images, VersionOfImage, (i: Image) => i.sceneId == sceneId);
  }

  function NextVideoVersion(videos: seq<Video>, sceneId: string): int {
    match MaxKeyWhere(videos, VersionOfVideo, (v: Video) => v.sceneId == sceneId)
    case None => 1
    case Some(m) => m + 1
  }

  /** The next video version is above every version the scene has, and right after the highest one. */
  lemma NextVideoVersionIsNext(videos: seq<Video>, sceneId: string)
    ensures var v := NextVideoVersion(videos, sceneId);
      && (forall i :: 0 <= i < |videos| && videos[i].sceneId == sceneId ==> videos[i].version < v)
      && (v == 1 || exists i :: 0 <= i < |videos| && videos[i].sceneId == sceneId && videos[i].version == v - 1)
      && ((forall i :: 0 <= i < |videos| ==> videos[i].sceneId != sceneId) ==> v == 1)
  {
    MaxKeyWhereIsMax(videos, VersionOfVideo, (v: Video) => v.sceneId == sceneId);
  }

  method CreateImageRecord(db: Db, sceneId: string, storagePath: string, url: string, width: Option<int>, height: Option<int>)
    returns (img: Image)
    modifies db
    ensures img == Image(db.idOf(old(db.serial)), sceneId, storagePath, url, width, height,
                         NextImageVersion(old(db.images), sceneId))
    ensures db.images == old(db.images) + [img] && db.serial == old(db.serial) + 1
    ensures db.projects == old(db.projects) && db.scenes == old(db.scenes)
    ensures db.videos == old(db.videos) && db.objects == old(db.objects)
  {
    var version := NextImageVersion(db.images, sceneId);
    img := Image(db.idOf(db.serial), sceneId, storagePath, url, width, height, version);
    db.images := db.images + [img];
    db.serial := db.serial + 1;
  }

  /** A record made with the next version is the one the latest-image query returns afterwards. */
  lemma {:induction false} NextVersionIsLatest(images: seq<Image>, img: Image)
    requires img.version == NextImageVersion(images, img.sceneId)
    ensures Latest(ImagesOfScene(images + [img], img.sceneId), VersionOfImage) == Some(img)
  {
    var before := ImagesOfScene(images, img.sceneId);
    NextImageVersionIsNext(images, img.sceneId);
    FilterAppend(images, [img], (i: Image) => i.sceneId == img.sceneId);
    assert ImagesOfScene([img], img.sceneId) == [img];
    var all := ImagesOfScene(images + [img], img.sceneId);
    assert all == before + [img];
    var r := Latest(all, VersionOfImage);
    assert all[|all| - 1] == img;
    assert img.version <= r.value.version;
  }

  method GetImagesBySceneId(db: Db, sceneId: string) returns (r: seq<Image>)
    ensures SortedDesc(r, VersionOfImage)
    ensures multiset(r) == multiset(ImagesOfScene(db.images, sceneId))
  {
    r := SortDesc(ImagesOfScene(db.images, sceneId), VersionOfImage);
  }

  /** `.order("version", { ascending: false }).limit(1).maybeSingle()`. */
  method GetLatestImageBySceneId(db: Db, sceneId: string) returns (r: Option<Image>)
    ensures r == Latest(ImagesOfScene(db.images, sceneId), VersionOfImage)
    ensures r.None? <==> forall i :: 0 <= i < |db.images| ==> db.images[i].sceneId != sceneId
    ensures r.Some? ==> r.value in db.images && r.value.sceneId == sceneId
    ensures r.Some? ==> forall i :: 0 <= i < |db.images| && db.images[i].sceneId == sceneId ==>
      db.images[i].version <= r.value.version
  {
    var mine := ImagesOfScene(db.images, sceneId);
    r := Latest(mine, VersionOfImage);
    if r.Some? {
      assert mine != [] && mine[0] in db.images && mine[0].sceneId == sceneId;
    }
  }

  method DeleteImagesBySceneId(db: Db, sceneId: string)
    modifies db
    ensures db.images == ImagesOutside(old(db.images), {sceneId})
    ensures db.serial == old(db.serial) && db.projects == old(db.projects) && db.scenes == old(db.scenes)
    ensures db.videos == old(db.videos) && db.objects == old(db.objects)
  {
    db.images := ImagesOutside(db.images, {sceneId});
  }

  /** The non-empty storage paths of the scene's images. */
  function StoredPaths(images: seq<Image>, sceneId: string): set<string> {
    set i | i in ImagesOfScene(images, sceneId) && i.storagePath != "" :: i.storagePath
  }

  /**
   * With no images nothing happens; otherwise the stored files go from the bucket and every image
   * row of the scene goes from the table.
   */
  method DeleteOldSceneImages(db: Db, sceneId: string)
    modifies db
    ensures ImagesOfScene(old(db.images), sceneId) == [] ==> db.images == old(db.images) && db.objects == old(db.objects)
    ensures ImagesOfScene(old(db.images), sceneId) != [] ==>
      && db.images == ImagesOutside(old(db.images), {sceneId})
      && db.objects == old(db.objects) - StoredPaths(old(db.images), sceneId)
    ensures forall i :: 0 <= i < |db.images| ==> db.images[i].sceneId != sceneId
    ensures db.serial == old(db.serial) && db.projects == old(db.projects) && db.scenes == old(db.scenes)
    ensures db.videos == old(db.videos)
  {
    var images := GetImagesBySceneId(db, sceneId);
    if |images| == 0 {
      assert ImagesOfScene(db.images, sceneId) == [];
      return;
    }
    assert ImagesOfScene(db.images, sceneId) != [];
    db.objects := db.objects - StoredPaths(db.images, sceneId);
    DeleteImagesBySceneId(db, sceneId);
  }

  /** Uploads the generated picture and records it with the next version. */
  method UploadAndCreateImage(db: Db, userId: string, projectId: string, sceneId: string, fileName: string,
                              width: Option<int>, height: Option<int>, sign: string -> string)
    returns (img: Image)
    modifies db
    ensures var path := ObjectPath(userId, projectId, fileName);
      && img == Image(db.idOf(old(db.serial)), sceneId, path, sign(path), width, height,
                      NextImageVersion(old(db.images), sceneId))
      && db.objects == old(db.objects) + {path}
    ensures db.images == old(db.images) + [img] && db.serial == old(db.serial) + 1
    ensures db.projects == old(db.projects) && db.scenes == old(db.scenes) && db.videos == old(db.videos)
  {
    var path, url := UploadFile(db, userId, projectId, fileName, sign);
    img := CreateImageRecord(db, sceneId, path, url, width, height);
  }

  // ---------- versioned videos ----------

  /** A premium submission's placeholder row: no file yet, the provider's task id, the next version. */
  method CreateProcessingVideo(db: Db, sceneId: string, taskId: string) returns (v: Video)
    modifies db
    ensures v == Video(db.idOf(old(db.serial)), sceneId, "", "", None, Some(taskId), NextVideoVersion(old(db.videos), sceneId))
    ensures db.videos == old(db.videos) + [v] && db.serial == old(db.serial) + 1
    ensures db.projects == old(db.projects) && db.scenes == old(db.scenes)
    ensures db.images == old(db.images) && db.objects == old(db.objects)
  {
    v := Video(db.idOf(db.serial), sceneId, "", "", None, Some(taskId), NextVideoVersion(db.videos, sceneId));
    db.videos := db.videos + [v];
    db.serial := db.serial + 1;
  }

  function CompleteVideo(v: Video, storagePath: string, url: string, duration: Option<int>): Video {
    v.(storagePath := storagePath, url := url, duration := duration)
  }

  /** The rows with the id get the file, its URL and the duration (null when absent); nothing else changes. */
  function CompletedVideos(videos: seq<Video>, videoId: string, storagePath: string, url: string, duration: Option<int>)
    : (r: seq<Video>)
    ensures |r| == |videos|
    ensures forall i :: 0 <= i < |videos| ==>
      && r[i].id == videos[i].id && r[i].sceneId == videos[i].sceneId
      && r[i].taskId == videos[i].taskId && r[i].version == videos[i].version
    ensures forall i :: 0 <= i < |videos| && videos[i].id != videoId ==> r[i] == videos[i]
    ensures forall i :: 0 <= i < |videos| && videos[i].id == videoId ==>
      r[i].storagePath == storagePath && r[i].url == url && r[i].duration == duration
  {
    seq(|videos|, i requires 0 <= i < |videos| =>
      if videos[i].id == videoId then CompleteVideo(videos[i], storagePath, url, duration) else videos[i])
  }

  method UpdateCompletedVideo(db: Db, videoId: string, storagePath: string, url: string, duration: Option<int>)
    modifies db
    ensures db.videos == CompletedVideos(old(db.videos), videoId, storagePath, url, duration)
    ensures db.serial == old(db.serial) && db.projects == old(db.projects) && db.scenes == old(db.scenes)
    ensures db.images == old(db.images) && db.objects == old(db.objects)
  {
    db.videos := CompletedVideos(db.videos, videoId, storagePath, url, duration);
  }

  // ---------- free-path inserts ----------

  /** The storage path a free-path insert invents: `external/scene-<id>-<timestamp><ext>`. */
  function ExternalPath(sceneId: string, now: int, ext: string): string {
    "external/scene-" + sceneId + "-" + IntToString(now) + ext
  }

  /** Inserts version 1, whatever the scene already has; `now` stands for `Date.now()`. */
  method CreateImage(db: Db, sceneId: string, url: Option<string>, storagePath: Option<string>, now: int)
    returns (id: string)
    modifies db
    ensures id == db.idOf(old(db.serial))
    ensures db.images == old(db.images) + [Image(id, sceneId,
      storagePath.GetOr(ExternalPath(sceneId, now, ".jpg")), url.GetOr(FreeSceneImageUrl(sceneId)), None, None, 1)]
    ensures db.serial == old(db.serial) + 1
    ensures db.projects == old(db.projects) && db.scenes == old(db.scenes)
    ensures db.videos == old(db.videos) && db.objects == old(db.objects)
  {
    var u := url.GetOr(FreeSceneImageUrl(sceneId));
    var path := storagePath.GetOr(ExternalPath(sceneId, now, ".jpg"));
    id := db.idOf(db.serial);
    db.images := db.images + [Image(id, sceneId, path, u, None, None, 1)];
    db.serial := db.serial + 1;
  }

  method CreateVideo(db: Db, sceneId: string, url: Option<string>, storagePath: Option<string>,
                     orderIndex: Option<int>, now: int)
    returns (id: string)
    modifies db
    ensures id == db.idOf(old(db.serial))
    ensures db.videos == old(db.videos) + [Video(id, sceneId,
      storagePath.GetOr(ExternalPath(sceneId, now, ".mp4")), url.GetOr(FreeSceneVideoUrl(orderIndex.GetOr(0))), None, None, 1)]
    ensures db.serial == old(db.serial) + 1
    ensures db.projects == old(db.projects) && db.scenes == old(db.scenes)
    ensures db.images == old(db.images) && db.objects == old(db.objects)
  {
    var u := url.GetOr(FreeSceneVideoUrl(orderIndex.GetOr(0)));
    var path := storagePath.GetOr(ExternalPath(sceneId, now, ".mp4"));
    id := db.idOf(db.serial);
    db.videos := db.videos + [Video(id, sceneId, path, u, None, None, 1)];
    db.serial := db.serial + 1;
  }

  /**
   * Because the free path always writes version 1, a free image added to a scene that already has a
   * version-2 image is not the scene's latest image.
   */
  lemma FreeImageMayNotBeLatest(earlier: Image, added: Image)
    requires earlier.sceneId == added.sceneId && earlier.version == 2 && added.version == 1
    ensures Latest(ImagesOfScene([earlier, added], added.sceneId), VersionOfImage) != Some(added)
  {
    var all := ImagesOfScene([earlier, added], added.sceneId);
    assert earlier in all;
  }
}
