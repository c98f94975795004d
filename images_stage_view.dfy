/**
 * The images stage view of a project: the newest image shown per scene, the pending and completed
 * scenes, and the gating of its "generate all images" and "confirm all images" buttons.
 */
module ImagesStageView {
  import opened Common
  import opened Order
  import opened Database
  import GenerateImages

  /** `latestImage`: none for a scene without images, else the head of a newest-first sort by version. */
  function LatestImage(w: SceneWithMedia): (r: Option<Image>)
    ensures r.None? <==> w.images == []
    ensures r.Some? ==> r.value in w.images && forall i :: 0 <= i < |w.images| ==> w.images[i].version <= r.value.version
  {
    SortedHead(w.images, VersionOfImage)
  }

  /** The image shown has the version of the store's latest image of the scene. */
  lemma LatestImageIsStoreLatest(w: SceneWithMedia)
    ensures LatestImage(w).Some? ==> LatestImage(w).value.version == Latest(w.images, VersionOfImage).value.version
  {
    if w.images != [] {
      SortedHeadKeyIsLatestKey(w.images, VersionOfImage);
    }
  }

  predicate ImagePending(w: SceneWithMedia) {
    w.scene.imageStatus == Status.Pending
  }

  predicate ImageCompleted(w: SceneWithMedia) {
    w.scene.imageStatus == Status.Completed
  }

  function Pending(p: ProjectWithScenes): seq<SceneWithMedia> {
    Filter(p.scenes, ImagePending)
  }

  function CompletedScenes(p: ProjectWithScenes): seq<SceneWithMedia> {
    Filter(p.scenes, ImageCompleted)
  }

  /** `allImagesDone`: no pending scene and at least one completed one. */
  predicate AllImagesDone(p: ProjectWithScenes) {
    |Pending(p)| == 0 && |CompletedScenes(p)| > 0
  }

  /** The "generate all images" button is disabled while a request runs or when nothing is pending. */
  predicate GenerateDisabled(loading: bool, p: ProjectWithScenes) {
    loading || |Pending(p)| == 0
  }

  /** The "confirm all images" button is offered only once every image is done. */
  predicate ConfirmShown(p: ProjectWithScenes) {
    AllImagesDone(p)
  }

  /** All images are done exactly when no scene's image is pending and some scene's image is completed. */
  lemma AllImagesDoneMeans(p: ProjectWithScenes)
    ensures AllImagesDone(p) <==>
      (forall i :: 0 <= i < |p.scenes| ==> !ImagePending(p.scenes[i]))
      && (exists i :: 0 <= i < |p.scenes| && ImageCompleted(p.scenes[i]))
  {
    var pending, completed := Pending(p), CompletedScenes(p);
    if |completed| > 0 {
      assert completed[0] in p.scenes;
    }
    if exists i :: 0 <= i < |p.scenes| && ImageCompleted(p.scenes[i]) {
      var i :| 0 <= i < |p.scenes| && ImageCompleted(p.scenes[i]);
      assert p.scenes[i] in completed;
    }
    if |pending| > 0 {
      assert pending[0] in p.scenes;
    }
  }

  /**
   * Whenever the generation route would handle some scene, the button that calls it is enabled
   * (once no request is running).
   */
  lemma BatchEnablesGenerate(p: ProjectWithScenes)
    ensures GenerateImages.BatchOf(p) != [] ==> !GenerateDisabled(false, p)
  {
    var batch := GenerateImages.BatchOf(p);
    if batch != [] {
      var plain := PlainScenes(p.scenes);
      assert batch[0] in plain;
      var i :| 0 <= i < |plain| && plain[i] == batch[0];
      assert ImagePending(p.scenes[i]);
      assert p.scenes[i] in Pending(p);
    }
  }

  /** The two buttons are never both usable: once every image is done there is nothing to generate. */
  lemma ConfirmExcludesGenerate(loading: bool, p: ProjectWithScenes)
    ensures ConfirmShown(p) ==> GenerateDisabled(loading, p)
  {
  }
}
