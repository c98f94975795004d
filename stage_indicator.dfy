/**
 * The stage indicator of the story-to-video app: one chip per pipeline stage, the current one
 * highlighted and the earlier ones marked done with a check.
 */
module StageIndicator {
  import opened Order
  import opened Text
  import opened Database

  /** `STAGES`: the pipeline's stages in order. */
  const Stages: seq<Stage> := [Stage.Draft, Stage.Scenes, Stage.Images, Stage.Videos, Stage.Completed]

  const Labels: seq<string> := ["草稿", "分镜", "图片", "视频", "完成"]

  const DoneMark: string := "✓ "

  /** `STAGES.findIndex(s => s.key === currentStage)`: every stage is listed, so it is found. */
  function CurrentIndex(current: Stage): (idx: int)
    ensures 0 <= idx < |Stages| && Stages[idx] == current
  {
    StageListed(current);
    IndexOf(Stages, current)
  }

  lemma StageListed(current: Stage)
    ensures current in Stages
  {
    match current
    case Draft => assert Stages[0] == current;
    case Scenes => assert Stages[1] == current;
    case Images => assert Stages[2] == current;
    case Videos => assert Stages[3] == current;
    case Completed => assert Stages[4] == current;
  }

  /** The stages are listed once each, so a stage's index is its place in the pipeline. */
  lemma StagesInOrder()
    ensures forall i :: 0 <= i < |Stages| ==> CurrentIndex(Stages[i]) == i
    ensures CurrentIndex(Stage.Draft) == 0 && CurrentIndex(Stage.Completed) == |Stages| - 1
  {
    StagesDistinct();
  }

  lemma StagesDistinct()
    ensures forall i, j :: 0 <= i < j < |Stages| ==> Stages[i] != Stages[j]
  {
  }

  /** The chip of the `i`-th stage is current exactly at the current stage and done exactly before it. */
  lemma ChipLook(i: nat, current: Stage)
    requires i < |Stages|
    ensures var idx, look := CurrentIndex(current), ChipAt(i, current).look;
      && (look == Look.Done <==> i < idx)
      && (look == Look.Current <==> i == idx)
      && (look == Look.Upcoming <==> i > idx)
  {
    StagesDistinct();
  }

  datatype Look = Current | Done | Upcoming

  /** One chip: its text and how it is drawn. */
  datatype Chip = Chip(text: string, look: Look)

  /** The chip of the `i`-th stage: done before the current stage, highlighted on it. */
  function ChipAt(i: nat, current: Stage): Chip
    requires i < |Stages|
  {
    var isDone := i < CurrentIndex(current);
    var isCurrent := Stages[i] == current;
    Chip((if isDone then DoneMark else "") + Labels[i],
         if isCurrent then Look.Current else if isDone then Look.Done else Look.Upcoming)
  }

  function Chips(current: Stage): (r: seq<Chip>)
    ensures |r| == |Stages| && forall i :: 0 <= i < |Stages| ==> r[i] == ChipAt(i, current)
  {
    seq(|Stages|, i requires 0 <= i < |Stages| => ChipAt(i, current))
  }

  lemma LabelsUnmarked(i: nat)
    requires i < |Labels|
    ensures !StartsWith(Labels[i], DoneMark)
  {
    assert Labels[i][0] != DoneMark[0];
  }

  /**
   * The earlier stages are done, exactly one chip (the current stage's) is current, the later ones
   * are upcoming; a chip's text is its label, behind the check mark exactly when it is done.
   */
  lemma ChipsShowProgress(current: Stage)
    ensures var idx, chips := CurrentIndex(current), Chips(current);
      forall i :: 0 <= i < |chips| ==>
        && (chips[i].look == Look.Done <==> i < idx)
        && (chips[i].look == Look.Current <==> i == idx)
        && (chips[i].look == Look.Upcoming <==> i > idx)
        && (StartsWith(chips[i].text, DoneMark) <==> i < idx)
        && EndsWith(chips[i].text, Labels[i])
  {
    var idx, chips := CurrentIndex(current), Chips(current);
    forall i | 0 <= i < |chips|
      ensures StartsWith(chips[i].text, DoneMark) <==> i < idx
      ensures EndsWith(chips[i].text, Labels[i])
      ensures chips[i].look == Look.Done <==> i < idx
      ensures chips[i].look == Look.Current <==> i == idx
      ensures chips[i].look == Look.Upcoming <==> i > idx
    {
      ChipText(i, current);
      ChipLook(i, current);
    }
  }

  lemma ChipText(i: nat, current: Stage)
    requires i < |Stages|
    ensures StartsWith(ChipAt(i, current).text, DoneMark) <==> i < CurrentIndex(current)
    ensures EndsWith(ChipAt(i, current).text, Labels[i])
  {
    var text := ChipAt(i, current).text;
    LabelsUnmarked(i);
    if i < CurrentIndex(current) {
      assert text == DoneMark + Labels[i];
      assert text[..|DoneMark|] == DoneMark;
      assert text[|text| - |Labels[i]|..] == Labels[i];
    } else {
      assert text == Labels[i];
    }
  }
}
