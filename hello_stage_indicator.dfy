/**
 * The stage indicator of the hello app: on wide screens a numbered circle per stage joined by
 * connector lines, on narrow screens the current label, a counter and a row of dots.
 */
module HelloStageIndicator {
  import opened Common
  import opened Order
  import opened Database
  import StageIndicator

  /** `STAGES`: the pipeline's stages in order, with their labels and descriptions. */
  const Stages: seq<Stage> := [Stage.Draft, Stage.Scenes, Stage.Images, Stage.Videos, Stage.Completed]

  const Labels: seq<string> := ["草稿", "分镜", "图片", "视频", "完成"]

  const Descriptions: seq<string> := ["准备故事", "拆解场景", "生成图片", "生成视频", "项目完成"]

  /** `STAGES.findIndex(s => s.id === currentStage)`: every stage is listed, so it is found. */
  function CurrentIndex(current: Stage): (idx: int)
    ensures 0 <= idx < |Stages| && Stages[idx] == current
  {
    StageIndicator.StageListed(current);
    IndexOf(Stages, current)
  }

  /** Both apps list the stages in the same order, so they agree on every stage's place. */
  lemma SameOrderAsStoryApp(current: Stage)
    ensures Stages == StageIndicator.Stages
    ensures CurrentIndex(current) == StageIndicator.CurrentIndex(current)
  {
  }

  /** What the circle holds: a check mark, or the stage's number counted from 1. */
  datatype Mark = Check | Number(n: nat)

  datatype Look = Completed | Current | Upcoming

  /** One stage on a wide screen: its circle, its look, and the connector after it (green or grey), if any. */
  datatype Step = Step(mark: Mark, look: Look, connector: Option<bool>)

  function StepAt(index: nat, current: Stage): Step
    requires index < |Stages|
  {
    var currentIndex := CurrentIndex(current);
    var isCompleted := index < currentIndex;
    var isCurrent := index == currentIndex;
    var isLast := index == |Stages| - 1;
    Step(if isCompleted then Check else Number(index + 1),
         if isCompleted then Look.Completed else if isCurrent then Look.Current else Look.Upcoming,
         if isLast then None else Some(index < currentIndex))
  }

  function Steps(current: Stage): (r: seq<Step>)
    ensures |r| == |Stages| && forall i :: 0 <= i < |Stages| ==> r[i] == StepAt(i, current)
  {
    seq(|Stages|, i requires 0 <= i < |Stages| => StepAt(i, current))
  }

  /**
   * The earlier stages are completed and show a check, the current one is highlighted, later ones
   * show their number; a connector follows every stage but the last, green exactly when it leaves
   * a completed stage. The two apps agree on which stages are done.
   */
  lemma StepsShowProgress(current: Stage)
    ensures var idx, steps := CurrentIndex(current), Steps(current);
      forall i :: 0 <= i < |steps| ==>
        && (steps[i].look == Look.Completed <==> i < idx)
        && (steps[i].look == Look.Current <==> i == idx)
        && (steps[i].mark == Check <==> i < idx)
        && (steps[i].mark != Check ==> steps[i].mark == Number(i + 1))
        && (steps[i].connector.Some? <==> i < |Stages| - 1)
        && (steps[i].connector.Some? ==> (steps[i].connector.value <==> i < idx))
        && (steps[i].look == Look.Completed <==> StageIndicator.Chips(current)[i].look == StageIndicator.Look.Done)
  {
    StageIndicator.ChipsShowProgress(current);
  }

  /** The narrow-screen view: the current label, "n / 5", and one dot per stage, filled or not. */
  datatype Mobile = Mobile(stageLabel: string, position: nat, total: nat, dots: seq<bool>)

  function MobileView(current: Stage): Mobile {
    var currentIndex := CurrentIndex(current);
    Mobile(Labels[currentIndex], currentIndex + 1, |Stages|,
           seq(|Stages|, i requires 0 <= i < |Stages| => i <= currentIndex))
  }

  /**
   * The counter reads the current stage's place among the five, its label is shown, and the dots up
   * to and including the current stage are filled.
   */
  lemma MobileShowsPosition(current: Stage)
    ensures var m, idx := MobileView(current), CurrentIndex(current);
      && m.total == 5 && 1 <= m.position <= m.total && m.position == idx + 1
      && Stages[m.position - 1] == current && m.stageLabel == Labels[idx]
      && |m.dots| == m.total && forall i :: 0 <= i < |m.dots| ==> (m.dots[i] <==> i < m.position)
  {
  }
}
