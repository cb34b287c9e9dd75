/**
 * The stage sidebar: the fixed order of the six stages, the classification of
 * each stage as completed, current or pending relative to the document's
 * stage, the highlighted entry, the progress percentage and the click handler.
 */
module StageSidebar {
  import opened PRDContext

  /** `PRD_STAGES`, by id. */
  const PrdStages: seq<Stage> := [Aperture, Discovery, Define, Design, Deliver, Live]

  /** `stages.findIndex(s => s.id === stage)`: the first position holding `s`, or -1. */
  function IndexOf(stages: seq<Stage>, s: Stage): (i: int)
    ensures -1 <= i < |stages|
    ensures i == -1 <==> s !in stages
    ensures i >= 0 ==> stages[i] == s && s !in stages[..i]
    decreases |stages|
  {
    if stages == [] then -1
    else if stages[0] == s then 0
    else
      var i := IndexOf(stages[1..], s);
      assert stages[1..] == stages[1..][..|stages| - 1];
      if i == -1 then -1
      else
        assert stages[..i + 1] == [stages[0]] + stages[1..][..i];
        i + 1
  }

  /** Every stage is listed, so its index is found. */
  function StageIndex(s: Stage): (i: nat)
    ensures i < |PrdStages| && PrdStages[i] == s
    ensures i == IndexOf(PrdStages, s) && i == StageNumber(s)
  {
    assert PrdStages[StageNumber(s)] == s;
    IndexOf(PrdStages, s)
  }

  /** The position of each stage in the order, by cases. */
  function StageNumber(s: Stage): nat
  {
    match s
    case Aperture => 0
    case Discovery => 1
    case Define => 2
    case Design => 3
    case Deliver => 4
    case Live => 5
  }

  /** Distinct stages sit at distinct positions. */
  lemma StageIndexInjective(a: Stage, b: Stage)
    ensures StageIndex(a) == StageIndex(b) <==> a == b
  {
  }

  datatype Status = Completed | Current | Pending

  /** `getStageStatus`: by comparing the stage's index with the current one. */
  function StageStatus(s: Stage, current: Stage): (st: Status)
    ensures st == Completed <==> StageIndex(s) < StageIndex(current)
    ensures st == Current <==> s == current
    ensures st == Pending <==> StageIndex(s) > StageIndex(current)
  {
    var stageIndex := StageIndex(s);
    var currentIndex := StageIndex(current);
    if stageIndex < currentIndex then Completed
    else if stageIndex == currentIndex then Current
    else Pending
  }

  /** Exactly one entry of the sidebar is current: the one at the current stage's index. */
  lemma ExactlyOneCurrent(current: Stage)
    ensures (set i | 0 <= i < |PrdStages| && StageStatus(PrdStages[i], current) == Current) == {StageIndex(current)}
  {
    var cur := set i | 0 <= i < |PrdStages| && StageStatus(PrdStages[i], current) == Current;
    forall i | 0 <= i < |PrdStages|
      ensures i in cur <==> i == StageIndex(current)
    {
      StageIndexInjective(PrdStages[i], current);
    }
  }

  /** The entries before the current one are completed and those after it pending. */
  lemma StatusByPosition(current: Stage, i: nat)
    requires i < |PrdStages|
    ensures i < StageIndex(current) ==> StageStatus(PrdStages[i], current) == Completed
    ensures i > StageIndex(current) ==> StageStatus(PrdStages[i], current) == Pending
  {
    assert StageIndex(PrdStages[i]) == i;
  }

  /** `getStageStyles`: only the current stage's entry is highlighted. */
  predicate Highlighted(s: Stage, current: Stage)
  {
    s == current
  }

  /** The highlighted entry is the one whose status is current. */
  lemma HighlightedIsCurrent(s: Stage, current: Stage)
    ensures Highlighted(s, current) <==> StageStatus(s, current) == Current
  {
  }

  // ---------------------------------------------------------------------------
  // Progress

  /** The progress percentage shown for the document's stage,
      `Math.round((index + 1) / 6 * 100)`: the integer nearest to
      (index + 1) * 100 / 6, halves rounded up. That quotient is never exactly a
      half, so rounding the double gives the same integer as rounding the rational. */
  function Progress(current: Stage): (p: int)
    ensures var i := StageIndex(current);
      12 * p - 6 <= 200 * (i + 1) < 12 * p + 6
    ensures 0 < p <= 100
  {
    ((StageIndex(current) + 1) * 200 + 6) / 12
  }

  /** The six percentages. */
  lemma ProgressValues()
    ensures Progress(Aperture) == 17 && Progress(Discovery) == 33 && Progress(Define) == 50
    ensures Progress(Design) == 67 && Progress(Deliver) == 83 && Progress(Live) == 100
  {
    assert Progress(Aperture) == 206 / 12 by { assert StageIndex(Aperture) == 0; }
    assert Progress(Discovery) == 406 / 12 by { assert StageIndex(Discovery) == 1; }
    assert Progress(Define) == 606 / 12 by { assert StageIndex(Define) == 2; }
    assert Progress(Design) == 806 / 12 by { assert StageIndex(Design) == 3; }
    assert Progress(Deliver) == 1006 / 12 by { assert StageIndex(Deliver) == 4; }
    assert Progress(Live) == 1206 / 12 by { assert StageIndex(Live) == 5; }
  }

  /** Progress grows strictly along the stage order. */
  lemma ProgressIncreasing(a: Stage, b: Stage)
    requires StageIndex(a) < StageIndex(b)
    ensures Progress(a) < Progress(b)
  {
  }

  /** A click on an entry moves the document to that stage. */
  method ClickStage(store: PRDStore, target: Stage)
    modifies store`stage
    ensures store.stage == target
  {
    store.SetStage(target);
  }
}
