/**
 * The journey map above the workspace: its own copy of the stage list and of
 * the status classification, the pill style of each stage and the progress
 * percentage, all of which agree with the sidebar's.
 */
module SquadJourneyMap {
  import opened PRDContext
  import StageSidebar

  /** The map's own `PRD_STAGES` (the descriptions differ from the sidebar's, the ids do not). */
  const JourneyStages: seq<Stage> := [Aperture, Discovery, Define, Design, Deliver, Live]

  /** Both components list the stages in the same order. */
  lemma SameOrder()
    ensures JourneyStages == StageSidebar.PrdStages
  {
  }

  /** The map's `getStageStatus`, which looks the current index up first. */
  function JourneyStatus(s: Stage, current: Stage): (st: StageSidebar.Status)
    ensures st == StageSidebar.StageStatus(s, current)
  {
    var currentIndex := StageSidebar.IndexOf(JourneyStages, current);
    var stageIndex := StageSidebar.IndexOf(JourneyStages, s);
    assert currentIndex == StageSidebar.StageIndex(current) && stageIndex == StageSidebar.StageIndex(s);
    if stageIndex < currentIndex then StageSidebar.Completed
    else if stageIndex == currentIndex then StageSidebar.Current
    else StageSidebar.Pending
  }

  /** The pill styles: the primary one, the green completed one, and the muted
      ones the switch gives a current and a pending stage. */
  datatype Pill = Primary | CompletedGreen | CurrentMuted | PendingMuted

  /** `getStageStyles`: the current stage is caught by the `isCurrent` test
      before the switch, so the switch's 'current' case is never reached. */
  function JourneyStyle(s: Stage, current: Stage): (p: Pill)
    ensures p == Primary <==> s == current
    ensures p == CompletedGreen <==> JourneyStatus(s, current) == StageSidebar.Completed
    ensures p == PendingMuted <==> JourneyStatus(s, current) == StageSidebar.Pending
    ensures p != CurrentMuted
  {
    if s == current then Primary
    else
      match JourneyStatus(s, current)
      case Completed => CompletedGreen
      case Current => CurrentMuted
      case Pending => PendingMuted
  }

  /** The map's progress percentage, computed from its own list (the same
      rounding of (index + 1) / 6 * 100). */
  function JourneyProgress(current: Stage): (p: int)
    ensures p == StageSidebar.Progress(current)
  {
    ((StageSidebar.IndexOf(JourneyStages, current) + 1) * 200 + |JourneyStages|) / (2 * |JourneyStages|)
  }

  /** A click on a pill moves the document to that stage. */
  method ClickPill(store: PRDStore, target: Stage)
    modifies store`stage
    ensures store.stage == target
  {
    store.SetStage(target);
  }
}
