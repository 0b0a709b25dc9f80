/**
 * The monologue that plays once per day when the player's room loads, told whether the previous
 * night's radio minigame was won.
 */
module DailyMonologueModel {
  import opened Scene
  import opened GameLoop

  const WonVariable: string := "RadioMiniGameWon"

  /** The flowchart flag: the minigame was won on the previous day, which day 1 does not have. */
  function WonLastNight(gm: GameLoopManager): (won: bool)
    reads gm
    ensures won ==> gm.currentDay >= 2
    ensures gm.currentDay >= 2 ==> (won <==> gm.DidWinMinigameOnDay(gm.currentDay - 1))
  {
    var previousDay := gm.currentDay - 1;
    previousDay > 0 && gm.DidWinMinigameOnDay(previousDay)
  }

  class DailyMonologueTrigger {
    /** The flowchart assigned in the inspector, or the one found in the scene. */
    var flowchart: Flowchart?
    const blockNameSuffix: string

    constructor (flowchart: Flowchart?, blockNameSuffix: string)
      ensures this.flowchart == flowchart && this.blockNameSuffix == blockNameSuffix
    {
      this.flowchart := flowchart;
      this.blockNameSuffix := blockNameSuffix;
    }

    /** Whether the room's start-up should look at the monologue at all. */
    predicate Due(gm: GameLoopManager?)
      reads gm
    {
      gm != null && !gm.HasPlayedMonologueForDay(gm.currentDay)
    }

    /**
     * The room's start-up. With no manager, or once today's monologue has played, nothing
     * happens. Otherwise, when a flowchart is at hand (the assigned one, else `sceneFlowchart`,
     * the one a scene search finds), the won-last-night flag is written to it, and then, only if
     * the flowchart has today's block, that block runs and today is marked as played.
     */
    method Start(gm: GameLoopManager?, sceneFlowchart: Flowchart?)
      modifies this, gm, flowchart, sceneFlowchart
      ensures !old(Due(gm)) ==>
        && flowchart == old(flowchart) && (gm != null ==> unchanged(gm))
        && (old(flowchart) != null ==> unchanged(old(flowchart))) && (sceneFlowchart != null ==> unchanged(sceneFlowchart))
      ensures old(Due(gm)) ==> flowchart == (if old(flowchart) != null then old(flowchart) else sceneFlowchart)
      ensures old(Due(gm)) && flowchart == null ==> gm != null && unchanged(gm)
      ensures old(Due(gm)) && flowchart != null ==>
        var fc, block := flowchart, DayBlockName(gm.currentDay, blockNameSuffix);
        && fc.boolVars == old(fc.boolVars)[WonVariable := old(WonLastNight(gm))]
        && fc.intVars == old(fc.intVars)
        && (block in fc.blocks ==>
              && fc.executed == old(fc.executed) + [block]
              && gm.State() == old(gm.State()).(lastMonologueDay := gm.currentDay)
              && gm.HasPlayedMonologueForDay(gm.currentDay))
        && (block !in fc.blocks ==> fc.executed == old(fc.executed) && unchanged(gm))
    {
      if gm == null {
        return;
      }
      var currentDay := gm.currentDay;
      if gm.HasPlayedMonologueForDay(currentDay) {
        return;
      }
      if flowchart == null {
        flowchart := sceneFlowchart;
        if flowchart == null {
          return;
        }
      }
      var blockName := DayBlockName(currentDay, blockNameSuffix);
      var previousDay := currentDay - 1;
      var wonLastNight := previousDay > 0 && gm.DidWinMinigameOnDay(previousDay);
      flowchart.SetBooleanVariable(WonVariable, wonLastNight);
      if flowchart.HasBlock(blockName) {
        flowchart.ExecuteBlock(blockName);
        gm.SetMonologuePlayedForDay(currentDay);
      }
    }
  }
}
