/** The bed: sleeping ends the day, except on the last day, which only the ending trigger can end. */
module BedModel {
  import opened Scene
  import opened GameLoop

  /**
   * The sleep step happened: with a manager and before the last day, the next day began (today's
   * NPC set emptied, the town requested); otherwise the manager is untouched.
   */
  twostate predicate Slept(gm: GameLoopManager?)
    reads gm, if gm != null then {gm.engine} else {}
  {
    && (gm != null && !old(gm.IsLastDay()) ==>
          gm.State() == old(gm.State()).(
            currentDay := old(gm.currentDay) + 1,
            dailyInteractedNpcs := {},
            isLoading := true,
            previousSceneName := gm.engine.activeScene,
            sceneRequests := old(gm.sceneRequests) + [TownSceneName]))
    && (gm != null && old(gm.IsLastDay()) ==> unchanged(gm))
  }

  class BedInteraction {
    const promptText: string
    const finalDayPrompt: string
    const flowchart: Flowchart?
    const blockName: string

    constructor (promptText: string, finalDayPrompt: string, flowchart: Flowchart?, blockName: string)
      ensures this.promptText == promptText && this.finalDayPrompt == finalDayPrompt
      ensures this.flowchart == flowchart && this.blockName == blockName
    {
      this.promptText := promptText;
      this.finalDayPrompt := finalDayPrompt;
      this.flowchart := flowchart;
      this.blockName := blockName;
    }

    /** The final-day prompt on the last day, the ordinary one on every other day or without a manager. */
    function InteractionPrompt(gm: GameLoopManager?): string
      reads gm
    {
      if gm != null && gm.IsLastDay() then finalDayPrompt else promptText
    }

    /**
     * Sleeping on the day before the last switches the bed to its final-day prompt; sleeping
     * earlier keeps the ordinary prompt; on the last day the final-day prompt stays.
     */
    twostate lemma SleepPrompt(gm: GameLoopManager)
      requires Slept(gm)
      ensures old(gm.currentDay) == MaxDays - 1 ==> InteractionPrompt(gm) == finalDayPrompt
      ensures old(gm.currentDay) < MaxDays - 1 ==> InteractionPrompt(gm) == promptText
      ensures old(gm.IsLastDay()) ==> InteractionPrompt(gm) == finalDayPrompt
    {
    }

    /** The bed asks for confirmation exactly when its flowchart has the confirmation block. */
    predicate AsksConfirmation()
    {
      flowchart != null && blockName in flowchart.blocks
    }

    /**
     * Using the bed: nothing without a player; otherwise the confirmation block runs if there is
     * one, and the player goes straight to sleep if not.
     */
    method Interact(gm: GameLoopManager?, hasPlayer: bool)
      modifies gm, flowchart
      ensures !hasPlayer ==> (gm != null ==> unchanged(gm)) && (flowchart != null ==> unchanged(flowchart))
      ensures hasPlayer && AsksConfirmation() ==>
        && flowchart.executed == old(flowchart.executed) + [blockName]
        && flowchart.boolVars == old(flowchart.boolVars) && flowchart.intVars == old(flowchart.intVars)
        && (gm != null ==> unchanged(gm))
      ensures hasPlayer && !AsksConfirmation() ==> Slept(gm) && (flowchart != null ==> unchanged(flowchart))
    {
      if hasPlayer {
        if flowchart != null && flowchart.HasBlock(blockName) {
          flowchart.ExecuteBlock(blockName);
        } else {
          OnConfirm(gm);
        }
      }
    }

    /** The "Yes" answer of the confirmation block. */
    method OnConfirm(gm: GameLoopManager?)
      modifies gm
      ensures Slept(gm)
      ensures gm != null && old(gm.DayInRange()) ==> gm.DayInRange()
    {
      GoToSleep(gm);
    }

    /** Sleeping advances the day, except on the last day or without a manager. */
    method GoToSleep(gm: GameLoopManager?)
      modifies gm
      ensures Slept(gm)
      ensures gm != null && old(gm.DayInRange()) ==> gm.DayInRange()
      ensures gm != null && old(gm.currentDay) == MaxDays - 1 ==> InteractionPrompt(gm) == finalDayPrompt
      ensures gm != null && old(gm.currentDay) < MaxDays - 1 ==> InteractionPrompt(gm) == promptText
      ensures gm != null && old(gm.IsLastDay()) ==> InteractionPrompt(gm) == finalDayPrompt
    {
      if gm != null {
        if gm.IsLastDay() {
          return;
        }
        gm.AdvanceToNextDay();
      }
    }
  }
}
