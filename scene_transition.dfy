/** Doors between scenes, optionally behind a "leave?" confirmation block. */
module SceneTransitionModel {
  import opened Scene
  import opened GameLoop

  class SceneTransitionInteractable {
    const targetSceneName: string
    /** The prompt, shown whatever the day. */
    const promptText: string
    const flowchart: Flowchart?
    const blockName: string
    const requiresConfirmation: bool

    constructor (targetSceneName: string, promptText: string, flowchart: Flowchart?, blockName: string,
                 requiresConfirmation: bool)
      ensures this.targetSceneName == targetSceneName && this.promptText == promptText
      ensures this.flowchart == flowchart && this.blockName == blockName
      ensures this.requiresConfirmation == requiresConfirmation
    {
      this.targetSceneName := targetSceneName;
      this.promptText := promptText;
      this.flowchart := flowchart;
      this.blockName := blockName;
      this.requiresConfirmation := requiresConfirmation;
    }

    /** A confirmation runs only when one is required, the flowchart is assigned and it has the block. */
    predicate AsksConfirmation()
    {
      requiresConfirmation && flowchart != null && blockName in flowchart.blocks
    }

    /**
     * Using the door: nothing without a player; otherwise either the confirmation block runs, or
     * the target scene is requested at once.
     */
    method Interact(gm: GameLoopManager?, engine: Engine, hasPlayer: bool)
      modifies gm, engine, flowchart
      ensures !hasPlayer ==>
        (gm != null ==> unchanged(gm)) && unchanged(engine) && (flowchart != null ==> unchanged(flowchart))
      ensures hasPlayer && AsksConfirmation() ==>
        && flowchart.executed == old(flowchart.executed) + [blockName]
        && flowchart.boolVars == old(flowchart.boolVars) && flowchart.intVars == old(flowchart.intVars)
        && (gm != null ==> unchanged(gm)) && unchanged(engine)
      ensures hasPlayer && !AsksConfirmation() ==>
        SceneRequested(gm, engine, targetSceneName) && (flowchart != null ==> unchanged(flowchart))
    {
      if hasPlayer {
        if requiresConfirmation && flowchart != null && flowchart.HasBlock(blockName) {
          flowchart.ExecuteBlock(blockName);
        } else {
          OnConfirm(gm, engine);
        }
      }
    }

    /** The "Yes" answer of the confirmation block. */
    method OnConfirm(gm: GameLoopManager?, engine: Engine)
      modifies gm, engine
      ensures SceneRequested(gm, engine, targetSceneName)
    {
      TransitionToScene(gm, engine);
    }

    /** The target scene is requested through the manager, or directly when there is none. */
    method TransitionToScene(gm: GameLoopManager?, engine: Engine)
      modifies gm, engine
      ensures SceneRequested(gm, engine, targetSceneName)
    {
      RequestScene(gm, engine, targetSceneName);
    }
  }
}
