/**
 * The radio in the player's room: it offers the wave minigame once a day, plays a "RadioWon"
 * block after a win, and stays silent for the rest of a day on which it was refused.
 */
module RadioModel {
  import opened Scene
  import opened GameLoop

  const RadioWonBlock: string := "RadioWon"

  /** What using the radio leads to. */
  datatype Route =
    | Declined              // refused earlier today: nothing happens
    | RunBlock(name: string) // a Fungus block runs (and will call back OnConfirm or OnRefuse)
    | Confirm                // no block: the minigame starts straight away

  class RadioInteraction {
    const miniGameSceneName: string
    const promptText: string
    const flowchart: Flowchart?
    const blockName: string

    constructor (miniGameSceneName: string, promptText: string, flowchart: Flowchart?, blockName: string)
      ensures this.miniGameSceneName == miniGameSceneName && this.promptText == promptText
      ensures this.flowchart == flowchart && this.blockName == blockName
    {
      this.miniGameSceneName := miniGameSceneName;
      this.promptText := promptText;
      this.flowchart := flowchart;
      this.blockName := blockName;
    }

    predicate RefusedToday(gm: GameLoopManager?)
      reads gm
    {
      gm != null && gm.HasRefusedRadioOnDay(gm.currentDay)
    }

    predicate WonToday(gm: GameLoopManager?)
      reads gm
    {
      gm != null && gm.DidWinMinigameOnDay(gm.currentDay)
    }

    predicate HasBlock(name: string)
    {
      flowchart != null && name in flowchart.blocks
    }

    /** The prompt disappears for the rest of a day on which the radio was refused. */
    function InteractionPrompt(gm: GameLoopManager?): string
      reads gm
    {
      if RefusedToday(gm) then "" else promptText
    }

    function DaySpecificBlockName(gm: GameLoopManager?): string
      reads gm
    {
      DayBlockName(DayOrDefault(gm), blockName)
    }

    /**
     * The routing of the interact coroutine: nothing on a refused day; the "RadioWon" block on a
     * day already won, when it exists; otherwise the day's radio block, or the minigame itself
     * when that block is missing.
     */
    function Routing(gm: GameLoopManager?): (r: Route)
      reads gm
      ensures r == Declined <==> RefusedToday(gm)
      ensures r == RunBlock(RadioWonBlock) <==> !RefusedToday(gm) && WonToday(gm) && HasBlock(RadioWonBlock)
      ensures r.RunBlock? ==> HasBlock(r.name)
      ensures r.RunBlock? && r.name != RadioWonBlock ==> r.name == DaySpecificBlockName(gm)
      ensures r == Confirm <==>
        !RefusedToday(gm) && !(WonToday(gm) && HasBlock(RadioWonBlock)) && !HasBlock(DaySpecificBlockName(gm))
    {
      assert DaySpecificBlockName(gm)[..3][0] == 'D' && RadioWonBlock[..3][0] == 'R';
      if RefusedToday(gm) then Declined
      else if WonToday(gm) && HasBlock(RadioWonBlock) then RunBlock(RadioWonBlock)
      else if HasBlock(DaySpecificBlockName(gm)) then RunBlock(DaySpecificBlockName(gm))
      else Confirm
    }

    /** The radio never offers the minigame on a day on which it was refused. */
    lemma RefusalSilencesRadio(gm: GameLoopManager)
      requires gm.HasRefusedRadioOnDay(gm.currentDay)
      ensures InteractionPrompt(gm) == "" && Routing(gm) == Declined
    {
    }

    /** A non-empty prompt disappears exactly when using the radio would do nothing. */
    lemma PromptMatchesRouting(gm: GameLoopManager?)
      requires promptText != ""
      ensures InteractionPrompt(gm) == "" <==> Routing(gm) == Declined
    {
    }

    /**
     * Using the radio: nothing without a player; otherwise the routing decides whether a block
     * runs, the minigame scene is requested, or nothing happens.
     */
    method Interact(gm: GameLoopManager?, engine: Engine, hasPlayer: bool)
      modifies gm, engine, flowchart
      ensures !hasPlayer || old(Routing(gm)) == Declined ==>
        (gm != null ==> unchanged(gm)) && unchanged(engine) && (flowchart != null ==> unchanged(flowchart))
      ensures hasPlayer && old(Routing(gm)).RunBlock? ==>
        && flowchart != null
        && flowchart.executed == old(flowchart.executed) + [old(Routing(gm)).name]
        && flowchart.boolVars == old(flowchart.boolVars) && flowchart.intVars == old(flowchart.intVars)
        && (gm != null ==> unchanged(gm)) && unchanged(engine)
      ensures hasPlayer && old(Routing(gm)) == Confirm ==>
        SceneRequested(gm, engine, miniGameSceneName) && (flowchart != null ==> unchanged(flowchart))
    {
      if hasPlayer {
        InteractRoutine(gm, engine);
      }
    }

    /** The coroutine that runs once the player has walked up to the radio. */
    method InteractRoutine(gm: GameLoopManager?, engine: Engine)
      modifies gm, engine, flowchart
      ensures old(Routing(gm)) == Declined ==>
        (gm != null ==> unchanged(gm)) && unchanged(engine) && (flowchart != null ==> unchanged(flowchart))
      ensures old(Routing(gm)).RunBlock? ==>
        && flowchart != null
        && flowchart.executed == old(flowchart.executed) + [old(Routing(gm)).name]
        && flowchart.boolVars == old(flowchart.boolVars) && flowchart.intVars == old(flowchart.intVars)
        && (gm != null ==> unchanged(gm)) && unchanged(engine)
      ensures old(Routing(gm)) == Confirm ==>
        SceneRequested(gm, engine, miniGameSceneName) && (flowchart != null ==> unchanged(flowchart))
    {
      if gm != null {
        if gm.HasRefusedRadioOnDay(gm.currentDay) {
          return;
        }
        if gm.DidWinMinigameOnDay(gm.currentDay) {
          if flowchart != null && flowchart.HasBlock(RadioWonBlock) {
            flowchart.ExecuteBlock(RadioWonBlock);
            return;
          }
        }
      }
      var targetBlock := DaySpecificBlockName(gm);
      if flowchart != null && flowchart.HasBlock(targetBlock) {
        flowchart.ExecuteBlock(targetBlock);
      } else {
        OnConfirm(gm, engine);
      }
    }

    /** The "Yes" answer: the minigame scene is requested. */
    method OnConfirm(gm: GameLoopManager?, engine: Engine)
      modifies gm, engine
      ensures SceneRequested(gm, engine, miniGameSceneName)
    {
      RequestScene(gm, engine, miniGameSceneName);
    }

    /**
     * The "No" answer: today is recorded as a refusal day, after which the radio shows no prompt
     * and does nothing for the rest of the day.
     */
    method OnRefuse(gm: GameLoopManager?)
      modifies gm
      ensures gm != null ==>
        && gm.State() == old(gm.State()).(daysWithRadioRefusals := old(gm.daysWithRadioRefusals) + {gm.currentDay})
        && InteractionPrompt(gm) == "" && Routing(gm) == Declined
    {
      if gm != null {
        gm.RecordRadioRefusal();
      }
    }
  }
}
