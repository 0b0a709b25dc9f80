/**
 * The antenna on the final day: interacting with it once starts the ending dialogue, whose
 * choices pick one of three endings and finally show the credits.
 */
module EndingModel {
  import opened Scene
  import opened GameLoop

  const MinigameWinsVariable: string := "MinigameWins"
  const CanHackVariable: string := "CanHack"
  const Ending1Message: string := "You found Ending 1 of 3"
  const Ending2Message: string := "You found Ending 2 of 3"
  const Ending3Message: string := "You found Ending 3 of 3"

  /** Hacking the antenna is offered after at least two minigame wins. */
  function CanHack(wins: int): bool
  {
    wins >= 2
  }

  class EndingTrigger {
    const promptText: string
    const onlyAvailableOnFinalDay: bool
    const endingFlowchart: Flowchart?
    const endingBlockName: string
    const hasFireFX: bool
    const hasFireworksFX: bool
    const hasCreditsPanel: bool
    const hasStatusText: bool
    var endingMessage: string
    var hasTriggered: bool
    var fireActive: bool
    var fireworksActive: bool
    var creditsShown: bool
    var statusText: string

    constructor (promptText: string, onlyAvailableOnFinalDay: bool, endingFlowchart: Flowchart?, endingBlockName: string,
                 hasFireFX: bool, hasFireworksFX: bool, hasCreditsPanel: bool, hasStatusText: bool)
      ensures this.promptText == promptText && this.onlyAvailableOnFinalDay == onlyAvailableOnFinalDay
      ensures this.endingFlowchart == endingFlowchart && this.endingBlockName == endingBlockName
      ensures this.hasFireFX == hasFireFX && this.hasFireworksFX == hasFireworksFX
      ensures this.hasCreditsPanel == hasCreditsPanel && this.hasStatusText == hasStatusText
      ensures endingMessage == "" && !hasTriggered && !fireActive && !fireworksActive && !creditsShown && statusText == ""
    {
      this.promptText := promptText;
      this.onlyAvailableOnFinalDay := onlyAvailableOnFinalDay;
      this.endingFlowchart := endingFlowchart;
      this.endingBlockName := endingBlockName;
      this.hasFireFX := hasFireFX;
      this.hasFireworksFX := hasFireworksFX;
      this.hasCreditsPanel := hasCreditsPanel;
      this.hasStatusText := hasStatusText;
      endingMessage := "";
      hasTriggered := false;
      fireActive := false;
      fireworksActive := false;
      creditsShown := false;
      statusText := "";
    }

    /**
     * The prompt: empty once triggered; when restricted to the final day, shown only when a
     * manager says it is the last day.
     */
    function InteractionPrompt(gm: GameLoopManager?): string
      reads this, gm
    {
      if hasTriggered then ""
      else if onlyAvailableOnFinalDay then
        (if gm != null && gm.IsLastDay() then promptText else "")
      else promptText
    }

    /**
     * Whether a press with a player present fires the trigger: the final-day restriction is only
     * enforced when a manager exists.
     */
    predicate MayFire(gm: GameLoopManager?)
      reads gm
    {
      !onlyAvailableOnFinalDay || gm == null || gm.IsLastDay()
    }

    /**
     * With a manager, a non-empty prompt is shown exactly when a press with a player present
     * would fire the trigger.
     */
    lemma PromptPromisesFiring(gm: GameLoopManager)
      requires promptText != ""
      ensures InteractionPrompt(gm) != "" <==> !hasTriggered && MayFire(gm)
    {
    }

    /** Without a manager the restricted trigger shows no prompt, yet a press still fires it. */
    lemma PromptAndFiringDisagreeWithoutManager()
      requires onlyAvailableOnFinalDay && !hasTriggered
      ensures InteractionPrompt(null) == "" && MayFire(null)
    {
    }

    /** The ending dialogue ran, told the number of wins when there is a manager, or nothing happened. */
    twostate predicate SequenceStarted(gm: GameLoopManager?)
      reads endingFlowchart, gm
    {
      if endingFlowchart != null && endingBlockName in endingFlowchart.blocks then
        && endingFlowchart.executed == old(endingFlowchart.executed) + [endingBlockName]
        && (gm != null ==>
              && endingFlowchart.intVars == old(endingFlowchart.intVars)[MinigameWinsVariable := gm.waveMinigamesBeaten]
              && endingFlowchart.boolVars == old(endingFlowchart.boolVars)[CanHackVariable := CanHack(gm.waveMinigamesBeaten)])
        && (gm == null ==>
              endingFlowchart.intVars == old(endingFlowchart.intVars) && endingFlowchart.boolVars == old(endingFlowchart.boolVars))
      else
        endingFlowchart != null ==> unchanged(endingFlowchart)
    }

    /**
     * Interacting: a trigger that already fired ignores every further press, so the ending
     * starts at most once. Otherwise, with a player present and the day allowing it, the trigger
     * fires and the ending sequence starts.
     */
    method Interact(gm: GameLoopManager?, hasPlayer: bool)
      modifies this, endingFlowchart
      ensures hasTriggered <==> old(hasTriggered) || (hasPlayer && MayFire(gm))
      ensures hasTriggered ==> InteractionPrompt(gm) == ""
      ensures !old(hasTriggered) && hasTriggered ==> SequenceStarted(gm)
      ensures !(!old(hasTriggered) && hasTriggered) ==>
        unchanged(this) && (endingFlowchart != null ==> unchanged(endingFlowchart))
      ensures endingMessage == old(endingMessage) && fireActive == old(fireActive) && fireworksActive == old(fireworksActive)
      ensures creditsShown == old(creditsShown) && statusText == old(statusText)
    {
      if hasTriggered {
        return;
      }
      if hasPlayer {
        if onlyAvailableOnFinalDay {
          if gm != null {
            if !gm.IsLastDay() {
              return;
            }
          }
        }
        hasTriggered := true;
        StartEndingSequence(gm);
      }
    }

    /**
     * Runs the ending block when the flowchart has it, first writing the win count and whether
     * hacking is possible when there is a manager; without the block only a log line is written.
     */
    method StartEndingSequence(gm: GameLoopManager?)
      modifies endingFlowchart
      ensures SequenceStarted(gm)
    {
      if endingFlowchart != null && endingFlowchart.HasBlock(endingBlockName) {
        if gm != null {
          var wins := gm.waveMinigamesBeaten;
          endingFlowchart.SetIntegerVariable(MinigameWinsVariable, wins);
          endingFlowchart.SetBooleanVariable(CanHackVariable, wins >= 2);
        }
        endingFlowchart.ExecuteBlock(endingBlockName);
      }
    }

    /** Destroying the antenna: ending 1, with the fire effect when it is assigned. */
    method OnDestroyAntenna()
      modifies this
      ensures endingMessage == Ending1Message
      ensures fireActive == (old(fireActive) || hasFireFX)
      ensures hasTriggered == old(hasTriggered) && fireworksActive == old(fireworksActive)
      ensures creditsShown == old(creditsShown) && statusText == old(statusText)
    {
      endingMessage := Ending1Message;
      if hasFireFX {
        fireActive := true;
      }
    }

    /** Improving the antenna: ending 2, with the fireworks effect when it is assigned. */
    method OnImproveAntenna()
      modifies this
      ensures endingMessage == Ending2Message
      ensures fireworksActive == (old(fireworksActive) || hasFireworksFX)
      ensures hasTriggered == old(hasTriggered) && fireActive == old(fireActive)
      ensures creditsShown == old(creditsShown) && statusText == old(statusText)
    {
      endingMessage := Ending2Message;
      if hasFireworksFX {
        fireworksActive := true;
      }
    }

    /** Leaving the antenna alone: ending 3, with no effect. */
    method OnLeaveAntenna()
      modifies this
      ensures endingMessage == Ending3Message
      ensures hasTriggered == old(hasTriggered) && fireActive == old(fireActive) && fireworksActive == old(fireworksActive)
      ensures creditsShown == old(creditsShown) && statusText == old(statusText)
    {
      endingMessage := Ending3Message;
    }

    /** The legacy celebrate choice is the improve choice. */
    method OnCelebrateAntenna()
      modifies this
      ensures endingMessage == Ending2Message
      ensures fireworksActive == (old(fireworksActive) || hasFireworksFX)
      ensures hasTriggered == old(hasTriggered) && fireActive == old(fireActive)
      ensures creditsShown == old(creditsShown) && statusText == old(statusText)
    {
      OnImproveAntenna();
    }

    /** The credits panel appears, when assigned, with the chosen ending's message in its status text. */
    method ShowCredits()
      modifies this
      ensures creditsShown == (old(creditsShown) || hasCreditsPanel)
      ensures statusText == if hasCreditsPanel && hasStatusText then endingMessage else old(statusText)
      ensures endingMessage == old(endingMessage) && hasTriggered == old(hasTriggered)
      ensures fireActive == old(fireActive) && fireworksActive == old(fireworksActive)
    {
      if hasCreditsPanel {
        creditsShown := true;
        if hasStatusText {
          statusText := endingMessage;
        }
      }
    }
  }
}
