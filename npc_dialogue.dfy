/**
 * An NPC that plays its day's dialogue block the first time it is spoken to on a day, and its
 * generic block after that.
 */
module NpcDialogueModel {
  import opened Wrappers
  import opened Scene
  import opened GameLoop

  class NpcDialogue {
    const flowchart: Flowchart?
    /** The base block name; it is also the NPC's identity in the manager's daily set. */
    const blockName: string
    /** The prompt shown while the NPC has something to say. */
    const actionDialogue: string
    /** Whether the NPC's game object is active. */
    var active: bool

    constructor (flowchart: Flowchart?, blockName: string, actionDialogue: string)
      ensures this.flowchart == flowchart && this.blockName == blockName && this.actionDialogue == actionDialogue
      ensures active
    {
      this.flowchart := flowchart;
      this.blockName := blockName;
      this.actionDialogue := actionDialogue;
      active := true;
    }

    /** On the last day every NPC switches itself off. */
    method Start(gm: GameLoopManager?)
      modifies this
      ensures gm != null && gm.IsLastDay() ==> !active
      ensures !(gm != null && gm.IsLastDay()) ==> active == old(active)
    {
      if gm != null && gm.IsLastDay() {
        active := false;
      }
    }

    function DaySpecificBlockName(gm: GameLoopManager?): string
      reads gm
    {
      DayBlockName(DayOrDefault(gm), blockName)
    }

    predicate TalkedToday(gm: GameLoopManager?)
      reads gm
    {
      gm != null && gm.HasInteractedWith(blockName)
    }

    /**
     * The block the NPC would play now, if any. It needs a flowchart and a base name. Before
     * being spoken to today the NPC prefers its day block, then its base block; afterwards only
     * the base block will do.
     */
    function ValidBlockName(gm: GameLoopManager?): (r: Option<string>)
      reads gm
      ensures flowchart == null || blockName == "" ==> r.None?
      ensures r.Some? ==> flowchart != null && r.value in flowchart.blocks && r.value != ""
      ensures r.Some? ==> r.value == blockName || (r.value == DaySpecificBlockName(gm) && !TalkedToday(gm))
      ensures flowchart != null && blockName != "" && !TalkedToday(gm) && DaySpecificBlockName(gm) in flowchart.blocks
              ==> r == Some(DaySpecificBlockName(gm))
      ensures flowchart != null && blockName != "" && blockName in flowchart.blocks
              && (TalkedToday(gm) || DaySpecificBlockName(gm) !in flowchart.blocks)
              ==> r == Some(blockName)
      ensures r.None? <==>
        || flowchart == null || blockName == ""
        || (blockName !in flowchart.blocks && (TalkedToday(gm) || DaySpecificBlockName(gm) !in flowchart.blocks))
    {
      if flowchart == null || blockName == "" then None
      else if TalkedToday(gm) then
        (if blockName in flowchart.blocks then Some(blockName) else None)
      else if DaySpecificBlockName(gm) in flowchart.blocks then Some(DaySpecificBlockName(gm))
      else if blockName in flowchart.blocks then Some(blockName)
      else None
    }

    /** Once spoken to today, the NPC never replays its day block. */
    lemma TalkedNeverDayBlock(gm: GameLoopManager?)
      requires TalkedToday(gm)
      ensures ValidBlockName(gm) != Some(DaySpecificBlockName(gm))
    {
      DayBlockNameDiffers(DayOrDefault(gm), blockName);
    }

    /** The prompt: the action text while some block is available, and empty otherwise. */
    function InteractionPrompt(gm: GameLoopManager?): string
      reads gm
    {
      if ValidBlockName(gm).Some? then actionDialogue else ""
    }

    /**
     * Once spoken to today, the NPC keeps offering its action text exactly when its base block
     * exists, since the day block is no longer a candidate.
     */
    lemma PromptAfterTalking(gm: GameLoopManager?)
      requires TalkedToday(gm)
      ensures InteractionPrompt(gm) ==
        (if flowchart != null && blockName != "" && blockName in flowchart.blocks then actionDialogue else "")
    {
      TalkedNeverDayBlock(gm);
    }

    /** A non-empty action text is shown exactly when talking would run a block. */
    lemma PromptMeansBlock(gm: GameLoopManager?)
      requires actionDialogue != ""
      ensures InteractionPrompt(gm) != "" <==> ValidBlockName(gm).Some?
    {
    }

    /**
     * Talking to the NPC. With a block available and a player present: the manager (if any)
     * counts one more NPC interaction and marks this NPC's base name as spoken to, and the block
     * chosen before the marking is executed. Otherwise nothing happens. Either way the NPC's day
     * block is not available again today once it has been spoken to.
     */
    method Interact(gm: GameLoopManager?, hasPlayer: bool)
      modifies gm, flowchart
      ensures old(ValidBlockName(gm)).Some? && hasPlayer ==>
        && flowchart != null
        && flowchart.executed == old(flowchart.executed) + [old(ValidBlockName(gm)).value]
        && flowchart.boolVars == old(flowchart.boolVars) && flowchart.intVars == old(flowchart.intVars)
      ensures old(ValidBlockName(gm)).Some? && hasPlayer && gm != null ==>
        && gm.State() == old(gm.State()).(
             npcInteractionsCount := old(gm.npcInteractionsCount) + 1,
             dailyInteractedNpcs := old(gm.dailyInteractedNpcs) + {blockName})
        && ValidBlockName(gm) != Some(DaySpecificBlockName(gm))
        && InteractionPrompt(gm) == (if blockName in flowchart.blocks then actionDialogue else "")
      ensures !(old(ValidBlockName(gm)).Some? && hasPlayer) ==>
        (gm != null ==> unchanged(gm)) && (flowchart != null ==> unchanged(flowchart))
    {
      var targetBlock := ValidBlockName(gm);
      if targetBlock.Some? && targetBlock.value != "" {
        if hasPlayer {
          if gm != null {
            gm.RecordNpcInteraction();
            gm.MarkInteraction(blockName);
            TalkedNeverDayBlock(gm);
            PromptAfterTalking(gm);
          }
          flowchart.ExecuteBlock(targetBlock.value);
        }
      }
    }
  }
}
