/**
 * How the player picks the interactable it faces: among the interactables the overlap query
 * returns, the closest one that passes the filters; the prompt UI shows it, and the interact
 * key calls it.
 */
module PlayerInteractionModel {
  import opened Mathf
  import opened Wrappers
  import opened GameLoop

  const LoadingText: string := "Loading..."
  const KeySuffix: string := " (E)"

  /** The kinds of interactable in the game; the last-day filter only asks whether it is the ending trigger. */
  datatype Kind = Npc | Radio | Ending | Bed | Door

  /** An interactable returned by the overlap query: its kind, its prompt right now, and its squared distance. */
  datatype Candidate = Candidate(kind: Kind, prompt: string, distanceSqr: real)

  /** Before the last day (or with no manager) every interactable is available; on it, only the ending trigger. */
  predicate AvailableOnLastDay(gm: GameLoopManager?, kind: Kind)
    reads gm
  {
    gm == null || !gm.IsLastDay() || kind == Ending
  }

  /**
   * A hit that the selection may choose: it carries an interactable, whose prompt is non-empty
   * when empty prompts are skipped, which passes the last-day filter, and which is closer than
   * the float.MaxValue the search starts from.
   */
  predicate Selectable(gm: GameLoopManager?, hit: Option<Candidate>, skipEmpty: bool)
    reads gm
  {
    && hit.Some?
    && (!skipEmpty || hit.value.prompt != "")
    && AvailableOnLastDay(gm, hit.value.kind)
    && hit.value.distanceSqr < FloatMax
  }

  predicate NoneSelectable(gm: GameLoopManager?, hits: seq<Option<Candidate>>, skipEmpty: bool)
    reads gm
  {
    forall k :: 0 <= k < |hits| ==> !Selectable(gm, hits[k], skipEmpty)
  }

  /**
   * Hit k is the selection's answer: selectable, no farther than any selectable hit, and strictly
   * closer than every selectable hit before it (ties go to the earliest).
   */
  predicate IsClosest(gm: GameLoopManager?, hits: seq<Option<Candidate>>, skipEmpty: bool, k: int)
    reads gm
  {
    && 0 <= k < |hits|
    && Selectable(gm, hits[k], skipEmpty)
    && (forall j :: 0 <= j < |hits| && Selectable(gm, hits[j], skipEmpty) ==>
          hits[k].value.distanceSqr <= hits[j].value.distanceSqr)
    && (forall j :: 0 <= j < k && Selectable(gm, hits[j], skipEmpty) ==>
          hits[j].value.distanceSqr > hits[k].value.distanceSqr)
  }

  /**
   * The search loop shared by both routines: a running minimum of the squared distance, replaced
   * only on a strictly smaller value.
   */
  method SelectClosest(gm: GameLoopManager?, hits: seq<Option<Candidate>>, skipEmpty: bool)
    returns (chosen: Option<nat>)
    ensures chosen.None? <==> NoneSelectable(gm, hits, skipEmpty)
    ensures chosen.Some? ==> IsClosest(gm, hits, skipEmpty, chosen.value)
  {
    chosen := None;
    var closestDistanceSqr := FloatMax;
    var i := 0;
    while i < |hits|
      invariant 0 <= i <= |hits|
      invariant chosen.None? ==> closestDistanceSqr == FloatMax
      invariant chosen.None? <==> forall k :: 0 <= k < i ==> !Selectable(gm, hits[k], skipEmpty)
      invariant chosen.Some? ==>
        && chosen.value < i
        && Selectable(gm, hits[chosen.value], skipEmpty)
        && closestDistanceSqr == hits[chosen.value].value.distanceSqr
        && (forall j :: 0 <= j < i && Selectable(gm, hits[j], skipEmpty) ==>
              closestDistanceSqr <= hits[j].value.distanceSqr)
        && (forall j :: 0 <= j < chosen.value && Selectable(gm, hits[j], skipEmpty) ==>
              hits[j].value.distanceSqr > closestDistanceSqr)
    {
      var hit := hits[i];
      if hit.Some? {
        var interactable := hit.value;
        if skipEmpty && interactable.prompt == "" {
        } else if !AvailableOnLastDay(gm, interactable.kind) {
        } else if interactable.distanceSqr < closestDistanceSqr {
          closestDistanceSqr := interactable.distanceSqr;
          chosen := Some(i);
        }
      }
      i := i + 1;
    }
  }

  /** The selection is a function of its inputs: at most one hit is the closest. */
  lemma ClosestUnique(gm: GameLoopManager?, hits: seq<Option<Candidate>>, skipEmpty: bool, a: int, b: int)
    requires IsClosest(gm, hits, skipEmpty, a) && IsClosest(gm, hits, skipEmpty, b)
    ensures a == b
  {
    assert hits[a].value.distanceSqr == hits[b].value.distanceSqr;
  }

  /** On the last day, with a manager present, whatever is chosen is the ending trigger. */
  lemma LastDayOnlyEnding(gm: GameLoopManager, hits: seq<Option<Candidate>>, skipEmpty: bool, k: int)
    requires gm.IsLastDay()
    requires IsClosest(gm, hits, skipEmpty, k)
    ensures hits[k].value.kind == Ending
  {
  }

  /**
   * The key press does not skip empty prompts, so it may call an interactable closer than the one
   * the prompt shows; when the one it calls has a prompt, the two agree.
   */
  lemma PressNoFartherThanShown(gm: GameLoopManager?, hits: seq<Option<Candidate>>, shown: int, pressed: int)
    requires IsClosest(gm, hits, true, shown)
    requires IsClosest(gm, hits, false, pressed)
    ensures hits[pressed].value.distanceSqr <= hits[shown].value.distanceSqr
    ensures hits[pressed].value.prompt != "" ==> pressed == shown
  {
    assert Selectable(gm, hits[shown], false);
    if hits[pressed].value.prompt != "" {
      assert IsClosest(gm, hits, true, pressed);
      ClosestUnique(gm, hits, true, shown, pressed);
    }
  }

  /** An NPC with nothing to say, nearer than a door: the prompt shows the door, the key press talks to the NPC. */
  lemma EmptyPromptStillPressed()
    ensures IsClosest(null, [Some(Candidate(Npc, "", 1.0)), Some(Candidate(Door, "Enter", 2.0))], true, 1)
    ensures IsClosest(null, [Some(Candidate(Npc, "", 1.0)), Some(Candidate(Door, "Enter", 2.0))], false, 0)
  {
    var hits := [Some(Candidate(Npc, "", 1.0)), Some(Candidate(Door, "Enter", 2.0))];
    assert !Selectable(null, hits[0], true);
  }

  /** The player's interaction component: whether its UI was found, and the UI's state. */
  class PlayerInteraction {
    /** The interaction UI object was assigned or found on Awake. */
    const hasInteractionUI: bool
    /** A prompt text component was assigned or found inside the UI. */
    const hasPromptText: bool
    var uiActive: bool
    var promptText: string

    /** Awake: the UI, when there is one, starts hidden. */
    constructor (hasInteractionUI: bool, hasPromptText: bool, promptText: string)
      ensures this.hasInteractionUI == hasInteractionUI && this.hasPromptText == hasPromptText
      ensures !uiActive && this.promptText == promptText
    {
      this.hasInteractionUI := hasInteractionUI;
      this.hasPromptText := hasPromptText;
      uiActive := false;
      this.promptText := promptText;
    }

    /**
     * The per-frame prompt update. Without a UI nothing happens. While loading, the UI shows
     * "Loading...". While a dialog or menu is open, the UI is hidden. Otherwise the UI is shown
     * exactly when some interactable with a prompt is selectable, with the closest one's prompt
     * followed by " (E)". The text changes only where a text component exists.
     */
    method CheckForInteractable(gm: GameLoopManager?, dialogOpen: bool, hits: seq<Option<Candidate>>)
      modifies this
      ensures !hasInteractionUI ==> uiActive == old(uiActive) && promptText == old(promptText)
      ensures hasInteractionUI && gm != null && gm.isLoading ==>
        uiActive && promptText == (if hasPromptText then LoadingText else old(promptText))
      ensures hasInteractionUI && !(gm != null && gm.isLoading) && dialogOpen ==>
        !uiActive && promptText == old(promptText)
      ensures hasInteractionUI && !(gm != null && gm.isLoading) && !dialogOpen ==>
        && (uiActive <==> !NoneSelectable(gm, hits, true))
        && (!uiActive || !hasPromptText ==> promptText == old(promptText))
        && (uiActive && hasPromptText ==>
              exists k :: IsClosest(gm, hits, true, k) && promptText == hits[k].value.prompt + KeySuffix)
    {
      if !hasInteractionUI {
        return;
      }
      if gm != null && gm.isLoading {
        uiActive := true;
        if hasPromptText {
          promptText := LoadingText;
        }
        return;
      }
      if dialogOpen {
        uiActive := false;
        return;
      }
      var closest := SelectClosest(gm, hits, true);
      if closest.Some? {
        uiActive := true;
        if hasPromptText {
          promptText := hits[closest.value].value.prompt + KeySuffix;
        }
      } else {
        uiActive := false;
      }
    }

    /**
     * The interact key: nothing while loading; otherwise the closest selectable interactable,
     * empty prompts included, is the one whose Interact is called.
     */
    method OnInteractAction(gm: GameLoopManager?, hits: seq<Option<Candidate>>) returns (target: Option<nat>)
      ensures gm != null && gm.isLoading ==> target.None?
      ensures !(gm != null && gm.isLoading) ==>
        && (target.None? <==> NoneSelectable(gm, hits, false))
        && (target.Some? ==> IsClosest(gm, hits, false, target.value))
    {
      if gm != null && gm.isLoading {
        return None;
      }
      target := SelectClosest(gm, hits, false);
    }
  }
}
