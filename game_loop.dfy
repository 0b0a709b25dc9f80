/** Day progression and the bookkeeping the story scripts consult: wins, refusals, NPCs, monologues, scene loads. */
module GameLoop {
  import opened Scene
  import opened Mathf

  const MaxDays: int := 5
  const TownSceneName: string := "Town1"
  const MenuSceneName: string := "Menu"

  const Ending1Text: string := "Ending 1: Complete Isolation - You avoided everyone and everything."
  const Ending2Text: string := "Ending 2: Tentative Connection - You made some effort to engage with the waves."
  const Ending3Text: string := "Ending 3: Wave Master - You conquered the waves and embraced the challenge."

  /**
   * The ending text chosen from the counters. The first branch also tests the NPC count, but the
   * fallback gives the same text, so only the number of minigame wins decides.
   */
  function CalculateEnding(wins: int, npcInteractions: int): (ending: string)
    ensures wins <= 0 ==> ending == Ending1Text
    ensures 1 <= wins <= 2 ==> ending == Ending2Text
    ensures wins >= 3 ==> ending == Ending3Text
  {
    if wins == 0 && npcInteractions == 0 then Ending1Text
    else if wins >= 1 && wins <= 2 then Ending2Text
    else if wins >= 3 then Ending3Text
    else Ending1Text
  }

  /** The day a script assumes: the manager's current day, or day 1 when there is no manager. */
  function DayOrDefault(gm: GameLoopManager?): int
    reads gm
  {
    if gm == null then 1 else gm.currentDay
  }

  /** The name of a day's variant of a Fungus block, as in "Day2_Radio". */
  function DayBlockName(day: int, name: string): (block: string)
    ensures |block| > |name| + 4
    ensures block[..3] == "Day"
    ensures block[|block| - |name|..] == name
  {
    "Day" + IntToString(day) + "_" + name
  }

  /** A day's variant of a block is never the block itself. */
  lemma DayBlockNameDiffers(day: int, name: string)
    ensures DayBlockName(day, name) != name
  {
  }

  /**
   * A scene request went through the manager when there is one (which records it and the scene
   * being left), and straight to the scene manager otherwise; nothing else changed.
   */
  twostate predicate SceneRequested(gm: GameLoopManager?, engine: Engine, scene: string)
    reads gm, engine, if gm != null then {gm.engine} else {}
  {
    && (gm != null ==>
          && gm.State() == old(gm.State()).(
               isLoading := true,
               previousSceneName := gm.engine.activeScene,
               sceneRequests := old(gm.sceneRequests) + [scene])
          && unchanged(engine))
    && (gm == null ==>
          && engine.directLoads == old(engine.directLoads) + [scene]
          && engine.activeScene == old(engine.activeScene)
          && engine.timeScale == old(engine.timeScale))
  }

  /** Loads a scene through the manager if it exists, else directly; the fallback every interactable uses. */
  method RequestScene(gm: GameLoopManager?, engine: Engine, scene: string)
    modifies gm, engine
    ensures SceneRequested(gm, engine, scene)
  {
    if gm != null {
      gm.LoadScene(scene);
    } else {
      engine.LoadScene(scene);
    }
  }

  /** Every field of the manager, as one value, so that a caller can say which of them an action changed. */
  datatype Progress = Progress(
    currentDay: int,
    waveMinigamesBeaten: int,
    npcInteractionsCount: int,
    daysWithMinigameWins: set<int>,
    daysWithRadioRefusals: set<int>,
    dailyInteractedNpcs: set<string>,
    isLoading: bool,
    previousSceneName: string,
    lastMonologueDay: int,
    sceneRequests: seq<string>)

  /** The persistent game-state object (the GameLoopManager singleton). */
  class GameLoopManager {
    const engine: Engine
    var currentDay: int
    var waveMinigamesBeaten: int
    var npcInteractionsCount: int
    var daysWithMinigameWins: set<int>
    var daysWithRadioRefusals: set<int>
    var dailyInteractedNpcs: set<string>
    var isLoading: bool
    /** The scene that was active when the last load was requested; "" before any (the source's null). */
    var previousSceneName: string
    var lastMonologueDay: int
    /** Every LoadScene request, in order. */
    var sceneRequests: seq<string>

    /** A fresh manager with the serialized defaults. */
    constructor (engine: Engine)
      ensures this.engine == engine
      ensures currentDay == 1 && waveMinigamesBeaten == 0 && npcInteractionsCount == 0
      ensures daysWithMinigameWins == {} && daysWithRadioRefusals == {} && dailyInteractedNpcs == {}
      ensures !isLoading && previousSceneName == "" && lastMonologueDay == 0 && sceneRequests == []
    {
      this.engine := engine;
      currentDay := 1;
      waveMinigamesBeaten := 0;
      npcInteractionsCount := 0;
      daysWithMinigameWins := {};
      daysWithRadioRefusals := {};
      dailyInteractedNpcs := {};
      isLoading := false;
      previousSceneName := "";
      lastMonologueDay := 0;
      sceneRequests := [];
    }

    function State(): Progress
      reads this
    {
      Progress(currentDay, waveMinigamesBeaten, npcInteractionsCount, daysWithMinigameWins, daysWithRadioRefusals,
               dailyInteractedNpcs, isLoading, previousSceneName, lastMonologueDay, sceneRequests)
    }

    ghost predicate DayInRange()
      reads this
    {
      1 <= currentDay <= MaxDays
    }

    method RecordNpcInteraction()
      modifies this
      ensures npcInteractionsCount == old(npcInteractionsCount) + 1
      ensures currentDay == old(currentDay) && waveMinigamesBeaten == old(waveMinigamesBeaten)
      ensures daysWithMinigameWins == old(daysWithMinigameWins) && daysWithRadioRefusals == old(daysWithRadioRefusals)
      ensures dailyInteractedNpcs == old(dailyInteractedNpcs) && lastMonologueDay == old(lastMonologueDay)
      ensures isLoading == old(isLoading) && previousSceneName == old(previousSceneName)
      ensures sceneRequests == old(sceneRequests)
    {
      npcInteractionsCount := npcInteractionsCount + 1;
    }

    /** One more win, and today joins the days with a win. */
    method RecordMinigameVictory()
      modifies this
      ensures waveMinigamesBeaten == old(waveMinigamesBeaten) + 1
      ensures daysWithMinigameWins == old(daysWithMinigameWins) + {currentDay}
      ensures DidWinMinigameOnDay(currentDay)
      ensures forall d :: DidWinMinigameOnDay(d) <==> d == currentDay || old(DidWinMinigameOnDay(d))
      ensures currentDay == old(currentDay) && npcInteractionsCount == old(npcInteractionsCount)
      ensures daysWithRadioRefusals == old(daysWithRadioRefusals)
      ensures dailyInteractedNpcs == old(dailyInteractedNpcs) && lastMonologueDay == old(lastMonologueDay)
      ensures isLoading == old(isLoading) && previousSceneName == old(previousSceneName)
      ensures sceneRequests == old(sceneRequests)
    {
      waveMinigamesBeaten := waveMinigamesBeaten + 1;
      daysWithMinigameWins := daysWithMinigameWins + {currentDay};
    }

    predicate DidWinMinigameOnDay(day: int)
      reads this
    {
      day in daysWithMinigameWins
    }

    /** Today joins the days on which the radio was refused. */
    method RecordRadioRefusal()
      modifies this
      ensures daysWithRadioRefusals == old(daysWithRadioRefusals) + {currentDay}
      ensures HasRefusedRadioOnDay(currentDay)
      ensures forall d :: HasRefusedRadioOnDay(d) <==> d == currentDay || old(HasRefusedRadioOnDay(d))
      ensures currentDay == old(currentDay) && waveMinigamesBeaten == old(waveMinigamesBeaten)
      ensures npcInteractionsCount == old(npcInteractionsCount) && daysWithMinigameWins == old(daysWithMinigameWins)
      ensures dailyInteractedNpcs == old(dailyInteractedNpcs) && lastMonologueDay == old(lastMonologueDay)
      ensures isLoading == old(isLoading) && previousSceneName == old(previousSceneName)
      ensures sceneRequests == old(sceneRequests)
    {
      daysWithRadioRefusals := daysWithRadioRefusals + {currentDay};
    }

    predicate HasRefusedRadioOnDay(day: int)
      reads this
    {
      day in daysWithRadioRefusals
    }

    predicate HasInteractedWith(npcId: string)
      reads this
    {
      npcId in dailyInteractedNpcs
    }

    /** Marks an NPC as spoken to today; marking it again changes nothing. */
    method MarkInteraction(npcId: string)
      modifies this
      ensures dailyInteractedNpcs == old(dailyInteractedNpcs) + {npcId}
      ensures HasInteractedWith(npcId)
      ensures old(HasInteractedWith(npcId)) ==> dailyInteractedNpcs == old(dailyInteractedNpcs)
      ensures currentDay == old(currentDay) && waveMinigamesBeaten == old(waveMinigamesBeaten)
      ensures npcInteractionsCount == old(npcInteractionsCount) && daysWithMinigameWins == old(daysWithMinigameWins)
      ensures daysWithRadioRefusals == old(daysWithRadioRefusals) && lastMonologueDay == old(lastMonologueDay)
      ensures isLoading == old(isLoading) && previousSceneName == old(previousSceneName)
      ensures sceneRequests == old(sceneRequests)
    {
      if npcId !in dailyInteractedNpcs {
        dailyInteractedNpcs := dailyInteractedNpcs + {npcId};
      }
    }

    /**
     * Before the last day: the next day begins, today's NPC set is cleared and the town is requested.
     * On the last day nothing changes. Either way a day in [1, MaxDays] stays there.
     */
    method AdvanceToNextDay()
      modifies this
      ensures old(currentDay) < MaxDays ==>
        && currentDay == old(currentDay) + 1
        && dailyInteractedNpcs == {}
        && sceneRequests == old(sceneRequests) + [TownSceneName]
        && isLoading && previousSceneName == engine.activeScene
      ensures old(currentDay) >= MaxDays ==>
        && currentDay == old(currentDay) && dailyInteractedNpcs == old(dailyInteractedNpcs)
        && sceneRequests == old(sceneRequests)
        && isLoading == old(isLoading) && previousSceneName == old(previousSceneName)
      ensures old(DayInRange()) ==> DayInRange()
      ensures waveMinigamesBeaten == old(waveMinigamesBeaten) && npcInteractionsCount == old(npcInteractionsCount)
      ensures daysWithMinigameWins == old(daysWithMinigameWins) && daysWithRadioRefusals == old(daysWithRadioRefusals)
      ensures lastMonologueDay == old(lastMonologueDay)
    {
      if currentDay < MaxDays {
        currentDay := currentDay + 1;
        dailyInteractedNpcs := {};
        LoadScene(TownSceneName);
      }
    }

    predicate IsLastDay()
      reads this
    {
      currentDay >= MaxDays
    }

    predicate HasPlayedMonologueForDay(day: int)
      reads this
    {
      lastMonologueDay >= day
    }

    /** Records a monologue day; the recorded day only ever grows. */
    method SetMonologuePlayedForDay(day: int)
      modifies this
      ensures lastMonologueDay == if day > old(lastMonologueDay) then day else old(lastMonologueDay)
      ensures lastMonologueDay >= old(lastMonologueDay)
      ensures HasPlayedMonologueForDay(day)
      ensures forall d :: old(HasPlayedMonologueForDay(d)) ==> HasPlayedMonologueForDay(d)
      ensures currentDay == old(currentDay) && waveMinigamesBeaten == old(waveMinigamesBeaten)
      ensures npcInteractionsCount == old(npcInteractionsCount) && daysWithMinigameWins == old(daysWithMinigameWins)
      ensures daysWithRadioRefusals == old(daysWithRadioRefusals) && dailyInteractedNpcs == old(dailyInteractedNpcs)
      ensures isLoading == old(isLoading) && previousSceneName == old(previousSceneName)
      ensures sceneRequests == old(sceneRequests)
    {
      if day > lastMonologueDay {
        lastMonologueDay := day;
      }
    }

    /**
     * Requests a scene: the active scene becomes the previous one, loading starts, and the
     * request is logged (the engine performs it a frame later).
     */
    method LoadScene(sceneName: string)
      modifies this
      ensures previousSceneName == engine.activeScene && isLoading
      ensures sceneRequests == old(sceneRequests) + [sceneName]
      ensures currentDay == old(currentDay) && waveMinigamesBeaten == old(waveMinigamesBeaten)
      ensures npcInteractionsCount == old(npcInteractionsCount) && daysWithMinigameWins == old(daysWithMinigameWins)
      ensures daysWithRadioRefusals == old(daysWithRadioRefusals) && dailyInteractedNpcs == old(dailyInteractedNpcs)
      ensures lastMonologueDay == old(lastMonologueDay)
    {
      previousSceneName := engine.activeScene;
      isLoading := true;
      sceneRequests := sceneRequests + [sceneName];
    }

    /** The engine's scene-loaded callback: loading is over and time runs again. */
    method OnSceneLoaded()
      modifies this, engine
      ensures !isLoading && engine.timeScale == 1.0
      ensures engine.activeScene == old(engine.activeScene) && engine.directLoads == old(engine.directLoads)
      ensures currentDay == old(currentDay) && waveMinigamesBeaten == old(waveMinigamesBeaten)
      ensures npcInteractionsCount == old(npcInteractionsCount) && daysWithMinigameWins == old(daysWithMinigameWins)
      ensures daysWithRadioRefusals == old(daysWithRadioRefusals) && dailyInteractedNpcs == old(dailyInteractedNpcs)
      ensures lastMonologueDay == old(lastMonologueDay) && previousSceneName == old(previousSceneName)
      ensures sceneRequests == old(sceneRequests)
    {
      isLoading := false;
      engine.timeScale := 1.0;
    }

    method ResumeGame()
      modifies engine
      ensures engine.timeScale == 1.0
      ensures engine.activeScene == old(engine.activeScene) && engine.directLoads == old(engine.directLoads)
    {
      engine.timeScale := 1.0;
    }

    /** Time runs again, then the menu is requested. */
    method ReturnToMainMenu()
      modifies this, engine
      ensures engine.timeScale == 1.0
      ensures engine.activeScene == old(engine.activeScene) && engine.directLoads == old(engine.directLoads)
      ensures sceneRequests == old(sceneRequests) + [MenuSceneName]
      ensures isLoading && previousSceneName == engine.activeScene
      ensures currentDay == old(currentDay) && waveMinigamesBeaten == old(waveMinigamesBeaten)
      ensures npcInteractionsCount == old(npcInteractionsCount) && daysWithMinigameWins == old(daysWithMinigameWins)
      ensures daysWithRadioRefusals == old(daysWithRadioRefusals) && dailyInteractedNpcs == old(dailyInteractedNpcs)
      ensures lastMonologueDay == old(lastMonologueDay)
    {
      ResumeGame();
      LoadScene(MenuSceneName);
    }

    /**
     * Day 1 with every counter and set emptied, then the town is requested. The monologue day is
     * not reset.
     */
    method NewGame()
      modifies this
      ensures currentDay == 1 && waveMinigamesBeaten == 0 && npcInteractionsCount == 0
      ensures daysWithMinigameWins == {} && daysWithRadioRefusals == {} && dailyInteractedNpcs == {}
      ensures lastMonologueDay == old(lastMonologueDay)
      ensures sceneRequests == old(sceneRequests) + [TownSceneName]
      ensures isLoading && previousSceneName == engine.activeScene
      ensures DayInRange()
    {
      currentDay := 1;
      waveMinigamesBeaten := 0;
      npcInteractionsCount := 0;
      daysWithMinigameWins := {};
      daysWithRadioRefusals := {};
      dailyInteractedNpcs := {};
      LoadScene(TownSceneName);
    }
  }
}
