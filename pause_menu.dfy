/** The pause menu: one persistent instance that stops and restarts time. */
module PauseMenuModel {
  import opened Scene
  import opened GameLoop

  /** The static Instance property shared by every pause menu. */
  class PauseMenuSlot {
    var instance: PauseMenuController?

    constructor ()
      ensures instance == null
    {
      instance := null;
    }
  }

  /** What pausing acts on: the pause flag, the panel reference and its visibility, and the time scale. */
  datatype PauseView = PauseView(isPaused: bool, hasPanel: bool, panelActive: bool, timeScale: real)

  /** Pause: time stops and the panel (the menu's own object when none is set) is shown. */
  function Paused(v: PauseView): PauseView
  {
    v.(isPaused := true, hasPanel := true, panelActive := true, timeScale := 0.0)
  }

  /** Resume: time runs and the panel, if set, is hidden. */
  function Resumed(v: PauseView): PauseView
  {
    v.(isPaused := false, panelActive := if v.hasPanel then false else v.panelActive, timeScale := 1.0)
  }

  /** TogglePause: resume when paused, pause otherwise. */
  function Toggled(v: PauseView): PauseView
  {
    if v.isPaused then Resumed(v) else Paused(v)
  }

  /**
   * A settled menu: its panel is set, time is stopped or running at normal speed, and both the
   * stopped time and the visible panel go with being paused.
   */
  predicate Settled(v: PauseView)
  {
    && v.hasPanel
    && (v.timeScale == 0.0 || v.timeScale == 1.0)
    && (v.isPaused <==> v.timeScale == 0.0)
    && (v.panelActive <==> v.isPaused)
  }

  /**
   * Toggling flips the pause flag and leaves a settled menu unless it resumes a menu without a
   * panel; from a settled menu, toggling twice gives back exactly the state it started in.
   */
  lemma ToggleTwiceRestores(v: PauseView)
    ensures Toggled(v).isPaused == !v.isPaused
    ensures v.hasPanel || !v.isPaused ==> Settled(Toggled(v))
    ensures Settled(v) ==> Toggled(Toggled(v)) == v
  {
  }

  class PauseMenuController {
    /** Whether the panel reference is set; when it is missing the menu's own object is used. */
    var hasPanel: bool
    var panelActive: bool
    var isPaused: bool
    /** The menu's root survives scene loads. */
    var persistent: bool
    /** The menu's root was destroyed as a duplicate. */
    var destroyed: bool

    constructor (hasPanel: bool, panelActive: bool)
      ensures this.hasPanel == hasPanel && this.panelActive == panelActive
      ensures !isPaused && !persistent && !destroyed
    {
      this.hasPanel := hasPanel;
      this.panelActive := panelActive;
      isPaused := false;
      persistent := false;
      destroyed := false;
    }

    /** The part of the menu and the engine that pausing changes. */
    function View(engine: Engine): PauseView
      reads this, engine
    {
      PauseView(isPaused, hasPanel, panelActive, engine.timeScale)
    }

    /** Paused exactly when time is stopped, and the panel shows exactly while paused. */
    predicate Consistent(engine: Engine)
      reads this, engine
    {
      && (isPaused <==> engine.timeScale == 0.0)
      && (hasPanel ==> (panelActive <==> isPaused))
    }

    /**
     * The first menu to wake takes the slot, persists and hides its panel; any later one finds
     * the slot taken and destroys itself, leaving the slot as it was.
     */
    method Awake(slot: PauseMenuSlot)
      modifies this, slot
      ensures old(slot.instance) == null ==>
        && slot.instance == this && persistent && hasPanel && !panelActive
        && destroyed == old(destroyed) && isPaused == old(isPaused)
      ensures old(slot.instance) != null ==>
        && slot.instance == old(slot.instance) && destroyed
        && persistent == old(persistent) && hasPanel == old(hasPanel) && panelActive == old(panelActive)
        && isPaused == old(isPaused)
    {
      if slot.instance == null {
        slot.instance := this;
        persistent := true;
        hasPanel := true;
        panelActive := false;
      } else {
        destroyed := true;
      }
    }

    /** Only the menu holding the slot empties it when destroyed. */
    method OnDestroy(slot: PauseMenuSlot)
      modifies slot
      ensures old(slot.instance) == this ==> slot.instance == null
      ensures old(slot.instance) != this ==> slot.instance == old(slot.instance)
    {
      if slot.instance == this {
        slot.instance := null;
      }
    }

    /**
     * Pauses when running and resumes when paused. From a settled menu, doing it twice gives
     * back the first state (ToggleTwiceRestores).
     */
    method TogglePause(engine: Engine)
      modifies this, engine
      ensures View(engine) == Toggled(old(View(engine)))
      ensures isPaused == !old(isPaused)
      ensures old(isPaused) ==> engine.timeScale == 1.0 && hasPanel == old(hasPanel) && (hasPanel ==> !panelActive)
      ensures !old(isPaused) ==> hasPanel && panelActive && engine.timeScale == 0.0
      ensures Consistent(engine)
      ensures engine.activeScene == old(engine.activeScene) && engine.directLoads == old(engine.directLoads)
      ensures persistent == old(persistent) && destroyed == old(destroyed)
    {
      if isPaused {
        Resume(engine);
      } else {
        Pause(engine);
      }
    }

    /** Time stops and the panel (the menu's own object, if none is set) is shown. */
    method Pause(engine: Engine)
      modifies this, engine
      ensures View(engine) == Paused(old(View(engine)))
      ensures isPaused && hasPanel && panelActive && engine.timeScale == 0.0
      ensures Consistent(engine)
      ensures engine.activeScene == old(engine.activeScene) && engine.directLoads == old(engine.directLoads)
      ensures persistent == old(persistent) && destroyed == old(destroyed)
    {
      isPaused := true;
      if !hasPanel {
        hasPanel := true;
      }
      panelActive := true;
      engine.timeScale := 0.0;
    }

    /** Time runs again and the panel, if set, is hidden. */
    method Resume(engine: Engine)
      modifies this, engine
      ensures View(engine) == Resumed(old(View(engine)))
      ensures !isPaused && engine.timeScale == 1.0
      ensures hasPanel == old(hasPanel) && (hasPanel ==> !panelActive) && (!hasPanel ==> panelActive == old(panelActive))
      ensures Consistent(engine)
      ensures engine.activeScene == old(engine.activeScene) && engine.directLoads == old(engine.directLoads)
      ensures persistent == old(persistent) && destroyed == old(destroyed)
    {
      isPaused := false;
      if hasPanel {
        panelActive := false;
      }
      engine.timeScale := 1.0;
    }

    /**
     * The menu is left resumed, with time running, before the main menu is requested: through
     * the manager when there is one (whose engine is this engine), else directly.
     */
    method ReturnToMainMenu(gm: GameLoopManager?, engine: Engine)
      requires gm != null ==> gm.engine == engine
      modifies this, gm, engine
      ensures !isPaused && engine.timeScale == 1.0 && (hasPanel ==> !panelActive)
      ensures engine.activeScene == old(engine.activeScene)
      ensures gm != null ==>
        && gm.State() == old(gm.State()).(
             isLoading := true,
             previousSceneName := engine.activeScene,
             sceneRequests := old(gm.sceneRequests) + [MenuSceneName])
        && engine.directLoads == old(engine.directLoads)
      ensures gm == null ==> engine.directLoads == old(engine.directLoads) + [MenuSceneName]
    {
      Resume(engine);
      if gm != null {
        gm.ReturnToMainMenu();
      } else {
        engine.LoadScene(MenuSceneName);
      }
    }
  }
}
