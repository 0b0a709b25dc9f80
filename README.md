# ShortWaves — a Dafny model of the game's decision and state logic

ShortWaves is a short Unity adventure. The player lives through five in-game days in a small town. On each
day they talk to townspeople (NPCs whose Fungus flowchart blocks depend on the day), use a radio that opens
a wave-matching minigame, sleep in a bed to end the day, and on the final day reach an antenna where one of
three endings plays.

This project models the game's decision and state-update code in Dafny and proves properties about it:

- **Wave-matching minigame** (`WaveGame`, `MatchScoring`, `Waves`).
  - A level table maps a day to a template wave, the player's starting wave and a noise strength.
  - The tolerance score compares the player's wave with the template.
  - A state machine covers set-up, parameter edits, the match check, the win, the delayed return to the night
    scene, the exit, and the fade-out of both signal traces.
- **Audio feedback generator** (`AudioFeedback`): the start/stop/fade state machine, the score-to-pitch
  mapping, and the in-place fill of the audio buffer with four wrapped phase accumulators.
- **Wave trace sampler** (`WaveRendering`): the point array on an even x grid, the square/sine signal, the
  two noise terms, and the one-time width baseline of the fade.
- **Game progression** (`GameLoop`): the day counter bounded by 5, the sets of days with a minigame win or a
  radio refusal, the per-day set of NPCs already spoken to, the monotone "last monologue day", the ending
  classification, and scene-load requests.
- **Interaction rules**:
  - closest-interactable selection (`PlayerInteractionModel`);
  - NPC block choice (`NpcDialogueModel`);
  - radio routing (`RadioModel`);
  - the daily monologue (`DailyMonologueModel`);
  - the single-fire ending trigger (`EndingModel`);
  - sleeping (`BedModel`);
  - doors (`SceneTransitionModel`);
  - spawn-point lookup (`SceneSpawnModel`).
- **Auxiliary state machines**: the pause menu and its singleton slot (`PauseMenuModel`), the camera
  dead-zone (`CameraFollowModel`), and the music map and crossfade (`MusicModel`).

Engine objects are in `Scene`:

- The engine holds the active scene, the list of scenes loaded directly through the scene manager, and the
  time scale.
- A Fungus flowchart is a set of block names, a log of executed blocks, and the boolean and integer variables
  written into it.
- A transform holds a position and a rotation.

The game-loop singleton `GameLoopManager.Instance` is an optional reference (`GameLoopManager?`) passed to
each operation. `GameLoopManager.LoadScene` appends the scene to `sceneRequests`, sets `isLoading` and records
the active scene as the previous one.

Floats are exact `real`s. Unity's `Mathf` operations that the code uses are written out in `Mathf`.
`Mathf.Sin`, `Mathf.PerlinNoise`, `System.Random`, `Vector3.SmoothDamp` and the physics overlap query are
parameters of the operations that use them, with the bounds the engine guarantees stated where a proof needs
them. A coroutine or `Invoke` is explicit state plus a method that advances it by the frame times it lives
through.

## Model

| member | source | states |
|---|---|---|
| Waves.MakeWave | Assets/Scripts/MiniGame/WaveData.cs:19-25 | the constructor stores frequency, amplitude, type and phase unchanged |
| Waves.DefaultPhaseIsZero | Assets/Scripts/MiniGame/WaveData.cs:19-24 | an omitted phase is 0, the same wave as passing 0 explicitly |
| Waves.WaveTypeHasTwoValues | Assets/Scripts/MiniGame/WaveData.cs:5-9 | every wave type is Sine or Square, and the two differ |
| MatchScoring.PartScore | Assets/Scripts/MiniGame/WaveGameManager.cs:246-254 | a parameter's score lies in [0, 1] |
| MatchScoring.CalculateMatchScore | Assets/Scripts/MiniGame/WaveGameManager.cs:238-260 | a different wave type scores 0 before anything is divided; every score lies in [0, 1] |
| MatchScoring.PartScoreOne | Assets/Scripts/MiniGame/WaveGameManager.cs:247-254 | against a positive target a part scores exactly 1 if and only if the value equals the target |
| MatchScoring.ScoreOneIffExact | Assets/Scripts/MiniGame/WaveGameManager.cs:247-257 | for a positive template of the same type, the score is 1 exactly when frequency and amplitude both match |
| MatchScoring.PhaseIgnored | Assets/Scripts/MiniGame/WaveGameManager.cs:238-260 | changing either wave's phase never changes the score |
| MatchScoring.FrequencyOutsideTolerance | Assets/Scripts/MiniGame/WaveGameManager.cs:248-249 | a frequency off by at least 10% of the template's scores 0 for that part, so the total is at most 0.5 |
| MatchScoring.ToleranceBoundaryExample | Assets/Scripts/MiniGame/WaveGameManager.cs:248-257 | player (2.2, 1, Sine) against template (2, 1, Sine) scores exactly 0.5 |
| MatchScoring.WinNeedsBothClose | Assets/Scripts/MiniGame/WaveGameManager.cs:232-257 | a score reaching the 0.9 threshold needs the same type and both parameters within 2% of the template |
| WaveGame.TemplateLevel | Assets/Scripts/MiniGame/WaveGameManager.cs:79 | the template level is the level clamped to [1, 4]: unchanged inside, 1 below, 4 above |
| WaveGame.LevelTemplate | Assets/Scripts/MiniGame/WaveGameManager.cs:99-135 | every template has positive frequency and amplitude inside the slider ranges; odd levels are sine and even levels square |
| WaveGame.Instruction | Assets/Scripts/MiniGame/WaveGameManager.cs:104-134 | every level has an instruction, and the sine-only instruction is shown exactly when the wave selector is hidden |
| WaveGame.InitialWaveScoresZero | Assets/Scripts/MiniGame/WaveGameManager.cs:103-132 | the starting wave (1, 0.5, Sine, 0) scores 0 against every level's template |
| WaveGame.EveryLevelWinnable | Assets/Scripts/MiniGame/WaveGameManager.cs:99-135 | on every level, setting the template's frequency, amplitude and type scores exactly 1 |
| WaveGame.LevelTableUsesRawLevelForNoise | Assets/Scripts/MiniGame/WaveGameManager.cs:79-89 | above level 4 the template stops changing but the noise keeps growing with the raw level; level 5 has 20 times the level-1 noise |
| WaveGame.StillPending | Assets/Scripts/MiniGame/WaveGameManager.cs:309 | the invokes still pending after a frame are the ones whose delay has not run out, with their delays reduced |
| WaveGame.Fired | Assets/Scripts/MiniGame/WaveGameManager.cs:309 | at most as many invokes fire in a frame as were pending |
| WaveGame.TimersFireOrWait | Assets/Scripts/MiniGame/WaveGameManager.cs:309 | every pending invoke either fires or stays pending; all fire when every delay has run out, none when none has |
| WaveGame.ReturnFiresAfterDelay | Assets/Scripts/MiniGame/WaveGameManager.cs:309 | the return scheduled with a 4 s delay fires in a frame that reaches 4 s |
| WaveGame.FadeAlpha | Assets/Scripts/MiniGame/WaveGameManager.cs:373 | the fade alpha lies in [0, 1] and is 1 before any time has passed |
| WaveGame.FadeAlphaMonotone | Assets/Scripts/MiniGame/WaveGameManager.cs:370-373 | the alpha never increases with elapsed time and is 0 once the duration is reached |
| WaveGame.FadeNonIncreasing | Assets/Scripts/MiniGame/WaveGameManager.cs:369-373 | with non-negative frame times, the alpha after more frames is never larger |
| WaveGame.WaveGameManager.constructor | Assets/Scripts/MiniGame/WaveGameManager.cs:31-36 | a new minigame is at level 1 with no score, no fades and no pending return |
| WaveGame.WaveGameManager.SetupLevel | Assets/Scripts/MiniGame/WaveGameManager.cs:76-159 | shows the level's day label, template, starting wave, instruction and selector, and gives both renderers the level's noise |
| WaveGame.WaveGameManager.ApplyNoiseStrength | Assets/Scripts/MiniGame/WaveGameManager.cs:91-96 | each renderer present gets the given high-frequency noise strength |
| WaveGame.WaveGameManager.UpdateButtonStates | Assets/Scripts/MiniGame/WaveGameManager.cs:180-189 | only the button of the unselected type is interactable, so exactly one is |
| WaveGame.WaveGameManager.OnLevelComplete | Assets/Scripts/MiniGame/WaveGameManager.cs:262-310 | a win stops the audio, records one victory at once, disables both sliders, hides the selector, starts a fade and schedules the return after 4 s |
| WaveGame.WaveGameManager.CheckMatch | Assets/Scripts/MiniGame/WaveGameManager.cs:208-236 | the score goes to the audio and the match band; a win follows exactly when the score reaches 0.9, otherwise no victory is recorded |
| WaveGame.WaveGameManager.ShowScore | Assets/Scripts/MiniGame/WaveGameManager.cs:210-229 | the audio pitch follows the score and the match text takes its colour band; nothing else changes |
| WaveGame.WaveGameManager.OnFrequencyChanged | Assets/Scripts/MiniGame/WaveGameManager.cs:161-165 | only the player's frequency changes, then the match is checked |
| WaveGame.WaveGameManager.OnAmplitudeChanged | Assets/Scripts/MiniGame/WaveGameManager.cs:167-171 | only the player's amplitude changes, then the match is checked |
| WaveGame.WaveGameManager.OnWaveTypeChanged | Assets/Scripts/MiniGame/WaveGameManager.cs:173-178 | only the player's type changes, the buttons follow it, then the match is checked |
| WaveGame.WaveGameManager.ReturnToNight | Assets/Scripts/MiniGame/WaveGameManager.cs:312-323 | requests "Night1" through the manager, or reloads the active scene directly without one; never records a win |
| WaveGame.WaveGameManager.AdvanceInvokes | Assets/Scripts/MiniGame/WaveGameManager.cs:309-323 | every return whose delay has run out requests its scene once; the rest stay pending |
| WaveGame.WaveGameManager.SetLevel | Assets/Scripts/MiniGame/WaveGameManager.cs:326-330 | cancels any pending return and sets up the clamped level |
| WaveGame.WaveGameManager.ExitMinigame | Assets/Scripts/MiniGame/WaveGameManager.cs:336-366 | cancels pending returns, stops the audio, never records a win, and returns to the previous scene or "Night1" when there is none |
| WaveGame.WaveGameManager.Start | Assets/Scripts/MiniGame/WaveGameManager.cs:38-54 | sets up the level of the current day (or the stored level without a manager), resets the controls and score, and starts the audio |
| WaveGame.WaveGameManager.SetupUI | Assets/Scripts/MiniGame/WaveGameManager.cs:56-74 | sine starts selected, the score of the starting wave (0) is shown and heard, and no win is recorded |
| WaveGame.WaveGameManager.StartFeedback | Assets/Scripts/MiniGame/WaveGameManager.cs:50-53 | the audio is playing with no pending fade |
| WaveGame.WaveGameManager.Update | Assets/Scripts/MiniGame/WaveGameManager.cs:191-199 | each renderer present draws its wave for the current time |
| WaveGame.WaveGameManager.FadeBoth | Assets/Scripts/MiniGame/WaveGameManager.cs:375-376 | both renderers present fade to the same alpha |
| WaveGame.WaveGameManager.FadeOutSignals | Assets/Scripts/MiniGame/WaveGameManager.cs:367-383 | each frame's alpha is the lerp at the elapsed time; the loop ends exactly when the duration is reached, and the traces end at 0 |
| AudioFeedback.PhasesStayWrapped | Assets/Scripts/MiniGame/AudioFeedbackGenerator.cs:165-186 | phases and increments within one turn keep every phase within one turn after any number of samples |
| AudioFeedback.IncrementsWithinTurn | Assets/Scripts/MiniGame/AudioFeedbackGenerator.cs:130-139 | with pitch and wobble in their ranges, every per-sample increment of a buffer is within one turn |
| AudioFeedback.FillFrame | Assets/Scripts/MiniGame/AudioFeedbackGenerator.cs:157-161 | every channel of the frame gets the same sample and nothing else in the buffer changes |
| AudioFeedback.FillBuffer | Assets/Scripts/MiniGame/AudioFeedbackGenerator.cs:141-187 | frame f on every channel holds the sample computed from the phases advanced f times with the buffer's fixed increments |
| AudioFeedback.AudioFeedbackGenerator.constructor | Assets/Scripts/MiniGame/AudioFeedbackGenerator.cs:40-49 | a new generator is stopped, at full volume, at the lowest pitch and wobble rate, with all phases 0 |
| AudioFeedback.AudioFeedbackGenerator.StartAudio | Assets/Scripts/MiniGame/AudioFeedbackGenerator.cs:54-73 | always cancels a pending fade; only when stopped does it reset all four phases and the volume |
| AudioFeedback.AudioFeedbackGenerator.StopAudio | Assets/Scripts/MiniGame/AudioFeedbackGenerator.cs:78-84 | starts a fade only when playing and no fade is pending; otherwise nothing changes |
| AudioFeedback.AudioFeedbackGenerator.FadeTick | Assets/Scripts/MiniGame/AudioFeedbackGenerator.cs:89-105 | the volume is 1 minus the elapsed fraction while fading, and exactly 0 with playback stopped and the fade cleared at the end |
| AudioFeedback.AudioFeedbackGenerator.UpdateFrequency | Assets/Scripts/MiniGame/AudioFeedbackGenerator.cs:111-117 | pitch is Lerp(200, 700, score) and wobble rate Lerp(2, 10, score), each within its range |
| AudioFeedback.AudioFeedbackGenerator.OnAudioFilterRead | Assets/Scripts/MiniGame/AudioFeedbackGenerator.cs:119-188 | stopped: every element is 0 and phases stay; playing: each frame holds one sample on all channels and the phases advance once per frame |
| WaveRendering.GridEnds | Assets/Scripts/MiniGame/WaveRenderer.cs:45-50 | the first x is -width/2 and the last +width/2 |
| WaveRendering.GridUniform | Assets/Scripts/MiniGame/WaveRenderer.cs:45-50 | neighbouring points are width/(points-1) apart |
| WaveRendering.SampleTInUnit | Assets/Scripts/MiniGame/WaveRenderer.cs:54 | the sampling parameter runs over [0, 1], from 0 at the first point to 1 at the last |
| WaveRendering.SineSignalBounded | Assets/Scripts/MiniGame/WaveRenderer.cs:58-61 | before noise a sine trace stays within the amplitude |
| WaveRendering.SquareSignalTwoLevels | Assets/Scripts/MiniGame/WaveRenderer.cs:62-66 | before noise a square trace is exactly +amplitude or -amplitude, +amplitude where the sine is 0 |
| WaveRendering.TracePointShape | Assets/Scripts/MiniGame/WaveRenderer.cs:48-80 | each point has z = 0, the grid x, and y between the signal and the signal plus both noise strengths |
| WaveRendering.NoiseTermsBounded | Assets/Scripts/MiniGame/WaveRenderer.cs:71-78 | the wobble and interference terms lie between 0 and their strengths |
| WaveRendering.WaveRenderer.constructor | Assets/Scripts/MiniGame/WaveRenderer.cs:30-38 | the line is sized to `points` positions (none for a negative count); a zero noise offset is replaced by a value in [0, 100]; no width baseline has been captured |
| WaveRendering.WaveRenderer.SetHighFreqNoiseStrength | Assets/Scripts/MiniGame/WaveRenderer.cs:22-26 | set-then-get round trip: the getter returns the value just set, which the next Render uses; no other setting or position changes |
| WaveRendering.WaveRenderer.Render | Assets/Scripts/MiniGame/WaveRenderer.cs:40-84 | exactly `points` positions are written, each the trace point of its index |
| WaveRendering.WaveRenderer.SetFade | Assets/Scripts/MiniGame/WaveRenderer.cs:87-109 | the width baseline is captured only on the first call; the width becomes baseline times fade and every alpha key takes the fade value |
| GameLoop.CalculateEnding | Assets/Scripts/GameLoopManager.cs:202-232 | the ending depends only on the win count: 0 or fewer gives Ending 1, 1-2 Ending 2, 3 or more Ending 3 |
| GameLoop.DayBlockName | Assets/Scripts/NpcDialogue.cs:122 | a day block name starts with "Day" and ends with the base name, so it is never the base name |
| GameLoop.DayBlockNameDiffers | Assets/Scripts/NpcDialogue.cs:113-123 | a day-specific block name differs from its base name |
| GameLoop.RequestScene | Assets/Scripts/RadioInteraction.cs:98-109 | with a manager the scene is requested through it; without one it is loaded directly |
| GameLoop.GameLoopManager.constructor | Assets/Scripts/GameLoopManager.cs:11-26 | a new game is on day 1 with no wins, refusals, interactions or monologues |
| GameLoop.GameLoopManager.RecordNpcInteraction | Assets/Scripts/GameLoopManager.cs:122-126 | the NPC count grows by one and nothing else changes |
| GameLoop.GameLoopManager.RecordMinigameVictory | Assets/Scripts/GameLoopManager.cs:128-138 | the win count grows by one and the current day joins the win days; a day counts as won exactly when it did before or is today |
| GameLoop.GameLoopManager.RecordRadioRefusal | Assets/Scripts/GameLoopManager.cs:140-149 | the current day joins the refusal days; a day counts as refused exactly when it did before or is today |
| GameLoop.GameLoopManager.MarkInteraction | Assets/Scripts/GameLoopManager.cs:152-166 | the NPC joins today's set; marking it twice changes nothing |
| GameLoop.GameLoopManager.AdvanceToNextDay | Assets/Scripts/GameLoopManager.cs:168-181 | before day 5 the day advances, today's NPC set is cleared and the town loads; on day 5 nothing changes, so the day stays in [1, 5] |
| GameLoop.GameLoopManager.SetMonologuePlayedForDay | Assets/Scripts/GameLoopManager.cs:188-200 | the last monologue day never decreases, and every day already played stays played |
| GameLoop.GameLoopManager.LoadScene | Assets/Scripts/GameLoopManager.cs:234-245 | the active scene becomes the previous one, loading is flagged and the scene is requested |
| GameLoop.GameLoopManager.OnSceneLoaded | Assets/Scripts/GameLoopManager.cs:89-96 | a loaded scene clears the loading flag and restores normal time |
| GameLoop.GameLoopManager.ResumeGame | Assets/Scripts/GameLoopManager.cs:108-111 | time runs at normal speed |
| GameLoop.GameLoopManager.ReturnToMainMenu | Assets/Scripts/GameLoopManager.cs:102-106 | time is resumed before the menu is requested |
| GameLoop.GameLoopManager.NewGame | Assets/Scripts/GameLoopManager.cs:247-257 | day 1, both counters 0 and all three sets empty, the last monologue day kept, and the town requested |
| PlayerInteractionModel.SelectClosest | Assets/Scripts/PlayerInteraction.cs:164-196 | nothing is chosen exactly when no hit is eligible; otherwise the choice is eligible, no farther than any eligible hit, and the earliest on a tie |
| PlayerInteractionModel.ClosestUnique | Assets/Scripts/PlayerInteraction.cs:186-193 | the strict comparison makes the closest eligible hit unique |
| PlayerInteractionModel.LastDayOnlyEnding | Assets/Scripts/PlayerInteraction.cs:274-284 | on the last day the chosen interactable is always the ending trigger |
| PlayerInteractionModel.PressNoFartherThanShown | Assets/Scripts/PlayerInteraction.cs:172-185 | the pressed interactable is never farther than the prompted one, and is the same one when its prompt is non-empty |
| PlayerInteractionModel.EmptyPromptStillPressed | Assets/Scripts/PlayerInteraction.cs:236-257 | a nearer interactable with an empty prompt is not prompted but is still the one a press uses |
| PlayerInteractionModel.PlayerInteraction.constructor | Assets/Scripts/PlayerInteraction.cs:44-48 | the prompt UI starts hidden |
| PlayerInteractionModel.PlayerInteraction.CheckForInteractable | Assets/Scripts/PlayerInteraction.cs:132-219 | loading shows "Loading..."; an open dialog hides the UI; otherwise the UI shows exactly when something is eligible, with the closest prompt plus " (E)" |
| PlayerInteractionModel.PlayerInteraction.OnInteractAction | Assets/Scripts/PlayerInteraction.cs:221-268 | nothing is used while loading; otherwise the closest eligible hit, empty prompts included |
| NpcDialogueModel.NpcDialogue.constructor | Assets/Scripts/NpcDialogue.cs:7-16 | the NPC keeps its flowchart, block name and action text |
| NpcDialogueModel.NpcDialogue.Start | Assets/Scripts/NpcDialogue.cs:18-24 | the NPC deactivates itself on the last day |
| NpcDialogueModel.NpcDialogue.ValidBlockName | Assets/Scripts/NpcDialogue.cs:67-111 | no block without a flowchart or name; the day block wins when not yet talked to today, then the base block; the result is always an existing block |
| NpcDialogueModel.NpcDialogue.TalkedNeverDayBlock | Assets/Scripts/NpcDialogue.cs:82-94 | once talked to today, the NPC never picks its day block |
| NpcDialogueModel.NpcDialogue.PromptAfterTalking | Assets/Scripts/NpcDialogue.cs:26-36 | once talked to today, the prompt is the action text exactly when the base block exists, since the day block no longer counts |
| NpcDialogueModel.NpcDialogue.PromptMeansBlock | Assets/Scripts/NpcDialogue.cs:26-36 | a non-empty action text is shown exactly when talking would run some block |
| NpcDialogueModel.NpcDialogue.Interact | Assets/Scripts/NpcDialogue.cs:38-65 | with a block and a player, that block runs, the NPC count grows and the base name is marked, which rules the day block out and leaves the prompt shown only if the base block exists; otherwise nothing changes |
| RadioModel.RadioInteraction.constructor | Assets/Scripts/RadioInteraction.cs:6-11 | the radio keeps its scene, prompt, flowchart and block name |
| RadioModel.RadioInteraction.Routing | Assets/Scripts/RadioInteraction.cs:34-70 | refused today: nothing; won today with "RadioWon": that block; else the day's radio block if it exists, else the minigame confirmation |
| RadioModel.RadioInteraction.RefusalSilencesRadio | Assets/Scripts/RadioInteraction.cs:14-24 | after a refusal today the prompt is empty and an interaction does nothing |
| RadioModel.RadioInteraction.PromptMatchesRouting | Assets/Scripts/RadioInteraction.cs:14-24 | a non-empty prompt disappears exactly when using the radio would do nothing |
| RadioModel.RadioInteraction.Interact | Assets/Scripts/RadioInteraction.cs:26-33 | a null player does nothing; otherwise the routed block runs or the minigame is requested |
| RadioModel.RadioInteraction.InteractRoutine | Assets/Scripts/RadioInteraction.cs:34-70 | exactly the routed outcome happens: nothing, one block executed, or the minigame scene requested |
| RadioModel.RadioInteraction.OnConfirm | Assets/Scripts/RadioInteraction.cs:73-76 | confirming requests the minigame scene |
| RadioModel.RadioInteraction.OnRefuse | Assets/Scripts/RadioInteraction.cs:79-86 | today is recorded as refused, after which the radio is silent |
| DailyMonologueModel.WonLastNight | Assets/Scripts/DailyMonologueTrigger.cs:59-61 | true exactly when there was a previous day and its minigame was won, so never on day 1 |
| DailyMonologueModel.DailyMonologueTrigger.constructor | Assets/Scripts/DailyMonologueTrigger.cs:7-12 | the trigger keeps its flowchart and block suffix |
| DailyMonologueModel.DailyMonologueTrigger.Start | Assets/Scripts/DailyMonologueTrigger.cs:14-77 | without a manager or when already played, nothing; otherwise the won flag is set first, and the day is marked played only when its block exists and runs |
| EndingModel.EndingTrigger.constructor | Assets/Scripts/EndingTrigger.cs:13-35 | a new trigger has not fired and shows no message |
| EndingModel.EndingTrigger.PromptPromisesFiring | Assets/Scripts/EndingTrigger.cs:37-89 | with a manager, a non-empty prompt is shown exactly when a press with a player would fire the trigger |
| EndingModel.EndingTrigger.PromptAndFiringDisagreeWithoutManager | Assets/Scripts/EndingTrigger.cs:37-89 | without a manager a restricted trigger shows no prompt yet still fires |
| EndingModel.EndingTrigger.Interact | Assets/Scripts/EndingTrigger.cs:61-89 | fires exactly once: after it has triggered every call does nothing and the prompt is empty |
| EndingModel.EndingTrigger.StartEndingSequence | Assets/Scripts/EndingTrigger.cs:91-120 | when the ending block exists it runs, after the win count and the hack flag (`CanHack`: at least two wins) are written into the flowchart if there is a manager; otherwise the flowchart is untouched |
| EndingModel.EndingTrigger.OnDestroyAntenna | Assets/Scripts/EndingTrigger.cs:124-129 | sets the Ending 1 message and lights the fire |
| EndingModel.EndingTrigger.OnImproveAntenna | Assets/Scripts/EndingTrigger.cs:133-139 | sets the Ending 2 message and starts the fireworks |
| EndingModel.EndingTrigger.OnLeaveAntenna | Assets/Scripts/EndingTrigger.cs:143-148 | sets the Ending 3 message |
| EndingModel.EndingTrigger.OnCelebrateAntenna | Assets/Scripts/EndingTrigger.cs:151-154 | sets the Ending 2 message and starts the fireworks |
| EndingModel.EndingTrigger.ShowCredits | Assets/Scripts/EndingTrigger.cs:158-173 | shows the credits panel if present and copies the message only when the panel and text exist |
| BedModel.BedInteraction.constructor | Assets/Scripts/BedInteraction.cs:6-11 | the bed keeps its prompts, flowchart and block name |
| BedModel.BedInteraction.SleepPrompt | Assets/Scripts/BedInteraction.cs:14-24 | after sleeping on the day before the last the bed shows its final-day prompt; after sleeping earlier it keeps the normal prompt; on the last day the final-day prompt stays |
| BedModel.BedInteraction.Interact | Assets/Scripts/BedInteraction.cs:31-52 | a null player does nothing; the confirm block runs if it exists, otherwise the player sleeps at once |
| BedModel.BedInteraction.OnConfirm | Assets/Scripts/BedInteraction.cs:55-58 | confirming sleeps |
| BedModel.BedInteraction.GoToSleep | Assets/Scripts/BedInteraction.cs:60-79 | before the last day the next day starts and the town loads; on the last day nothing changes; sleeping into the last day switches the prompt to the final-day one |
| SceneTransitionModel.SceneTransitionInteractable.constructor | Assets/Scripts/SceneTransitionInteractable.cs:7-15 | the door keeps its target, prompt, flowchart, block and confirmation flag |
| SceneTransitionModel.SceneTransitionInteractable.Interact | Assets/Scripts/SceneTransitionInteractable.cs:22-45 | a null player does nothing; the confirmation block runs only when required and present; otherwise the target is requested |
| SceneTransitionModel.SceneTransitionInteractable.OnConfirm | Assets/Scripts/SceneTransitionInteractable.cs:48-51 | confirming requests the target scene |
| SceneTransitionModel.SceneTransitionInteractable.TransitionToScene | Assets/Scripts/SceneTransitionInteractable.cs:53-66 | the target is requested through the manager, or loaded directly without one |
| SceneSpawnModel.FirstUsableFrom | Assets/Scripts/SceneSpawnManager.cs:46-52 | a found entry lies in the searched range |
| SceneSpawnModel.FirstUsableIsEarliest | Assets/Scripts/SceneSpawnManager.cs:46-52 | the found entry matches the scene and has a transform, and no earlier entry does; none found means no entry does |
| SceneSpawnModel.Player.constructor | Assets/Scripts/SceneSpawnManager.cs:63-76 | a spawned player starts at rest at the given position |
| SceneSpawnModel.SceneSpawnManager.constructor | Assets/Scripts/SceneSpawnManager.cs:14-18 | the manager keeps its prefab, default point and spawn list |
| SceneSpawnModel.SceneSpawnManager.SpawnTargetIsFirstUsable | Assets/Scripts/SceneSpawnManager.cs:38-54 | the target is the default without a previous scene or a usable entry, else the first usable entry's transform |
| SceneSpawnModel.SceneSpawnManager.FindSpawnPoint | Assets/Scripts/SceneSpawnManager.cs:38-54 | the search loop with its early exit finds the spawn target |
| SceneSpawnModel.SceneSpawnManager.SpawnOrPositionPlayer | Assets/Scripts/SceneSpawnManager.cs:32-89 | no target: nothing spawned or moved; an existing player is repositioned; otherwise a new player tagged "Player" appears at rest at the target |
| SceneSpawnModel.SceneSpawnManager.PositionExistingPlayer | Assets/Scripts/SceneSpawnManager.cs:91-112 | the player takes the target's position and rotation, with both velocities zeroed when it has a rigidbody |
| PauseMenuModel.PauseMenuSlot.constructor | Assets/Scripts/UI/PauseMenuController.cs:12 | the singleton slot starts empty |
| PauseMenuModel.PauseMenuController.constructor | Assets/Scripts/UI/PauseMenuController.cs:16-18 | a new menu is not paused |
| PauseMenuModel.PauseMenuController.Awake | Assets/Scripts/UI/PauseMenuController.cs:20-59 | the first instance takes the slot, persists and hides its panel; a duplicate is destroyed and the slot keeps the first |
| PauseMenuModel.PauseMenuController.OnDestroy | Assets/Scripts/UI/PauseMenuController.cs:61-68 | the slot is cleared only when it holds this instance |
| PauseMenuModel.ToggleTwiceRestores | Assets/Scripts/UI/PauseMenuController.cs:73-115 | a toggle flips the paused flag and leaves a settled menu; from a settled menu (panel set, time 0 or 1, stopped and panel shown exactly when paused) two toggles restore the first state |
| PauseMenuModel.PauseMenuController.TogglePause | Assets/Scripts/UI/PauseMenuController.cs:73-83 | follows the toggle step: resuming gives time scale 1 and hides the panel if set, pausing shows the panel and stops time; time is stopped exactly when paused |
| PauseMenuModel.PauseMenuController.Pause | Assets/Scripts/UI/PauseMenuController.cs:88-102 | paused, panel shown (the menu's own object when none was set), time scale 0 |
| PauseMenuModel.PauseMenuController.Resume | Assets/Scripts/UI/PauseMenuController.cs:107-115 | not paused, panel hidden if set, time scale 1 |
| PauseMenuModel.PauseMenuController.ReturnToMainMenu | Assets/Scripts/UI/PauseMenuController.cs:120-131 | resumes before requesting the menu, through the manager or directly without one |
| CameraFollowModel.DeadZone | Assets/Scripts/CameraFollow.cs:56-75 | inside the range the camera coordinate stays; outside it ends exactly `range` short of the desired one, never farther from it than before |
| CameraFollowModel.TargetPosition | Assets/Scripts/CameraFollow.cs:53-79 | x stays, y follows the vertical dead zone, z follows the horizontal dead zone clamped to [minZ, maxZ] |
| CameraFollowModel.StillInsideDeadZone | Assets/Scripts/CameraFollow.cs:56-79 | a followed object inside both dead zones leaves the target where the camera is |
| CameraFollowModel.CameraFollow.constructor | Assets/Scripts/CameraFollow.cs:5-28 | the camera starts at rest with auto-find off |
| CameraFollowModel.CameraFollow.Start | Assets/Scripts/CameraFollow.cs:30-38 | without a target the camera looks for the player and turns auto-find on |
| CameraFollowModel.CameraFollow.LateUpdate | Assets/Scripts/CameraFollow.cs:40-82 | with no target the camera does not move; otherwise it smooth-damps toward the dead-zone target |
| CameraFollowModel.CameraFollow.SetTarget | Assets/Scripts/CameraFollow.cs:97-101 | sets the target and turns auto-find off |
| MusicModel.SceneMusicMapLookup | Assets/Scripts/MusicManager.cs:43-50 | a scene is mapped exactly when some entry names it with a clip, and it maps to the last such entry's clip |
| MusicModel.BuildSceneMusicMap | Assets/Scripts/MusicManager.cs:43-50 | the loop builds the scene-to-clip map |
| MusicModel.MusicSource.constructor | Assets/Scripts/MusicManager.cs:52-59 | a source starts silent, stopped and looping |
| MusicModel.MusicManager.constructor | Assets/Scripts/MusicManager.cs:41-68 | the map is built and two distinct sources start at volume 0 |
| MusicModel.MusicManager.PlayMusicForScene | Assets/Scripts/MusicManager.cs:83-98 | a crossfade starts only for a mapped scene whose clip differs from the current one; otherwise nothing changes |
| MusicModel.MusicManager.CrossFadeMusic | Assets/Scripts/MusicManager.cs:100-126 | the two volumes sum to the maximum at every step; at the end the old source is stopped at 0, the new one is at the maximum, and the sources swap |

## Left out

- `WaveRendering.WaveRenderer.constructor` promises the number of line positions but not their contents, which
  come from the line renderer asset; the model starts them at the origin and the first Render overwrites them all.
- Rendering, UI layout, text formatting and colours are not modelled. The match text's "F1" percentage is a
  three-band enum (green, yellow, red). The day label, instruction and prompt texts are modelled as strings.
- UI references are assumed wired. The minigame's sliders, buttons, texts and panels and the radio's, bed's and
  door's UI are not null-checked. The null checks that decide behaviour are modelled as flags: renderers, audio,
  flowcharts, the interaction UI, the prompt text, the credits panel and the status text.
- `WaveGame.WaveGameManager.SetLevel`: setting the sliders' values in `SetupLevel` fires their change
  callbacks in Unity. The model does not replay those callbacks.
- `matchThreshold` is a serialized field that an inspector could override. The model fixes it at 0.9.
- The win message's typewriter and blink animation (`ConsoleEffect`) is not modelled.
- Audio threading, `AudioSource.Play`/`Stop` and `AudioSettings` are not modelled. The output sample rate is a
  positive constructor parameter. `IncrementsWithinTurn` assumes a rate of at least 1428 Hz; every real output
  rate is far above that.
- `AudioFeedback.FillBuffer`: the phases are written back once at the end of the buffer rather than after each
  frame. Nothing reads them in between, so no observable behaviour changes.
- `WaveRendering.WaveRenderer.Render` requires at least two points. With fewer the C# divides by zero, a float
  effect the model does not represent.
- `Mathf.PerlinNoise` is a parameter. Its range [0, 1] is assumed only in the lemmas that bound the noise.
- `WaveGame.LevelTemplate` covers template levels 1-4 only. The C# `default` case cannot be reached because
  the level is clamped first.
- Fades and crossfades are assumed not to overlap. The model has no concurrent coroutines: a second
  `FadeOutSignals` or crossfade started during the first is not represented.
- Every `Time.deltaTime` is assumed non-negative wherever a fade or crossfade proof uses frame times.
- `GameLoop.CalculateEnding` does not model the fallback branch's debug log.
- Debug logs are not modelled, nor are `GameLoopManager.QuitGame`, its Escape-key handling in `Update`, or its
  own singleton `Awake`.
- The physics overlap query in `PlayerInteraction` is replaced by its result: a sequence of hits, each an
  interactable with its kind, prompt and squared distance, or a collider without one.
- Finding the interaction UI and the flowchart by name, and the input-system wiring, are not modelled.
- Walking up to an interactable, which disables the CharacterController and rotates the player before calling
  `Interact`, is not modelled. Routines that wait for this run their decision immediately.
- `CameraFollowModel.CameraFollow.LateUpdate`: `Vector3.SmoothDamp` is a parameter. The model passes it
  `followSpeed` rather than the `1/followSpeed` smoothing time the C# computes, because the parameter's meaning
  is left open.
- Finding the player by tag in `CameraFollow` and `SceneSpawnManager` is a parameter of the operation.
- The music manager's own singleton handling (`Awake` destroying duplicates, `OnDestroy`) and the scene-loaded
  callback that calls `PlayMusicForScene` are not modelled. Clips are opaque identifiers; the audio mixer group
  is not modelled.
- `MusicModel.MusicManager.CrossFadeMusic` does not track the `loop` flag of the sources after the swap.
- `SceneTransitionInteractable.InteractionPrompt` is the constant `promptText` field, so it has no member of its
  own.
- `PauseMenuModel.PauseMenuController.ReturnToMainMenu` assumes the manager and the pause menu act on the same
  engine. Opening the pause menu from the game loop's Escape handler is not modelled.
- `PlayerControl` (movement, rigidbody physics, raycasts, input actions), the minigame scene builder, the grid
  overlay, the settings and main menus, the day display, the console effect, the character animator and the
  Fungus initialiser are not part of this model.
