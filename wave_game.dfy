/**
 * The wave-matching minigame: a level table, the parameter handlers that rescore the player's
 * wave, the win (stop audio, record the victory, lock the controls, return after 4 seconds) and
 * the exit. The Unity UI widgets are values in `ui`; Invoke timers are `pendingReturns`.
 */
module WaveGame {
  import opened Mathf
  import opened Scene
  import opened Waves
  import opened MatchScoring
  import opened WaveRendering
  import opened GameLoop
  import opened FrameTime
  import Audio = AudioFeedback

  const MatchThreshold: real := 0.9
  const YellowThreshold: real := 0.7
  const BaseNoiseStrength: real := 0.05
  const NoiseStepPerLevel: real := 4.75
  const ReturnDelay: real := 4.0
  const SignalFadeDuration: real := 1.0
  const NightSceneName: string := "Night1"
  const WinMessage: string := "SIGNAL LOCKED // UPLINK ESTABLISHED"
  const FrequencySliderMin: real := 0.5
  const FrequencySliderMax: real := 10.0
  const AmplitudeSliderMin: real := 0.1
  const AmplitudeSliderMax: real := 2.0

  /** Every level starts the player here. */
  const InitialPlayerWave: WaveData := WaveData(1.0, 0.5, Sine, 0.0)

  /** The template table only knows levels 1 to 4. */
  function TemplateLevel(level: int): (t: int)
    ensures 1 <= t <= 4
    ensures 1 <= level <= 4 ==> t == level
    ensures level < 1 ==> t == 1
    ensures level > 4 ==> t == 4
  {
    ClampInt(level, 1, 4)
  }

  /**
   * The template of each table level. Every template has positive magnitudes, so it is a valid
   * score target, and lies inside the slider ranges, so it can be matched exactly.
   */
  function LevelTemplate(templateLevel: int): (w: WaveData)
    requires 1 <= templateLevel <= 4
    ensures w.frequency > 0.0 && w.amplitude > 0.0
    ensures FrequencySliderMin <= w.frequency <= FrequencySliderMax
    ensures AmplitudeSliderMin <= w.amplitude <= AmplitudeSliderMax
    ensures w.waveType == (if templateLevel % 2 == 1 then Sine else Square)
  {
    if templateLevel == 1 then MakeWave(2.0, 1.0, Sine, 0.0)
    else if templateLevel == 2 then MakeWave(3.0, 1.2, Square, 0.0)
    else if templateLevel == 3 then MakeWave(5.0, 0.8, Sine, PI / 4.0)
    else MakeWave(4.5, 1.5, Square, PI / 6.0)
  }

  /** The waveform selector is hidden on the first table level only. */
  predicate SelectorShown(templateLevel: int)
  {
    templateLevel != 1
  }

  /** The instruction texts the minigame can show; Blank is the text widget's empty default. */
  datatype Hint = Blank | MatchSine | MatchSquare | TryCombinations | FinalChallenge

  function HintText(h: Hint): string
  {
    match h
    case Blank => ""
    case MatchSine => "Match the sine wave using Frequency and Amplitude controls. You have to get a match of over 90%"
    case MatchSquare => "Match the square wave using Waveform, Frequency and Amplitude"
    case TryCombinations => "Match the wave - try different combinations!"
    case FinalChallenge => "Final challenge - match the complex square wave!"
  }

  /** The instruction of each table level; the selector and the instruction agree on level 1. */
  function Instruction(templateLevel: int): (h: Hint)
    requires 1 <= templateLevel <= 4
    ensures h != Blank
    ensures h == MatchSine <==> !SelectorShown(templateLevel)
  {
    if templateLevel == 1 then MatchSine
    else if templateLevel == 2 then MatchSquare
    else if templateLevel == 3 then TryCombinations
    else FinalChallenge
  }

  /** The noise multiplier, from the raw level: 1 at level 1, growing by 4.75 per level. */
  function NoiseMultiplier(level: int): real
  {
    1.0 + ((level - 1) as real) * NoiseStepPerLevel
  }

  function NoiseStrength(level: int): real
  {
    BaseNoiseStrength * NoiseMultiplier(level)
  }

  /** The level label, from the raw level. */
  function DayLabel(level: int): string
  {
    "Day " + IntToString(level)
  }

  /** The colour of the match text. */
  datatype MatchBand = Unscored | Green | Yellow | Red

  function Band(score: real): MatchBand
  {
    if score >= MatchThreshold then Green else if score >= YellowThreshold then Yellow else Red
  }

  /** A Unity slider: its range, value and whether it accepts input. */
  datatype Slider = Slider(minValue: real, maxValue: real, value: real, interactable: bool)

  const DefaultSlider: Slider := Slider(0.0, 1.0, 0.0, true)

  /** The minigame's widgets. */
  datatype Controls = Controls(
    levelText: string, instruction: Hint, instructionVisible: bool,
    selectorActive: bool, sineButtonInteractable: bool, squareButtonInteractable: bool,
    frequencySlider: Slider, amplitudeSlider: Slider,
    matchBand: MatchBand, winPanelVisible: bool, winMessageVisible: bool, winMessage: string)

  const InitialControls: Controls :=
    Controls("", Blank, true, true, true, true, DefaultSlider, DefaultSlider, Unscored, false, false, "")

  /** The widgets after a win: instruction hidden, win panel and message shown, editing controls locked. */
  function AfterWin(c: Controls): Controls
  {
    c.(instructionVisible := false, winPanelVisible := true, winMessageVisible := true, winMessage := WinMessage,
       frequencySlider := c.frequencySlider.(interactable := false),
       amplitudeSlider := c.amplitudeSlider.(interactable := false),
       selectorActive := false)
  }

  /** The Invoke timers still pending after dt seconds: each loses dt, and those reaching 0 fire. */
  function StillPending(remaining: seq<real>, dt: real): (rest: seq<real>)
    ensures |rest| <= |remaining|
    ensures forall k :: 0 <= k < |rest| ==> rest[k] > 0.0
  {
    if remaining == [] then []
    else
      var last := remaining[|remaining| - 1] - dt;
      StillPending(remaining[..|remaining| - 1], dt) + (if last > 0.0 then [last] else [])
  }

  /** n copies of a scene request. */
  function Repeat(name: string, n: nat): (r: seq<string>)
    ensures |r| == n && forall k :: 0 <= k < n ==> r[k] == name
  {
    if n == 0 then [] else Repeat(name, n - 1) + [name]
  }

  /** The player's starting wave scores 0 at every level, so no level is won before a control is touched. */
  lemma InitialWaveScoresZero(templateLevel: int)
    requires 1 <= templateLevel <= 4
    ensures CalculateMatchScore(InitialPlayerWave, LevelTemplate(templateLevel)) == 0.0
  {
    var t := LevelTemplate(templateLevel);
    if templateLevel == 1 {
      assert PartScore(1.0, 2.0) == 0.0;
      assert PartScore(0.5, 1.0) == 0.0;
    } else if templateLevel == 3 {
      assert PartScore(1.0, 5.0) == 0.0;
      assert PartScore(0.5, 0.8) == 0.0;
    }
  }

  /** Every level is winnable: setting both sliders to the template's values scores 1. */
  lemma EveryLevelWinnable(templateLevel: int)
    requires 1 <= templateLevel <= 4
    ensures var t := LevelTemplate(templateLevel);
      CalculateMatchScore(InitialPlayerWave.(frequency := t.frequency, amplitude := t.amplitude, waveType := t.waveType), t) == 1.0
  {
    var t := LevelTemplate(templateLevel);
    ScoreOneIffExact(InitialPlayerWave.(frequency := t.frequency, amplitude := t.amplitude, waveType := t.waveType), t);
  }

  /**
   * Template and noise come from different levels: the template from the clamped level, the noise
   * from the raw one. Beyond level 4 the template stays the level-4 one while the noise keeps
   * growing; the noise is 0.05 at level 1 and 20 times that at level 5.
   */
  lemma LevelTableUsesRawLevelForNoise(level: int, higher: int)
    requires 4 <= level < higher
    ensures LevelTemplate(TemplateLevel(level)) == LevelTemplate(TemplateLevel(higher)) == LevelTemplate(4)
    ensures NoiseStrength(level) < NoiseStrength(higher)
    ensures NoiseStrength(1) == BaseNoiseStrength && NoiseStrength(5) == 20.0 * BaseNoiseStrength
  {
  }

  /** How many of the Invoke timers fire when dt seconds pass. */
  function Fired(remaining: seq<real>, dt: real): (n: nat)
    ensures n <= |remaining|
  {
    if remaining == [] then 0
    else Fired(remaining[..|remaining| - 1], dt) + (if remaining[|remaining| - 1] - dt > 0.0 then 0 else 1)
  }

  /**
   * Every timer either fires or stays pending, none lost and none duplicated; when dt covers
   * every timer all of them fire, and when it covers none all of them wait.
   */
  lemma {:induction false} TimersFireOrWait(remaining: seq<real>, dt: real)
    ensures Fired(remaining, dt) + |StillPending(remaining, dt)| == |remaining|
    ensures (forall k :: 0 <= k < |remaining| ==> remaining[k] <= dt) ==>
              Fired(remaining, dt) == |remaining| && StillPending(remaining, dt) == []
    ensures (forall k :: 0 <= k < |remaining| ==> remaining[k] > dt) ==> Fired(remaining, dt) == 0
  {
    if remaining != [] {
      var init := remaining[..|remaining| - 1];
      TimersFireOrWait(init, dt);
      assert forall k :: 0 <= k < |init| ==> init[k] == remaining[k];
    }
  }

  /** The return scheduled by a win fires once a frame of ReturnDelay seconds or more has passed. */
  lemma ReturnFiresAfterDelay(dt: real)
    requires dt >= ReturnDelay
    ensures Fired([ReturnDelay], dt) == 1 && StillPending([ReturnDelay], dt) == []
  {
    TimersFireOrWait([ReturnDelay], dt);
  }

  /** The alpha of the signal fade once `elapsed` seconds of `duration` have passed. */
  function FadeAlpha(elapsed: real, duration: real): (alpha: real)
    requires duration > 0.0
    ensures 0.0 <= alpha <= 1.0
    ensures elapsed <= 0.0 ==> alpha == 1.0
  {
    assert elapsed <= 0.0 ==> elapsed / duration <= 0.0;
    Lerp(1.0, 0.0, elapsed / duration)
  }

  /** The fade never brightens as time passes, and is fully transparent once the duration is reached. */
  lemma FadeAlphaMonotone(e1: real, e2: real, duration: real)
    requires duration > 0.0 && e1 <= e2
    ensures FadeAlpha(e1, duration) >= FadeAlpha(e2, duration)
    ensures e2 >= duration ==> FadeAlpha(e2, duration) == 0.0
  {
    var t1 := e1 / duration;
    var t2 := e2 / duration;
    assert t2 - t1 == (e2 - e1) / duration;
    assert t1 <= t2;
    if e2 >= duration {
      RatioAtLeastOne(e2, duration);
    }
  }

  /** With non-negative frame times the alphas the fade produces, frame by frame, never increase. */
  lemma FadeNonIncreasing(deltas: seq<real>, duration: real, i: nat, j: nat)
    requires duration > 0.0 && i <= j <= |deltas|
    requires forall k :: 0 <= k < |deltas| ==> deltas[k] >= 0.0
    ensures FadeAlpha(Elapsed(deltas, i), duration) >= FadeAlpha(Elapsed(deltas, j), duration)
  {
    ElapsedMonotone(deltas, i, j);
    FadeAlphaMonotone(Elapsed(deltas, i), Elapsed(deltas, j), duration);
  }

  /** The times of a gradient's alpha keys. */
  function KeyTimes(keys: seq<AlphaKey>): (times: seq<real>)
    ensures |times| == |keys| && forall k :: 0 <= k < |keys| ==> times[k] == keys[k].time
  {
    seq(|keys|, k requires 0 <= k < |keys| => keys[k].time)
  }

  /** Alpha keys at the given times, all carrying `alpha`. */
  function KeysAt(times: seq<real>, alpha: real): (keys: seq<AlphaKey>)
    ensures |keys| == |times| && forall k :: 0 <= k < |times| ==> keys[k] == AlphaKey(alpha, times[k])
  {
    seq(|times|, k requires 0 <= k < |times| => AlphaKey(alpha, times[k]))
  }

  /** The line's width is the captured baseline times `alpha`. */
  predicate WidthAt(r: WaveRenderer, alpha: real)
    reads r
  {
    r.widthMultiplier == r.initialWidthMultiplier * alpha
  }

  /** Setting every key's alpha keeps the key times. */
  lemma KeyTimesOfKeysAt(times: seq<real>, alpha: real)
    ensures KeyTimes(KeysAt(times, alpha)) == times
  {
  }

  /**
   * One SetFade, or several, relative to the renderer's state before the first: every alpha key
   * carries `alpha` at its old time, and the line's points and noise are untouched.
   */
  twostate predicate FadedTo(r: WaveRenderer, alpha: real)
    reads r
  {
    && r.alphaKeys == KeysAt(KeyTimes(old(r.alphaKeys)), alpha)
    && r.highFreqNoiseStrength == old(r.highFreqNoiseStrength) && r.positions == old(r.positions)
  }

  /** The renderer's interference strength is set and nothing else of it changes. */
  twostate predicate NoiseSetTo(r: WaveRenderer, strength: real)
    reads r
  {
    && r.highFreqNoiseStrength == strength
    && r.positions == old(r.positions) && r.widthMultiplier == old(r.widthMultiplier)
    && r.alphaKeys == old(r.alphaKeys) && r.initialWidthMultiplier == old(r.initialWidthMultiplier)
  }

  class WaveGameManager {
    const engine: Engine
    const templateRenderer: WaveRenderer?
    const playerRenderer: WaveRenderer?
    const audio: Audio.AudioFeedbackGenerator?
    var currentLevel: int
    var templateWave: WaveData
    var playerWave: WaveData
    var ui: Controls
    /** The score of the last CheckMatch, which the match text shows. */
    var matchScore: real
    /** How many FadeOutSignals coroutines have been started. */
    var signalFadesStarted: nat
    /** Remaining seconds of each scheduled ReturnToNight call. */
    var pendingReturns: seq<real>

    /** The scene component before Start: level 1, default waves, default widgets, nothing scheduled. */
    constructor (engine: Engine, templateRenderer: WaveRenderer?, playerRenderer: WaveRenderer?,
                 audio: Audio.AudioFeedbackGenerator?)
      requires templateRenderer != null && playerRenderer != null ==> templateRenderer != playerRenderer
      ensures this.engine == engine && this.templateRenderer == templateRenderer
      ensures this.playerRenderer == playerRenderer && this.audio == audio
      ensures currentLevel == 1 && templateWave == DefaultWave && playerWave == DefaultWave
      ensures ui == InitialControls && matchScore == 0.0 && signalFadesStarted == 0 && pendingReturns == []
      ensures DistinctRenderers()
    {
      this.engine := engine;
      this.templateRenderer := templateRenderer;
      this.playerRenderer := playerRenderer;
      this.audio := audio;
      currentLevel := 1;
      templateWave := DefaultWave;
      playerWave := DefaultWave;
      ui := InitialControls;
      matchScore := 0.0;
      signalFadesStarted := 0;
      pendingReturns := [];
    }

    /** The two traces are drawn by two different renderers. */
    predicate DistinctRenderers()
    {
      templateRenderer != null && playerRenderer != null ==> templateRenderer != playerRenderer
    }

    /** A level is set up: the template is a valid score target. */
    predicate Ready()
      reads this
    {
      templateWave.frequency != 0.0 && templateWave.amplitude != 0.0
    }

    /**
     * SetupLevel: template, selector and instruction from the clamped level, label and noise
     * strength from the raw level, the player back at the initial wave, slider ranges set and
     * values moved to the player's wave. Slider interactability and everything else are kept.
     */
    method SetupLevel(level: int)
      requires DistinctRenderers()
      modifies this, templateRenderer, playerRenderer
      ensures LevelShown(level, old(ui))
      ensures templateRenderer != null ==> NoiseSetTo(templateRenderer, NoiseStrength(level))
      ensures playerRenderer != null ==> NoiseSetTo(playerRenderer, NoiseStrength(level))
      ensures Ready()
      ensures currentLevel == old(currentLevel) && matchScore == old(matchScore)
      ensures signalFadesStarted == old(signalFadesStarted) && pendingReturns == old(pendingReturns)
    {
      var templateLevel := TemplateLevel(level);
      var levelText := DayLabel(level);
      templateWave := LevelTemplate(templateLevel);
      var selectorActive := SelectorShown(templateLevel);
      playerWave := MakeWave(1.0, 0.5, Sine, 0.0);

      var frequencySlider := ui.frequencySlider.(minValue := FrequencySliderMin, maxValue := FrequencySliderMax,
                                                  value := playerWave.frequency);
      var amplitudeSlider := ui.amplitudeSlider.(minValue := AmplitudeSliderMin, maxValue := AmplitudeSliderMax,
                                                  value := playerWave.amplitude);
      ui := ui.(levelText := levelText, instruction := Instruction(templateLevel), selectorActive := selectorActive,
                frequencySlider := frequencySlider, amplitudeSlider := amplitudeSlider);
      assert LevelShown(level, old(ui));
      ApplyNoiseStrength(NoiseStrength(level));
    }

    /**
     * The level's waves and widgets, from widgets that were `before`: the template of the clamped
     * level, the player at the initial wave, label from the raw level, selector and instruction
     * from the clamped one, slider ranges set and values at the player's wave.
     */
    predicate LevelShown(level: int, before: Controls)
      reads this
    {
      && templateWave == LevelTemplate(TemplateLevel(level)) && playerWave == InitialPlayerWave
      && ui == before.(levelText := DayLabel(level), instruction := Instruction(TemplateLevel(level)),
                       selectorActive := SelectorShown(TemplateLevel(level)),
                       frequencySlider := before.frequencySlider.(minValue := FrequencySliderMin,
                                            maxValue := FrequencySliderMax, value := InitialPlayerWave.frequency),
                       amplitudeSlider := before.amplitudeSlider.(minValue := AmplitudeSliderMin,
                                            maxValue := AmplitudeSliderMax, value := InitialPlayerWave.amplitude))
    }

    /** Both renderers, where present, get the same interference strength. */
    method ApplyNoiseStrength(strength: real)
      requires DistinctRenderers()
      modifies templateRenderer, playerRenderer
      ensures templateRenderer != null ==> NoiseSetTo(templateRenderer, strength)
      ensures playerRenderer != null ==> NoiseSetTo(playerRenderer, strength)
    {
      if templateRenderer != null {
        templateRenderer.SetHighFreqNoiseStrength(strength);
      }
      if playerRenderer != null {
        playerRenderer.SetHighFreqNoiseStrength(strength);
      }
    }

    /** The pressed wave-type button is disabled and the other enabled: exactly one accepts input. */
    method UpdateButtonStates(selectedType: WaveType)
      modifies this
      ensures ui == old(ui).(sineButtonInteractable := selectedType != Sine,
                             squareButtonInteractable := selectedType != Square)
      ensures ui.sineButtonInteractable != ui.squareButtonInteractable
      ensures currentLevel == old(currentLevel) && templateWave == old(templateWave) && playerWave == old(playerWave)
      ensures matchScore == old(matchScore) && signalFadesStarted == old(signalFadesStarted)
      ensures pendingReturns == old(pendingReturns)
    {
      ui := ui.(sineButtonInteractable := selectedType != Sine);
      ui := ui.(squareButtonInteractable := selectedType != Square);
    }

    /**
     * OnLevelComplete: stops the audio, shows the win widgets and locks the editing controls,
     * starts a signal fade, records one victory at once when there is a manager, and schedules a
     * return in 4 seconds. It has no guard: every call does all of this again.
     */
    method OnLevelComplete(gm: GameLoopManager?, deltaTime: real)
      modifies this, audio, gm
      ensures ui == AfterWin(old(ui))
      ensures signalFadesStarted == old(signalFadesStarted) + 1
      ensures pendingReturns == old(pendingReturns) + [ReturnDelay]
      ensures gm != null ==> Won(gm)
      ensures audio != null ==> Silenced(audio, deltaTime)
      ensures audio != null ==> audio.currentFrequency == old(audio.currentFrequency)
      ensures audio != null ==> audio.currentWobbleFrequency == old(audio.currentWobbleFrequency)
      ensures currentLevel == old(currentLevel) && templateWave == old(templateWave) && playerWave == old(playerWave)
      ensures matchScore == old(matchScore)
    {
      if audio != null {
        audio.StopAudio(deltaTime);
      }
      ui := ui.(instructionVisible := false);
      ui := ui.(winPanelVisible := true);
      ui := ui.(winMessageVisible := true, winMessage := WinMessage);
      signalFadesStarted := signalFadesStarted + 1;
      if gm != null {
        gm.RecordMinigameVictory();
      }
      ui := ui.(frequencySlider := ui.frequencySlider.(interactable := false));
      ui := ui.(amplitudeSlider := ui.amplitudeSlider.(interactable := false));
      ui := ui.(selectorActive := false);
      pendingReturns := pendingReturns + [ReturnDelay];
    }

    /**
     * The effect of one CheckMatch on widgets that were `before`: the score of the current waves
     * is kept for the match text, and the game is won exactly when the score reaches the
     * threshold; below it no victory is recorded and nothing is scheduled.
     */
    twostate predicate Rescored(gm: GameLoopManager?, deltaTime: real, before: Controls)
      reads this, audio, gm
    {
      && Ready()
      && matchScore == CalculateMatchScore(playerWave, templateWave)
      && (matchScore >= MatchThreshold ==> WinShown(gm, deltaTime, before))
      && (matchScore < MatchThreshold ==> MissShown(gm, before))
    }

    /** A win: green text, win widgets shown and controls locked, a fade and a return scheduled, one victory recorded. */
    twostate predicate WinShown(gm: GameLoopManager?, deltaTime: real, before: Controls)
      reads this, audio, gm
    {
      && ui == AfterWin(before.(matchBand := Green))
      && signalFadesStarted == old(signalFadesStarted) + 1
      && pendingReturns == old(pendingReturns) + [ReturnDelay]
      && (gm != null ==> Won(gm))
      && (audio != null ==> Silenced(audio, deltaTime))
    }

    /** No win: only the match text's colour changes; nothing is recorded, scheduled or silenced. */
    twostate predicate MissShown(gm: GameLoopManager?, before: Controls)
      reads this, audio, gm
    {
      && ui == before.(matchBand := Band(matchScore))
      && signalFadesStarted == old(signalFadesStarted)
      && pendingReturns == old(pendingReturns)
      && (gm != null ==> NotWon(gm))
      && (audio != null ==> audio.isPlaying == old(audio.isPlaying) && audio.fadeActive == old(audio.fadeActive))
    }

    /** CheckMatch: scores the player's wave, sends the score to the audio, colours the match text, wins at 0.9. */
    method CheckMatch(gm: GameLoopManager?, deltaTime: real)
      requires Ready()
      modifies this, audio, gm
      ensures Rescored(gm, deltaTime, old(ui))
      ensures audio != null ==> ScoreHeard(audio, matchScore)
      ensures currentLevel == old(currentLevel) && templateWave == old(templateWave) && playerWave == old(playerWave)
    {
      var score := CalculateMatchScore(playerWave, templateWave);
      ShowScore(score);
      if score >= MatchThreshold {
        OnLevelComplete(gm, deltaTime);
      }
    }

    /** The first half of CheckMatch: the audio follows the score, which is kept and colours the match text. */
    method ShowScore(score: real)
      modifies this, audio
      ensures matchScore == score && ui == old(ui).(matchBand := Band(score))
      ensures audio != null ==> ScoreHeard(audio, score)
      ensures audio != null ==>
        audio.isPlaying == old(audio.isPlaying) && audio.fadeActive == old(audio.fadeActive)
        && audio.fadeElapsed == old(audio.fadeElapsed)
      ensures currentLevel == old(currentLevel) && templateWave == old(templateWave) && playerWave == old(playerWave)
      ensures signalFadesStarted == old(signalFadesStarted) && pendingReturns == old(pendingReturns)
    {
      if audio != null {
        audio.UpdateFrequency(score);
      }
      matchScore := score;
      ui := ui.(matchBand := Band(score));
    }

    /** The frequency slider's handler: only the player's frequency changes, then the wave is rescored. */
    method OnFrequencyChanged(value: real, gm: GameLoopManager?, deltaTime: real)
      requires Ready()
      modifies this, audio, gm
      ensures playerWave == old(playerWave).(frequency := value)
      ensures Rescored(gm, deltaTime, old(ui))
      ensures audio != null ==> ScoreHeard(audio, matchScore)
      ensures currentLevel == old(currentLevel) && templateWave == old(templateWave)
    {
      playerWave := playerWave.(frequency := value);
      CheckMatch(gm, deltaTime);
    }

    /** The amplitude slider's handler: only the player's amplitude changes, then the wave is rescored. */
    method OnAmplitudeChanged(value: real, gm: GameLoopManager?, deltaTime: real)
      requires Ready()
      modifies this, audio, gm
      ensures playerWave == old(playerWave).(amplitude := value)
      ensures Rescored(gm, deltaTime, old(ui))
      ensures audio != null ==> ScoreHeard(audio, matchScore)
      ensures currentLevel == old(currentLevel) && templateWave == old(templateWave)
    {
      playerWave := playerWave.(amplitude := value);
      CheckMatch(gm, deltaTime);
    }

    /** A wave-type button's handler: the player's type changes, the buttons follow, the wave is rescored. */
    method OnWaveTypeChanged(waveType: WaveType, gm: GameLoopManager?, deltaTime: real)
      requires Ready()
      modifies this, audio, gm
      ensures playerWave == old(playerWave).(waveType := waveType)
      ensures Rescored(gm, deltaTime, old(ui).(sineButtonInteractable := waveType != Sine,
                                              squareButtonInteractable := waveType != Square))
      ensures audio != null ==> ScoreHeard(audio, matchScore)
      ensures ui.sineButtonInteractable == (waveType != Sine) && ui.squareButtonInteractable == (waveType != Square)
      ensures currentLevel == old(currentLevel) && templateWave == old(templateWave)
    {
      playerWave := playerWave.(waveType := waveType);
      UpdateButtonStates(waveType);
      CheckMatch(gm, deltaTime);
    }

    /** ReturnToNight: through the game loop when there is one, else the active scene is reloaded. */
    method ReturnToNight(gm: GameLoopManager?)
      modifies gm, engine
      ensures gm != null ==> gm.sceneRequests == old(gm.sceneRequests) + [NightSceneName]
      ensures gm != null ==> gm.isLoading && engine.directLoads == old(engine.directLoads)
      ensures gm == null ==> engine.directLoads == old(engine.directLoads) + [old(engine.activeScene)]
      ensures engine.activeScene == old(engine.activeScene)
      ensures gm != null ==> NotWonElsewhere(gm)
    {
      if gm != null {
        gm.LoadScene(NightSceneName);
      } else {
        engine.LoadScene(engine.activeScene);
      }
    }

    /**
     * One frame of Unity's Invoke scheduler: every pending return loses dt; those that run out
     * call ReturnToNight, in scheduling order, and the rest stay pending.
     */
    method AdvanceInvokes(gm: GameLoopManager?, dt: real)
      modifies this, gm, engine
      ensures pendingReturns == StillPending(old(pendingReturns), dt)
      ensures gm != null ==>
        gm.sceneRequests == old(gm.sceneRequests) + Repeat(NightSceneName, Fired(old(pendingReturns), dt))
      ensures gm != null ==> engine.directLoads == old(engine.directLoads) && NotWonElsewhere(gm)
      ensures gm == null ==>
        engine.directLoads == old(engine.directLoads) + Repeat(old(engine.activeScene), Fired(old(pendingReturns), dt))
      ensures engine.activeScene == old(engine.activeScene)
      ensures currentLevel == old(currentLevel) && templateWave == old(templateWave) && playerWave == old(playerWave)
      ensures ui == old(ui) && matchScore == old(matchScore) && signalFadesStarted == old(signalFadesStarted)
    {
      var timers := pendingReturns;
      var rest: seq<real> := [];
      var fired: nat := 0;
      var i := 0;
      while i < |timers|
        invariant 0 <= i <= |timers|
        invariant rest == StillPending(timers[..i], dt) && fired == Fired(timers[..i], dt)
        invariant gm != null ==> gm.sceneRequests == old(gm.sceneRequests) + Repeat(NightSceneName, fired)
        invariant gm != null ==> engine.directLoads == old(engine.directLoads) && NotWonElsewhere(gm)
        invariant gm == null ==> engine.directLoads == old(engine.directLoads) + Repeat(old(engine.activeScene), fired)
        invariant engine.activeScene == old(engine.activeScene)
        invariant currentLevel == old(currentLevel) && templateWave == old(templateWave) && playerWave == old(playerWave)
        invariant ui == old(ui) && matchScore == old(matchScore) && signalFadesStarted == old(signalFadesStarted)
      {
        assert timers[..i + 1][..i] == timers[..i];
        var left := timers[i] - dt;
        if left > 0.0 {
          rest := rest + [left];
        } else {
          ReturnToNight(gm);
          fired := fired + 1;
        }
        i := i + 1;
      }
      assert timers[..i] == timers;
      pendingReturns := rest;
    }

    /** SetLevel: pending returns are cancelled and the level is set up from the clamped level. */
    method SetLevel(level: int)
      requires DistinctRenderers()
      modifies this, templateRenderer, playerRenderer
      ensures pendingReturns == []
      ensures LevelShown(TemplateLevel(level), old(ui))
      ensures templateRenderer != null ==> NoiseSetTo(templateRenderer, NoiseStrength(TemplateLevel(level)))
      ensures playerRenderer != null ==> NoiseSetTo(playerRenderer, NoiseStrength(TemplateLevel(level)))
      ensures Ready()
      ensures currentLevel == old(currentLevel) && matchScore == old(matchScore)
      ensures signalFadesStarted == old(signalFadesStarted)
    {
      pendingReturns := [];
      SetupLevel(TemplateLevel(level));
    }

    /**
     * ExitMinigame: pending returns are cancelled and the audio stopped; with a game loop the
     * previous scene is loaded, or Night1 when none is recorded; without one nothing is loaded.
     * Leaving never records a victory.
     */
    method ExitMinigame(gm: GameLoopManager?, deltaTime: real)
      modifies this, audio, gm
      ensures pendingReturns == []
      ensures gm != null ==>
        gm.sceneRequests == old(gm.sceneRequests) + [if old(gm.previousSceneName) != "" then old(gm.previousSceneName) else NightSceneName]
      ensures gm != null ==> gm.isLoading && NotWonElsewhere(gm)
      ensures audio != null ==> Silenced(audio, deltaTime)
      ensures currentLevel == old(currentLevel) && templateWave == old(templateWave) && playerWave == old(playerWave)
      ensures ui == old(ui) && matchScore == old(matchScore) && signalFadesStarted == old(signalFadesStarted)
    {
      pendingReturns := [];
      if audio != null {
        audio.StopAudio(deltaTime);
      }
      if gm != null {
        var previousScene := gm.previousSceneName;
        if previousScene != "" {
          gm.LoadScene(previousScene);
        } else {
          gm.LoadScene(NightSceneName);
        }
      }
    }

    /**
     * Start: the level is the game loop's current day when there is one; the level is set up, the
     * sine button shown pressed and the initial wave scored, which never wins; then the audio starts.
     */
    method Start(gm: GameLoopManager?)
      requires DistinctRenderers()
      modifies this, templateRenderer, playerRenderer, audio, gm
      ensures Started(if gm != null then old(gm.currentDay) else old(currentLevel), old(ui),
                      old(signalFadesStarted), old(pendingReturns))
      ensures gm != null ==> NotWon(gm)
      ensures audio != null ==> audio.isPlaying && !audio.fadeActive
      ensures audio != null ==> audio.currentFrequency == Audio.MinFrequency
      ensures audio != null ==> audio.currentWobbleFrequency == Audio.MinWobbleFrequency
    {
      if gm != null {
        currentLevel := gm.currentDay;
      }
      SetupLevel(currentLevel);
      SetupUI(gm);
      StartFeedback();
    }

    /**
     * The state Start leaves: `level` is current and set up from widgets that were `before`, the
     * sine button is pressed, the initial wave scored 0 and the text is red; no fade or return
     * was added to those already counted.
     */
    predicate Started(level: int, before: Controls, fades: nat, scheduled: seq<real>)
      reads this
    {
      && currentLevel == level
      && LevelShown(level, before.(sineButtonInteractable := false, squareButtonInteractable := true, matchBand := Red))
      && Ready() && matchScore == 0.0
      && signalFadesStarted == fades && pendingReturns == scheduled
    }

    /**
     * SetupUI, after SetupLevel: the sine button is shown pressed and the initial wave is scored.
     * That score is 0 on every level, so the match text turns red and nothing is won.
     */
    method SetupUI(gm: GameLoopManager?)
      requires templateWave == LevelTemplate(TemplateLevel(currentLevel)) && playerWave == InitialPlayerWave
      modifies this, audio, gm
      ensures ui == old(ui).(sineButtonInteractable := false, squareButtonInteractable := true, matchBand := Red)
      ensures matchScore == 0.0
      ensures signalFadesStarted == old(signalFadesStarted) && pendingReturns == old(pendingReturns)
      ensures gm != null ==> NotWon(gm)
      ensures audio != null ==> audio.currentFrequency == Audio.MinFrequency
      ensures audio != null ==> audio.currentWobbleFrequency == Audio.MinWobbleFrequency
      ensures audio != null ==> audio.isPlaying == old(audio.isPlaying) && audio.fadeActive == old(audio.fadeActive)
      ensures currentLevel == old(currentLevel) && templateWave == old(templateWave) && playerWave == old(playerWave)
    {
      UpdateButtonStates(Sine);
      InitialWaveScoresZero(TemplateLevel(currentLevel));
      CheckMatch(gm, 0.0);
    }

    /** The audio feedback, where present, starts playing; its pitch is kept. */
    method StartFeedback()
      modifies audio
      ensures audio != null ==> audio.isPlaying && !audio.fadeActive
      ensures audio != null ==> audio.currentFrequency == old(audio.currentFrequency)
      ensures audio != null ==> audio.currentWobbleFrequency == old(audio.currentWobbleFrequency)
    {
      if audio != null {
        audio.StartAudio();
      }
    }

    /** Update: both traces are redrawn for the current time. */
    method Update(time: real, sin: real -> real, perlin: (real, real) -> real)
      requires DistinctRenderers()
      requires templateRenderer != null ==> templateRenderer.points >= 2
      requires playerRenderer != null ==> playerRenderer.points >= 2
      modifies templateRenderer, playerRenderer
      ensures templateRenderer != null ==> Drawn(templateRenderer, templateWave, time, sin, perlin)
      ensures playerRenderer != null ==> Drawn(playerRenderer, playerWave, time, sin, perlin)
    {
      if templateRenderer != null {
        templateRenderer.Render(templateWave, time, sin, perlin);
      }
      if playerRenderer != null {
        playerRenderer.Render(playerWave, time, sin, perlin);
      }
    }

    /** One step of the signal fade: both renderers, where present, take the same alpha. */
    method FadeBoth(alpha: real)
      requires DistinctRenderers()
      modifies templateRenderer, playerRenderer
      ensures templateRenderer != null ==> FadedTo(templateRenderer, alpha) && WidthAt(templateRenderer, alpha)
      ensures playerRenderer != null ==> FadedTo(playerRenderer, alpha) && WidthAt(playerRenderer, alpha)
    {
      if templateRenderer != null {
        templateRenderer.SetFade(alpha);
      }
      if playerRenderer != null {
        playerRenderer.SetFade(alpha);
      }
    }

    /**
     * FadeOutSignals over frames of the given durations: while less than `duration` has elapsed,
     * each frame adds its time and sets both renderers to Lerp(1, 0, elapsed / duration); when the
     * duration is reached the fade ends at 0. `finished` says whether the frames reached it.
     */
    method FadeOutSignals(duration: real, deltas: seq<real>) returns (alphas: seq<real>, finished: bool)
      requires duration > 0.0 && DistinctRenderers()
      modifies templateRenderer, playerRenderer
      ensures |alphas| <= |deltas|
      ensures forall k :: 0 <= k < |alphas| ==> alphas[k] == FadeAlpha(Elapsed(deltas, k + 1), duration)
      ensures forall k :: 0 <= k < |alphas| ==> Elapsed(deltas, k) < duration
      ensures finished <==> Elapsed(deltas, |alphas|) >= duration
      ensures !finished ==> |alphas| == |deltas|
      ensures deltas != [] ==> |alphas| > 0
      ensures |alphas| > 0 && templateRenderer != null ==>
        var last := if finished then 0.0 else alphas[|alphas| - 1];
        FadedTo(templateRenderer, last) && WidthAt(templateRenderer, last)
      ensures |alphas| > 0 && playerRenderer != null ==>
        var last := if finished then 0.0 else alphas[|alphas| - 1];
        FadedTo(playerRenderer, last) && WidthAt(playerRenderer, last)
      ensures |alphas| == 0 && templateRenderer != null ==> unchanged(templateRenderer)
      ensures |alphas| == 0 && playerRenderer != null ==> unchanged(playerRenderer)
    {
      var elapsed := 0.0;
      alphas := [];
      var k := 0;
      ghost var tTimes := if templateRenderer != null then KeyTimes(templateRenderer.alphaKeys) else [];
      ghost var pTimes := if playerRenderer != null then KeyTimes(playerRenderer.alphaKeys) else [];
      while k < |deltas| && elapsed < duration
        invariant 0 <= k <= |deltas| && |alphas| == k
        invariant elapsed == Elapsed(deltas, k)
        invariant forall j :: 0 <= j < k ==> alphas[j] == FadeAlpha(Elapsed(deltas, j + 1), duration)
        invariant forall j :: 0 <= j < k ==> Elapsed(deltas, j) < duration
        invariant templateRenderer != null ==> KeyTimes(templateRenderer.alphaKeys) == tTimes
        invariant playerRenderer != null ==> KeyTimes(playerRenderer.alphaKeys) == pTimes
        invariant templateRenderer != null ==> KeyTimes(old(templateRenderer.alphaKeys)) == tTimes
        invariant playerRenderer != null ==> KeyTimes(old(playerRenderer.alphaKeys)) == pTimes
        invariant k > 0 && templateRenderer != null ==> FadedTo(templateRenderer, alphas[k - 1])
        invariant k > 0 && playerRenderer != null ==> FadedTo(playerRenderer, alphas[k - 1])
        invariant k > 0 && templateRenderer != null ==> WidthAt(templateRenderer, alphas[k - 1])
        invariant k > 0 && playerRenderer != null ==> WidthAt(playerRenderer, alphas[k - 1])
        invariant k == 0 && templateRenderer != null ==> unchanged(templateRenderer)
        invariant k == 0 && playerRenderer != null ==> unchanged(playerRenderer)
      {
        elapsed := elapsed + deltas[k];
        var alpha := FadeAlpha(elapsed, duration);
        FadeBoth(alpha);
        KeyTimesOfKeysAt(tTimes, alpha);
        KeyTimesOfKeysAt(pTimes, alpha);
        alphas := alphas + [alpha];
        k := k + 1;
      }
      finished := elapsed >= duration;
      if finished {
        FadeBoth(0.0);
        KeyTimesOfKeysAt(tTimes, 0.0);
        KeyTimesOfKeysAt(pTimes, 0.0);
      }
    }
  }

  /** The score reached the audio: pitch and wobble follow it. */
  predicate ScoreHeard(a: Audio.AudioFeedbackGenerator, score: real)
    reads a
  {
    && a.currentFrequency == Lerp(Audio.MinFrequency, Audio.MaxFrequency, score)
    && a.currentWobbleFrequency == Lerp(Audio.MinWobbleFrequency, Audio.MaxWobbleFrequency, score)
  }

  /** StopAudio ran: a playing tone with no fade pending starts fading; otherwise its state is kept. */
  twostate predicate Silenced(a: Audio.AudioFeedbackGenerator, deltaTime: real)
    reads a
  {
    && (old(a.isPlaying) && !old(a.fadeActive) ==> a.fadeActive && a.fadeElapsed == deltaTime)
    && (!(old(a.isPlaying) && !old(a.fadeActive)) ==> a.fadeActive == old(a.fadeActive) && a.isPlaying == old(a.isPlaying))
  }

  /** One victory was recorded on the current day; the day and the other records are kept. */
  twostate predicate Won(gm: GameLoopManager)
    reads gm
  {
    && gm.waveMinigamesBeaten == old(gm.waveMinigamesBeaten) + 1
    && gm.daysWithMinigameWins == old(gm.daysWithMinigameWins) + {gm.currentDay}
    && gm.currentDay == old(gm.currentDay)
    && gm.sceneRequests == old(gm.sceneRequests)
  }

  /** No victory was recorded and the day is kept; scene requests are described separately. */
  twostate predicate NotWonElsewhere(gm: GameLoopManager)
    reads gm
  {
    && gm.waveMinigamesBeaten == old(gm.waveMinigamesBeaten)
    && gm.daysWithMinigameWins == old(gm.daysWithMinigameWins)
    && gm.currentDay == old(gm.currentDay)
  }

  /** The renderer's line was redrawn for `data`: point i is TracePoint(i), its other state kept. */
  twostate predicate Drawn(r: WaveRenderer, data: WaveData, time: real, sin: real -> real, perlin: (real, real) -> real)
    reads r
  {
    && r.points >= 2
    && |r.positions| == r.points
    && (forall i :: 0 <= i < r.points ==> r.positions[i] == TracePoint(i, r.points, r.width, r.Settings(), data, time, sin, perlin))
    && r.highFreqNoiseStrength == old(r.highFreqNoiseStrength) && r.widthMultiplier == old(r.widthMultiplier)
    && r.alphaKeys == old(r.alphaKeys) && r.initialWidthMultiplier == old(r.initialWidthMultiplier)
  }

  /** No victory was recorded and no scene was requested. */
  twostate predicate NotWon(gm: GameLoopManager)
    reads gm
  {
    && gm.waveMinigamesBeaten == old(gm.waveMinigamesBeaten)
    && gm.daysWithMinigameWins == old(gm.daysWithMinigameWins)
    && gm.currentDay == old(gm.currentDay)
    && gm.sceneRequests == old(gm.sceneRequests)
  }
}
