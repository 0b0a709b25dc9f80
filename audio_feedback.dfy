/**
 * The minigame's audio feedback: a tone whose pitch follows the match score, with two octave
 * voices, a slow wobble and white noise, filled into the engine's audio buffer.
 * Mathf.Sin is the parameter `sin` and System.Random's draws are the sequence `randoms`.
 */
module AudioFeedback {
  import opened Mathf

  const NoiseVolume: real := 0.1
  const SineVolume: real := 0.3
  const LowerOctaveVolume: real := 0.2
  const LowerOctaveMultiplier: real := 0.5
  const HigherOctaveVolume: real := 0.0
  const HigherOctaveMultiplier: real := 2.0
  const FadeOutDuration: real := 0.5
  const MinFrequency: real := 200.0
  const MaxFrequency: real := 700.0
  const MinWobbleFrequency: real := 2.0
  const MaxWobbleFrequency: real := 10.0
  const WobbleDepth: real := 0.02

  /** One accumulator update: add the increment, then subtract one full turn if the phase is past it. */
  function WrapStep(p: real, increment: real): real
  {
    if p + increment > TwoPI then p + increment - TwoPI else p + increment
  }

  /** The four phase accumulators of the generator. */
  datatype Phases = Phases(main: real, lower: real, higher: real, wobble: real)

  const ZeroPhases: Phases := Phases(0.0, 0.0, 0.0, 0.0)

  /** Every accumulator lies within one turn. */
  predicate WithinTurn(ph: Phases)
  {
    && 0.0 <= ph.main <= TwoPI && 0.0 <= ph.lower <= TwoPI
    && 0.0 <= ph.higher <= TwoPI && 0.0 <= ph.wobble <= TwoPI
  }

  /** The per-sample phase increments of one buffer, all computed from the state at its start. */
  datatype Increments = Increments(main: real, lower: real, higher: real, wobble: real)

  /** The accumulators after one sample. */
  function Step(ph: Phases, incs: Increments): Phases
  {
    Phases(WrapStep(ph.main, incs.main), WrapStep(ph.lower, incs.lower),
           WrapStep(ph.higher, incs.higher), WrapStep(ph.wobble, incs.wobble))
  }

  /** The accumulators after n samples with fixed increments. */
  function Advance(ph: Phases, incs: Increments, n: nat): Phases
  {
    if n == 0 then ph else Step(Advance(ph, incs, n - 1), incs)
  }

  /**
   * The phase invariant of the callback: when every accumulator starts within one turn and every
   * increment is at most one turn, every accumulator stays within [0, 2 * PI] after any number of samples.
   */
  lemma {:induction false} PhasesStayWrapped(ph: Phases, incs: Increments, n: nat)
    requires WithinTurn(ph)
    requires WithinTurn(Phases(incs.main, incs.lower, incs.higher, incs.wobble))
    ensures WithinTurn(Advance(ph, incs, n))
  {
    if n > 0 {
      PhasesStayWrapped(ph, incs, n - 1);
    }
  }

  function BufferIncrements(frequency: real, wobbleFrequency: real, wobblePhase: real, sampleRate: int, sin: real -> real): Increments
    requires sampleRate > 0
  {
    var wobble := sin(wobblePhase) * WobbleDepth;
    var wobbledFrequency := frequency * (1.0 + wobble);
    var rate := sampleRate as real;
    Increments(wobbledFrequency * 2.0 * PI / rate,
               (wobbledFrequency * LowerOctaveMultiplier) * 2.0 * PI / rate,
               (wobbledFrequency * HigherOctaveMultiplier) * 2.0 * PI / rate,
               wobbleFrequency * 2.0 * PI / rate)
  }

  /** Every increment is within one turn when the pitches stay in their ranges and the sample rate is at least 1428 Hz. */
  lemma IncrementsWithinTurn(frequency: real, wobbleFrequency: real, wobblePhase: real, sampleRate: int, sin: real -> real)
    requires MinFrequency <= frequency <= MaxFrequency
    requires MinWobbleFrequency <= wobbleFrequency <= MaxWobbleFrequency
    requires -1.0 <= sin(wobblePhase) <= 1.0
    requires sampleRate >= 1428
    ensures var incs := BufferIncrements(frequency, wobbleFrequency, wobblePhase, sampleRate, sin);
      WithinTurn(Phases(incs.main, incs.lower, incs.higher, incs.wobble))
  {
    var rate := sampleRate as real;
    var s := sin(wobblePhase);
    var wobbled := frequency * (1.0 + s * WobbleDepth);
    MulNonNegative(frequency, 1.0 - s);
    MulNonNegative(frequency, 1.0 + s);
    assert wobbled == frequency + 0.02 * (frequency * (1.0 + s)) - 0.02 * frequency;
    assert 0.0 <= wobbled <= 714.0;
    var incs := BufferIncrements(frequency, wobbleFrequency, wobblePhase, sampleRate, sin);
    assert incs.main == wobbled * 2.0 * PI / rate;
    assert incs.lower == (wobbled * LowerOctaveMultiplier) * 2.0 * PI / rate;
    assert incs.higher == (wobbled * HigherOctaveMultiplier) * 2.0 * PI / rate;
    assert incs.wobble == wobbleFrequency * 2.0 * PI / rate;
    TurnFraction(wobbled, rate);
    TurnFraction(wobbled * LowerOctaveMultiplier, rate);
    TurnFraction(wobbled * HigherOctaveMultiplier, rate);
    TurnFraction(wobbleFrequency, rate);
  }

  lemma DivAtMostOne(x: real, y: real)
    requires 0.0 <= x <= y && y > 0.0
    ensures 0.0 <= x / y <= 1.0
  {
    var q := x / y;
    assert q * y == x;
    assert (1.0 - q) * y == y - x;
  }

  /** A pitch no higher than the sample rate advances by at most one turn per sample. */
  lemma TurnFraction(f: real, rate: real)
    requires 0.0 <= f <= rate && rate > 0.0
    ensures 0.0 <= f * 2.0 * PI / rate <= TwoPI
  {
    var q := f / rate;
    DivAtMostOne(f, rate);
    assert f * 2.0 * PI / rate == q * TwoPI;
    MulNonNegative(q, TwoPI);
    MulNonNegative(1.0 - q, TwoPI);
  }

  /** The sample written to every channel of one frame. */
  function FrameSample(random: real, ph: Phases, volume: real, sin: real -> real): real
  {
    var noise := (random * 2.0 - 1.0) * NoiseVolume;
    var sine := sin(ph.main) * SineVolume;
    var lowerOctave := sin(ph.lower) * LowerOctaveVolume;
    var higherOctave := sin(ph.higher) * HigherOctaveVolume;
    (noise + sine + lowerOctave + higherOctave) * volume
  }

  /** Position of a channel of a frame in an interleaved buffer. */
  function Slot(frame: int, channel: int, channels: int): int
  {
    frame * channels + channel
  }

  lemma MulNonNegativeInt(x: int, y: int)
    requires x >= 0 && y >= 0
    ensures x * y >= 0
  {
  }

  /** Every slot of an earlier frame lies before the first slot of a later one. */
  lemma SlotBefore(f: int, c: int, g: int, channels: int)
    requires 0 <= f < g && 0 <= c < channels
    ensures Slot(f, c, channels) < Slot(g, 0, channels)
  {
    MulNonNegativeInt(g - f - 1, channels);
    assert g * channels - f * channels == (g - f - 1) * channels + channels;
  }

  /** A buffer whose first slot of frame f is still inside has frame f. */
  lemma FrameBelowCount(f: int, frames: int, channels: int)
    requires 0 <= f && 1 <= channels && 0 <= frames && f * channels < frames * channels
    ensures f < frames
  {
    if f >= frames {
      MulNonNegativeInt(f - frames, channels);
    }
  }

  /** Fills `channels` consecutive elements from `start` with one sample. */
  method FillFrame(data: array<real>, start: int, channels: int, sample: real)
    requires 0 <= start && 0 <= channels && start + channels <= data.Length
    modifies data
    ensures forall k :: 0 <= k < data.Length ==>
      data[k] == (if start <= k < start + channels then sample else old(data[k]))
  {
    var c := 0;
    while c < channels
      invariant 0 <= c <= channels
      invariant forall k :: 0 <= k < data.Length ==>
        data[k] == (if start <= k < start + c then sample else old(data[k]))
    {
      data[start + c] := sample;
      c := c + 1;
    }
  }

  /**
   * The playing branch of the callback: every channel of frame f receives FrameSample of the f-th
   * random draw and the accumulators after f samples; returns the accumulators after the last frame.
   */
  method FillBuffer(data: array<real>, channels: int, randoms: seq<real>, start: Phases, incs: Increments,
                    volume: real, sin: real -> real) returns (final: Phases)
    requires channels >= 1 && data.Length % channels == 0
    requires |randoms| >= data.Length / channels
    modifies data
    ensures forall f, c :: 0 <= f < data.Length / channels && 0 <= c < channels ==>
      && 0 <= Slot(f, c, channels) < data.Length
      && data[Slot(f, c, channels)] == FrameSample(randoms[f], Advance(start, incs, f), volume, sin)
    ensures final == Advance(start, incs, data.Length / channels)
  {
    var frames := data.Length / channels;
    assert data.Length == frames * channels;
    var phase, lowerOctavePhase, higherOctavePhase, wobblePhase := start.main, start.lower, start.higher, start.wobble;
    var f := 0;
    var i := 0;
    while i < data.Length
      invariant 0 <= f <= frames && i == Slot(f, 0, channels)
      invariant Phases(phase, lowerOctavePhase, higherOctavePhase, wobblePhase) == Advance(start, incs, f)
      invariant forall g, c :: 0 <= g < f && 0 <= c < channels ==>
        && 0 <= Slot(g, c, channels) < data.Length
        && data[Slot(g, c, channels)] == FrameSample(randoms[g], Advance(start, incs, g), volume, sin)
      decreases data.Length - i
    {
      FrameBelowCount(f, frames, channels);
      SlotBefore(f, channels - 1, frames, channels);
      var sample := FrameSample(randoms[f], Phases(phase, lowerOctavePhase, higherOctavePhase, wobblePhase), volume, sin);
      FillFrame(data, i, channels, sample);
      forall g, c | 0 <= g < f && 0 <= c < channels
        ensures Slot(g, c, channels) < i
      {
        SlotBefore(g, c, f, channels);
      }

      phase := phase + incs.main;
      lowerOctavePhase := lowerOctavePhase + incs.lower;
      higherOctavePhase := higherOctavePhase + incs.higher;
      wobblePhase := wobblePhase + incs.wobble;
      if phase > 2.0 * PI {
        phase := phase - 2.0 * PI;
      }
      if lowerOctavePhase > 2.0 * PI {
        lowerOctavePhase := lowerOctavePhase - 2.0 * PI;
      }
      if higherOctavePhase > 2.0 * PI {
        higherOctavePhase := higherOctavePhase - 2.0 * PI;
      }
      if wobblePhase > 2.0 * PI {
        wobblePhase := wobblePhase - 2.0 * PI;
      }
      i := i + channels;
      f := f + 1;
    }
    if f < frames {
      SlotBefore(f, 0, frames, channels);
    }
    final := Phases(phase, lowerOctavePhase, higherOctavePhase, wobblePhase);
  }

  class AudioFeedbackGenerator {
    /** AudioSettings.outputSampleRate, read once at Awake. */
    const sampleRate: int
    var currentFrequency: real
    var currentWobbleFrequency: real
    var phase: real
    var lowerOctavePhase: real
    var higherOctavePhase: real
    var wobblePhase: real
    var isPlaying: bool
    var volumeMultiplier: real
    /** Whether a FadeOutAndStop run is pending (the source's non-null fadeCoroutine), and its elapsed time. */
    var fadeActive: bool
    var fadeElapsed: real

    /** Awake: pitch and wobble rate start at their minima; silent, full volume, no fade. */
    constructor (sampleRate: int)
      requires sampleRate > 0
      ensures this.sampleRate == sampleRate
      ensures currentFrequency == MinFrequency && currentWobbleFrequency == MinWobbleFrequency
      ensures phase == 0.0 && lowerOctavePhase == 0.0 && higherOctavePhase == 0.0 && wobblePhase == 0.0
      ensures !isPlaying && volumeMultiplier == 1.0 && !fadeActive
    {
      this.sampleRate := sampleRate;
      currentFrequency := MinFrequency;
      currentWobbleFrequency := MinWobbleFrequency;
      phase, lowerOctavePhase, higherOctavePhase, wobblePhase := 0.0, 0.0, 0.0, 0.0;
      isPlaying := false;
      volumeMultiplier := 1.0;
      fadeActive := false;
      fadeElapsed := 0.0;
    }

    ghost predicate Valid()
      reads this
    {
      sampleRate > 0
    }

    /**
     * Cancels a pending fade. Only when not already playing does it start playing from phase 0 at
     * full volume; while playing, phases and volume are kept.
     */
    method StartAudio()
      modifies this
      ensures !fadeActive && isPlaying
      ensures !old(isPlaying) ==>
        && phase == 0.0 && lowerOctavePhase == 0.0 && higherOctavePhase == 0.0 && wobblePhase == 0.0
        && volumeMultiplier == 1.0
      ensures old(isPlaying) ==>
        && phase == old(phase) && lowerOctavePhase == old(lowerOctavePhase)
        && higherOctavePhase == old(higherOctavePhase) && wobblePhase == old(wobblePhase)
        && volumeMultiplier == old(volumeMultiplier)
      ensures currentFrequency == old(currentFrequency) && currentWobbleFrequency == old(currentWobbleFrequency)
      ensures fadeElapsed == old(fadeElapsed)
    {
      if fadeActive {
        fadeActive := false;
      }
      if !isPlaying {
        isPlaying := true;
        phase := 0.0;
        lowerOctavePhase := 0.0;
        higherOctavePhase := 0.0;
        wobblePhase := 0.0;
        volumeMultiplier := 1.0;
      }
    }

    /**
     * Starts the fade only when playing with no fade pending; the fade's first step runs at once
     * with this frame's deltaTime. A call during a fade, or while silent, changes nothing.
     */
    method StopAudio(deltaTime: real)
      modifies this
      ensures old(isPlaying) && !old(fadeActive) ==>
        && fadeActive && isPlaying && fadeElapsed == deltaTime
        && volumeMultiplier == 1.0 - deltaTime / FadeOutDuration
      ensures !(old(isPlaying) && !old(fadeActive)) ==>
        && fadeActive == old(fadeActive) && fadeElapsed == old(fadeElapsed)
        && isPlaying == old(isPlaying) && volumeMultiplier == old(volumeMultiplier)
      ensures phase == old(phase) && lowerOctavePhase == old(lowerOctavePhase)
      ensures higherOctavePhase == old(higherOctavePhase) && wobblePhase == old(wobblePhase)
      ensures currentFrequency == old(currentFrequency) && currentWobbleFrequency == old(currentWobbleFrequency)
    {
      if isPlaying && !fadeActive {
        fadeActive := true;
        fadeElapsed := 0.0;
        FadeTick(deltaTime);
      }
    }

    /**
     * One frame of FadeOutAndStop. While time remains, the elapsed time grows and the volume is
     * 1 - elapsed / duration; once the duration is reached, the volume is exactly 0, playback stops
     * and no fade is pending.
     */
    method FadeTick(deltaTime: real)
      modifies this
      ensures !old(fadeActive) ==>
        && !fadeActive && fadeElapsed == old(fadeElapsed)
        && isPlaying == old(isPlaying) && volumeMultiplier == old(volumeMultiplier)
      ensures old(fadeActive) && old(fadeElapsed) < FadeOutDuration ==>
        && fadeActive && fadeElapsed == old(fadeElapsed) + deltaTime
        && volumeMultiplier == 1.0 - fadeElapsed / FadeOutDuration
        && isPlaying == old(isPlaying)
      ensures old(fadeActive) && old(fadeElapsed) >= FadeOutDuration ==>
        && volumeMultiplier == 0.0 && !isPlaying && !fadeActive && fadeElapsed == old(fadeElapsed)
      ensures phase == old(phase) && lowerOctavePhase == old(lowerOctavePhase)
      ensures higherOctavePhase == old(higherOctavePhase) && wobblePhase == old(wobblePhase)
      ensures currentFrequency == old(currentFrequency) && currentWobbleFrequency == old(currentWobbleFrequency)
    {
      if fadeActive {
        if fadeElapsed < FadeOutDuration {
          fadeElapsed := fadeElapsed + deltaTime;
          volumeMultiplier := 1.0 - (fadeElapsed / FadeOutDuration);
        } else {
          volumeMultiplier := 0.0;
          isPlaying := false;
          fadeActive := false;
        }
      }
    }

    /** Pitch and wobble rate follow the score linearly, each staying within its configured range. */
    method UpdateFrequency(matchScore: real)
      modifies this
      ensures currentFrequency == Lerp(MinFrequency, MaxFrequency, matchScore)
      ensures currentWobbleFrequency == Lerp(MinWobbleFrequency, MaxWobbleFrequency, matchScore)
      ensures MinFrequency <= currentFrequency <= MaxFrequency
      ensures MinWobbleFrequency <= currentWobbleFrequency <= MaxWobbleFrequency
      ensures 0.0 <= matchScore <= 1.0 ==> currentFrequency == MinFrequency + 500.0 * matchScore
      ensures phase == old(phase) && lowerOctavePhase == old(lowerOctavePhase)
      ensures higherOctavePhase == old(higherOctavePhase) && wobblePhase == old(wobblePhase)
      ensures isPlaying == old(isPlaying) && volumeMultiplier == old(volumeMultiplier)
      ensures fadeActive == old(fadeActive) && fadeElapsed == old(fadeElapsed)
    {
      currentFrequency := Lerp(MinFrequency, MaxFrequency, matchScore);
      currentWobbleFrequency := Lerp(MinWobbleFrequency, MaxWobbleFrequency, matchScore);
    }

    /** The increments the next buffer will use. */
    function NextIncrements(sin: real -> real): Increments
      reads this
      requires Valid()
    {
      BufferIncrements(currentFrequency, currentWobbleFrequency, wobblePhase, sampleRate, sin)
    }

    /** The accumulators as one record. */
    function CurrentPhases(): Phases
      reads this
    {
      Phases(phase, lowerOctavePhase, higherOctavePhase, wobblePhase)
    }

    /**
     * The audio callback, over an interleaved buffer of `channels` channels. Silent: every element
     * becomes 0 and nothing else changes. Playing: every channel of frame f gets FrameSample of the
     * f-th random draw and the accumulators after f samples, with the increments fixed at the start
     * of the buffer, and the accumulators end advanced by one sample per frame.
     */
    method OnAudioFilterRead(data: array<real>, channels: int, randoms: seq<real>, sin: real -> real)
      requires Valid()
      requires channels >= 1 && data.Length % channels == 0
      requires |randoms| >= data.Length / channels
      modifies this, data
      ensures !old(isPlaying) ==> forall k :: 0 <= k < data.Length ==> data[k] == 0.0
      ensures !old(isPlaying) ==> CurrentPhases() == old(CurrentPhases())
      ensures old(isPlaying) ==>
        && (forall f, c :: 0 <= f < data.Length / channels && 0 <= c < channels ==>
              && 0 <= Slot(f, c, channels) < data.Length
              && data[Slot(f, c, channels)] ==
                 FrameSample(randoms[f], Advance(old(CurrentPhases()), old(NextIncrements(sin)), f), volumeMultiplier, sin))
        && CurrentPhases() == Advance(old(CurrentPhases()), old(NextIncrements(sin)), data.Length / channels)
      ensures isPlaying == old(isPlaying) && volumeMultiplier == old(volumeMultiplier)
      ensures currentFrequency == old(currentFrequency) && currentWobbleFrequency == old(currentWobbleFrequency)
      ensures fadeActive == old(fadeActive) && fadeElapsed == old(fadeElapsed)
    {
      if !isPlaying {
        FillFrame(data, 0, data.Length, 0.0);
        return;
      }
      var incs := NextIncrements(sin);
      var final := FillBuffer(data, channels, randoms, CurrentPhases(), incs, volumeMultiplier, sin);
      phase, lowerOctavePhase, higherOctavePhase, wobblePhase := final.main, final.lower, final.higher, final.wobble;
    }
  }
}
