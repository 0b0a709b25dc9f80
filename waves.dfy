/** The wave description shared by the minigame's scorer, renderer and level table. */
module Waves {

  /** The two waveform families; nothing else is a WaveType. */
  datatype WaveType = Sine | Square

  /** A value type: copies never share state, so editing one wave leaves every other untouched. */
  datatype WaveData = WaveData(frequency: real, amplitude: real, waveType: WaveType, phase: real)

  /** The all-zero value a WaveData field holds before it is first assigned. */
  const DefaultWave: WaveData := WaveData(0.0, 0.0, Sine, 0.0)

  /** The WaveData constructor; the phase defaults to 0 when omitted. */
  function MakeWave(frequency: real, amplitude: real, waveType: WaveType, phase: real := 0.0): (w: WaveData)
    ensures w.frequency == frequency && w.amplitude == amplitude
    ensures w.waveType == waveType && w.phase == phase
  {
    WaveData(frequency, amplitude, waveType, phase)
  }

  /** Omitting the phase gives phase 0. */
  lemma DefaultPhaseIsZero(frequency: real, amplitude: real, waveType: WaveType)
    ensures MakeWave(frequency, amplitude, waveType).phase == 0.0
    ensures MakeWave(frequency, amplitude, waveType) == MakeWave(frequency, amplitude, waveType, 0.0)
  {
  }

  /** WaveType has exactly the two values Sine and Square. */
  lemma WaveTypeHasTwoValues(t: WaveType)
    ensures t == Sine || t == Square
    ensures Sine != Square
  {
  }
}
