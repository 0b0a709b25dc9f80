/**
 * The oscilloscope trace of a wave: `points` samples on an even x-grid across `width`, each the
 * wave's signal plus two Perlin noise terms, and a fade that scales the line's width and alpha.
 * Mathf.Sin is the parameter `sin`, Mathf.PerlinNoise the parameter `perlin`.
 */
module WaveRendering {
  import opened Mathf
  import opened Scene
  import opened Waves

  const DefaultPoints: int := 100
  const DefaultWidth: real := 10.0
  const DefaultNoiseScale: real := 1.0
  const DefaultNoiseSpeed: real := 1.0
  const DefaultNoiseStrength: real := 0.1
  const DefaultHighFreqNoiseScale: real := 20.0
  const DefaultHighFreqNoiseSpeed: real := 15.0
  const DefaultHighFreqNoiseStrength: real := 0.05
  /** The second Perlin coordinate's shift for the interference term. */
  const InterferenceShift: real := 50.0

  /** A key of the line's colour gradient: only its alpha is ever changed here. */
  datatype AlphaKey = AlphaKey(alpha: real, time: real)

  /** The x coordinate of point i: the grid starts at -width/2 in steps of width / (points - 1). */
  function GridX(i: int, points: int, width: real): real
    requires points >= 2
  {
    -width / 2.0 + (i as real) * (width / ((points - 1) as real))
  }

  /** The sampling parameter of point i. */
  function SampleT(i: int, points: int): real
    requires points >= 2
  {
    (i as real) / ((points - 1) as real)
  }

  /** The angle at which the wave is sampled for parameter t. */
  function Angle(data: WaveData, t: real): real
  {
    t * data.frequency * 2.0 * PI + data.phase
  }

  /** The noiseless signal at parameter t. */
  function Signal(data: WaveData, t: real, sin: real -> real): real
  {
    var angle := Angle(data, t);
    match data.waveType
    case Sine => sin(angle) * data.amplitude
    case Square => Sign(sin(angle)) * data.amplitude
  }

  /** The grid runs from -width/2 at the first point to +width/2 at the last. */
  lemma GridEnds(points: int, width: real)
    requires points >= 2
    ensures GridX(0, points, width) == -width / 2.0
    ensures GridX(points - 1, points, width) == width / 2.0
  {
    var n := (points - 1) as real;
    assert n * (width / n) == width;
  }

  /** Neighbouring points are exactly one step apart. */
  lemma GridUniform(i: int, points: int, width: real)
    requires points >= 2
    ensures GridX(i + 1, points, width) - GridX(i, points, width) == width / ((points - 1) as real)
  {
  }

  /** The sampling parameter runs over [0, 1], from 0 at the first point to 1 at the last. */
  lemma SampleTInUnit(i: int, points: int)
    requires points >= 2 && 0 <= i < points
    ensures 0.0 <= SampleT(i, points) <= 1.0
    ensures SampleT(0, points) == 0.0 && SampleT(points - 1, points) == 1.0
  {
    var n := (points - 1) as real;
    var q := (i as real) / n;
    assert q * n == i as real;
    assert (1.0 - q) * n == n - i as real;
  }

  /** Before noise, a sine trace stays within [-|amplitude|, |amplitude|]. */
  lemma SineSignalBounded(data: WaveData, t: real, sin: real -> real)
    requires data.waveType == Sine
    requires -1.0 <= sin(Angle(data, t)) <= 1.0
    ensures -Abs(data.amplitude) <= Signal(data, t, sin) <= Abs(data.amplitude)
  {
    var s := sin(Angle(data, t));
    var a := Abs(data.amplitude);
    MulNonNegative(1.0 - s, a);
    MulNonNegative(1.0 + s, a);
    if data.amplitude >= 0.0 {
      assert Signal(data, t, sin) == s * a;
    } else {
      assert Signal(data, t, sin) == -(s * a);
    }
  }

  /**
   * Before noise, a square trace is exactly +amplitude or -amplitude, and +amplitude wherever the
   * sine is non-negative (Sign gives 1 at 0).
   */
  lemma SquareSignalTwoLevels(data: WaveData, t: real, sin: real -> real)
    requires data.waveType == Square
    ensures Signal(data, t, sin) == data.amplitude || Signal(data, t, sin) == -data.amplitude
    ensures sin(Angle(data, t)) >= 0.0 ==> Signal(data, t, sin) == data.amplitude
    ensures sin(Angle(data, t)) < 0.0 ==> Signal(data, t, sin) == -data.amplitude
  {
  }

  /** The renderer's noise configuration, as read by Render. */
  datatype NoiseSettings = NoiseSettings(
    noiseScale: real, noiseSpeed: real, noiseStrength: real, noiseOffset: real,
    highFreqNoiseScale: real, highFreqNoiseSpeed: real, highFreqNoiseStrength: real)

  /** Low-frequency wobble noise at x. */
  function Wobble(x: real, time: real, noise: NoiseSettings, perlin: (real, real) -> real): real
  {
    perlin(x * noise.noiseScale + time * noise.noiseSpeed + noise.noiseOffset, noise.noiseOffset) * noise.noiseStrength
  }

  /** High-frequency interference noise at x. */
  function Interference(x: real, time: real, noise: NoiseSettings, perlin: (real, real) -> real): real
  {
    perlin(x * noise.highFreqNoiseScale - time * noise.highFreqNoiseSpeed + noise.noiseOffset + InterferenceShift,
           noise.noiseOffset + InterferenceShift) * noise.highFreqNoiseStrength
  }

  /** Point i of the trace: grid x, the signal at parameter t plus both noise terms, z = 0. */
  function TracePoint(i: int, points: int, width: real, noise: NoiseSettings, data: WaveData, time: real,
                      sin: real -> real, perlin: (real, real) -> real): Vector3
    requires points >= 2
  {
    var x := GridX(i, points, width);
    var t := SampleT(i, points);
    Vector3(x, Signal(data, t, sin) + Wobble(x, time, noise, perlin) + Interference(x, time, noise, perlin), 0.0)
  }

  class WaveRenderer {
    const points: int
    const width: real
    const noiseScale: real
    const noiseSpeed: real
    const noiseStrength: real
    const noiseOffset: real
    const highFreqNoiseScale: real
    const highFreqNoiseSpeed: real
    var highFreqNoiseStrength: real
    /** The LineRenderer's state: its points, width multiplier and gradient alpha keys. */
    var positions: seq<Vector3>
    var widthMultiplier: real
    var alphaKeys: seq<AlphaKey>
    /** The width captured by the first SetFade; negative until then. */
    var initialWidthMultiplier: real

    /**
     * Awake, with the serialized configuration. The line is sized to `points` positions (none
     * for a negative count); their contents come from the prefab, and the model starts them at
     * the origin. A zero noise offset is replaced by `randomOffset`, Random.Range(0, 100). The
     * baseline width starts uncaptured.
     */
    constructor (points: int, width: real, noiseScale: real, noiseSpeed: real, noiseStrength: real,
                 noiseOffset: real, highFreqNoiseScale: real, highFreqNoiseSpeed: real,
                 highFreqNoiseStrength: real, lineWidth: real, alphaKeys: seq<AlphaKey>, randomOffset: real)
      requires 0.0 <= randomOffset <= 100.0
      ensures this.points == points && this.width == width
      ensures this.noiseScale == noiseScale && this.noiseSpeed == noiseSpeed && this.noiseStrength == noiseStrength
      ensures this.noiseOffset == (if noiseOffset == 0.0 then randomOffset else noiseOffset)
      ensures this.highFreqNoiseScale == highFreqNoiseScale && this.highFreqNoiseSpeed == highFreqNoiseSpeed
      ensures this.highFreqNoiseStrength == highFreqNoiseStrength
      ensures |positions| == (if points < 0 then 0 else points)
      ensures widthMultiplier == lineWidth && this.alphaKeys == alphaKeys
      ensures initialWidthMultiplier == -1.0
    {
      this.points := points;
      this.width := width;
      this.noiseScale := noiseScale;
      this.noiseSpeed := noiseSpeed;
      this.noiseStrength := noiseStrength;
      this.noiseOffset := if noiseOffset == 0.0 then randomOffset else noiseOffset;
      this.highFreqNoiseScale := highFreqNoiseScale;
      this.highFreqNoiseSpeed := highFreqNoiseSpeed;
      this.highFreqNoiseStrength := highFreqNoiseStrength;
      positions := seq(if points < 0 then 0 else points, _ => Zero);
      widthMultiplier := lineWidth;
      this.alphaKeys := alphaKeys;
      initialWidthMultiplier := -1.0;
    }

    /** The noise configuration Render reads now. */
    function Settings(): NoiseSettings
      reads this`highFreqNoiseStrength
    {
      NoiseSettings(noiseScale, noiseSpeed, noiseStrength, noiseOffset,
                    highFreqNoiseScale, highFreqNoiseSpeed, highFreqNoiseStrength)
    }

    /** The HighFreqNoiseStrength getter. */
    function HighFreqNoiseStrength(): real
      reads this`highFreqNoiseStrength
    {
      highFreqNoiseStrength
    }

    /**
     * The HighFreqNoiseStrength setter: the getter then reads back the value set, the next
     * Render uses it as its interference strength, and nothing else changes.
     */
    method SetHighFreqNoiseStrength(value: real)
      modifies this
      ensures HighFreqNoiseStrength() == value
      ensures Settings() == old(Settings()).(highFreqNoiseStrength := value)
      ensures positions == old(positions)
      ensures widthMultiplier == old(widthMultiplier) && alphaKeys == old(alphaKeys)
      ensures initialWidthMultiplier == old(initialWidthMultiplier)
    {
      highFreqNoiseStrength := value;
    }

    /** Render: the line gets exactly `points` positions, point i being TracePoint(i). */
    method Render(data: WaveData, time: real, sin: real -> real, perlin: (real, real) -> real)
      requires points >= 2
      modifies this
      ensures |positions| == points
      ensures forall i :: 0 <= i < points ==>
        positions[i] == TracePoint(i, points, width, Settings(), data, time, sin, perlin)
      ensures highFreqNoiseStrength == old(highFreqNoiseStrength)
      ensures widthMultiplier == old(widthMultiplier) && alphaKeys == old(alphaKeys)
      ensures initialWidthMultiplier == old(initialWidthMultiplier)
    {
      var buffer := new Vector3[points](_ => Zero);
      var noise := Settings();
      for i := 0 to points
        modifies buffer
        invariant forall j :: 0 <= j < i ==> buffer[j] == TracePoint(j, points, width, noise, data, time, sin, perlin)
      {
        buffer[i] := TracePoint(i, points, width, noise, data, time, sin, perlin);
      }
      positions := buffer[..];
    }

    /**
     * SetFade: the baseline width is captured from the current width only while uncaptured; the
     * width becomes baseline * fade and every alpha key's alpha becomes fade, key times kept.
     */
    method SetFade(fadeValue: real)
      modifies this
      ensures initialWidthMultiplier ==
        (if old(initialWidthMultiplier) < 0.0 then old(widthMultiplier) else old(initialWidthMultiplier))
      ensures widthMultiplier == initialWidthMultiplier * fadeValue
      ensures |alphaKeys| == |old(alphaKeys)|
      ensures forall k :: 0 <= k < |alphaKeys| ==> alphaKeys[k] == old(alphaKeys[k]).(alpha := fadeValue)
      ensures highFreqNoiseStrength == old(highFreqNoiseStrength)
      ensures positions == old(positions)
    {
      if initialWidthMultiplier < 0.0 {
        initialWidthMultiplier := widthMultiplier;
      }
      widthMultiplier := initialWidthMultiplier * fadeValue;

      var keys := new AlphaKey[|alphaKeys|](k requires 0 <= k < |alphaKeys| reads this => alphaKeys[k]);
      for i := 0 to keys.Length
        modifies keys
        invariant forall k :: 0 <= k < i ==> keys[k] == old(alphaKeys[k]).(alpha := fadeValue)
        invariant forall k :: i <= k < keys.Length ==> keys[k] == old(alphaKeys[k])
      {
        keys[i] := keys[i].(alpha := fadeValue);
      }
      alphaKeys := keys[..];
    }
  }

  /**
   * Every rendered point lies in the plane z = 0 on the grid, and its y is the signal plus the two
   * noise terms; with Perlin values in [0, 1] and non-negative strengths the noise only lifts the
   * signal, by at most the sum of the two strengths.
   */
  lemma TracePointShape(i: int, points: int, width: real, noise: NoiseSettings, data: WaveData, time: real,
                        sin: real -> real, perlin: (real, real) -> real)
    requires points >= 2
    requires forall a, b :: 0.0 <= perlin(a, b) <= 1.0
    requires noise.noiseStrength >= 0.0 && noise.highFreqNoiseStrength >= 0.0
    ensures var p := TracePoint(i, points, width, noise, data, time, sin, perlin);
      && p.z == 0.0 && p.x == GridX(i, points, width)
      && var signal := Signal(data, SampleT(i, points), sin);
         signal <= p.y <= signal + noise.noiseStrength + noise.highFreqNoiseStrength
  {
    var x := GridX(i, points, width);
    NoiseTermsBounded(x, time, noise, perlin);
  }

  /** With Perlin values in [0, 1], each noise term lies between 0 and its strength. */
  lemma NoiseTermsBounded(x: real, time: real, noise: NoiseSettings, perlin: (real, real) -> real)
    requires forall a, b :: 0.0 <= perlin(a, b) <= 1.0
    requires noise.noiseStrength >= 0.0 && noise.highFreqNoiseStrength >= 0.0
    ensures 0.0 <= Wobble(x, time, noise, perlin) <= noise.noiseStrength
    ensures 0.0 <= Interference(x, time, noise, perlin) <= noise.highFreqNoiseStrength
  {
    var w := perlin(x * noise.noiseScale + time * noise.noiseSpeed + noise.noiseOffset, noise.noiseOffset);
    var n := perlin(x * noise.highFreqNoiseScale - time * noise.highFreqNoiseSpeed + noise.noiseOffset + InterferenceShift,
                    noise.noiseOffset + InterferenceShift);
    ScaleWithinUnit(noise.noiseStrength, w);
    ScaleWithinUnit(noise.highFreqNoiseStrength, n);
  }
}
