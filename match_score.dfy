/** The tolerance-based score comparing the player's wave with the level's template. */
module MatchScoring {
  import opened Mathf
  import opened Waves

  /** One parameter's score: 1 at the target, falling linearly to 0 at 10% of the target away. */
  function PartScore(value: real, target: real): (s: real)
    requires target != 0.0
    ensures 0.0 <= s <= 1.0
  {
    1.0 - Clamp01(Abs(value - target) / (target * 0.1))
  }

  /**
   * The match score. A different wave type scores 0 before anything is divided; otherwise the
   * frequency and amplitude scores are averaged. The template's magnitudes are divisors, so they
   * must be non-zero when the types agree.
   */
  function CalculateMatchScore(player: WaveData, template: WaveData): (score: real)
    requires player.waveType == template.waveType ==> template.frequency != 0.0 && template.amplitude != 0.0
    ensures player.waveType != template.waveType ==> score == 0.0
    ensures 0.0 <= score <= 1.0
  {
    if player.waveType != template.waveType then 0.0
    else (PartScore(player.frequency, template.frequency) + PartScore(player.amplitude, template.amplitude)) / 2.0
  }

  /** A part scores exactly 1 if and only if the value equals a positive target. */
  lemma PartScoreOne(value: real, target: real)
    requires target > 0.0
    ensures PartScore(value, target) == 1.0 <==> value == target
  {
    var d := Abs(value - target);
    var tol := target * 0.1;
    if value != target {
      assert d > 0.0;
      assert d / tol > 0.0;
    }
  }

  /** Against a positive template of the same type, the score is 1 exactly when frequency and amplitude both match. */
  lemma ScoreOneIffExact(player: WaveData, template: WaveData)
    requires template.frequency > 0.0 && template.amplitude > 0.0
    requires player.waveType == template.waveType
    ensures CalculateMatchScore(player, template) == 1.0
            <==> player.frequency == template.frequency && player.amplitude == template.amplitude
  {
    PartScoreOne(player.frequency, template.frequency);
    PartScoreOne(player.amplitude, template.amplitude);
  }

  /** Phases never enter the score. */
  lemma PhaseIgnored(player: WaveData, template: WaveData, p: real, q: real)
    requires player.waveType == template.waveType ==> template.frequency != 0.0 && template.amplitude != 0.0
    ensures CalculateMatchScore(player.(phase := p), template.(phase := q)) == CalculateMatchScore(player, template)
  {
  }

  /** A frequency off by at least 10% of a positive template frequency scores at most 0.5. */
  lemma FrequencyOutsideTolerance(player: WaveData, template: WaveData)
    requires template.frequency > 0.0 && template.amplitude > 0.0
    requires Abs(player.frequency - template.frequency) >= template.frequency * 0.1
    ensures PartScore(player.frequency, template.frequency) == 0.0
    ensures CalculateMatchScore(player, template) <= 0.5
  {
    RatioAtLeastOne(Abs(player.frequency - template.frequency), template.frequency * 0.1);
  }

  lemma RatioAtLeastOne(x: real, tol: real)
    requires tol > 0.0 && x >= tol
    ensures x / tol >= 1.0
  {
    var q := x / tol;
    assert q * tol == x;
    assert (q - 1.0) * tol >= 0.0;
  }

  /** The tolerance boundary: template (2, 1, Sine) against player (2.2, 1, Sine) scores exactly 0.5. */
  lemma ToleranceBoundaryExample()
    ensures CalculateMatchScore(WaveData(2.2, 1.0, Sine, 0.0), WaveData(2.0, 1.0, Sine, 0.0)) == 0.5
  {
    assert PartScore(2.2, 2.0) == 0.0;
    assert PartScore(1.0, 1.0) == 1.0;
  }

  /**
   * Reaching the 0.9 win threshold needs both parameters within 2% of a positive template:
   * each part must score at least 0.8.
   */
  lemma WinNeedsBothClose(player: WaveData, template: WaveData)
    requires template.frequency > 0.0 && template.amplitude > 0.0
    requires CalculateMatchScore(player, template) >= 0.9
    ensures player.waveType == template.waveType
    ensures Abs(player.frequency - template.frequency) <= template.frequency * 0.02
    ensures Abs(player.amplitude - template.amplitude) <= template.amplitude * 0.02
  {
    var fs := PartScore(player.frequency, template.frequency);
    var amps := PartScore(player.amplitude, template.amplitude);
    assert fs >= 0.8 && amps >= 0.8;
    PartWithin(player.frequency, template.frequency);
    PartWithin(player.amplitude, template.amplitude);
  }

  lemma PartWithin(value: real, target: real)
    requires target > 0.0
    requires PartScore(value, target) >= 0.8
    ensures Abs(value - target) <= target * 0.02
  {
    var tol := target * 0.1;
    var q := Abs(value - target) / tol;
    assert Clamp01(q) <= 0.2;
    assert q <= 0.2;
    assert Abs(value - target) == q * tol;
    MulNonNegative(0.2 - q, tol);
  }
}
