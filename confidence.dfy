/** Scan confidence of the print-safety preview: a heuristic score in
    [0, 100] computed from the three distortion values, and the label
    shown next to it. Values are exact reals; the component's doubles
    agree with them up to rounding. */
module Confidence {

  /** The three labels the badge can show. */
  datatype Label = High | Medium | Low

  function Min(a: real, b: real): real { if a <= b then a else b }

  function Max(a: real, b: real): real { if a >= b then a else b }

  function Abs(x: real): (r: real)
    ensures r >= 0.0 && (r == x || r == -x)
  {
    if x < 0.0 then -x else x
  }

  /** Math.max(0, Math.min(100, x)): the point of [0, 100] nearest to x. */
  function Clamp(x: real): (r: real)
    ensures 0.0 <= r <= 100.0
    ensures 0.0 <= x <= 100.0 ==> r == x
    ensures x < 0.0 ==> r == 0.0
    ensures x > 100.0 ==> r == 100.0
  {
    Max(0.0, Min(100.0, x))
  }

  /** The score before clamping: 100 minus a penalty of 18 per pixel of
      blur, 1.2 per percent of noise and 0.6 per percentage point that the
      contrast lies away from 100. */
  function RawScore(blur: real, contrast: real, noise: real): real
  {
    100.0 - blur * 18.0 - noise * 1.2 - Abs(100.0 - contrast) * 0.6
  }

  /** The confidence score. The inputs are never range-checked, so the
      clamp is what keeps the score in [0, 100]. */
  function Score(blur: real, contrast: real, noise: real): (s: real)
    ensures 0.0 <= s <= 100.0
    ensures s == 0.0 <==> RawScore(blur, contrast, noise) <= 0.0
    ensures s == 100.0 <==> RawScore(blur, contrast, noise) >= 100.0
    ensures 0.0 < s < 100.0 ==> s == RawScore(blur, contrast, noise)
  {
    Clamp(RawScore(blur, contrast, noise))
  }

  /** The label for a score: High above 75, Medium above 50, Low otherwise. */
  function LabelOf(score: real): (l: Label)
    ensures l == High <==> score > 75.0
    ensures l == Medium <==> 50.0 < score <= 75.0
    ensures l == Low <==> score <= 50.0
  {
    if score > 75.0 then High
    else if score > 50.0 then Medium
    else Low
  }

  /** Orders the labels from worst to best. */
  function Rank(l: Label): nat
  {
    match l
    case Low => 0
    case Medium => 1
    case High => 2
  }

  /** A higher score never gets a worse label. */
  lemma LabelMonotone(s1: real, s2: real)
    requires s1 <= s2
    ensures Rank(LabelOf(s1)) <= Rank(LabelOf(s2))
  {
  }

  /** The undistorted setting scores full marks. */
  lemma NeutralScore()
    ensures Score(0.0, 100.0, 0.0) == 100.0
    ensures LabelOf(Score(0.0, 100.0, 0.0)) == High
  {
  }

  /** More blur never raises the score. */
  lemma ScoreAntitoneInBlur(b1: real, b2: real, contrast: real, noise: real)
    requires b1 <= b2
    ensures Score(b2, contrast, noise) <= Score(b1, contrast, noise)
  {
  }

  /** More noise never raises the score. */
  lemma ScoreAntitoneInNoise(blur: real, contrast: real, n1: real, n2: real)
    requires n1 <= n2
    ensures Score(blur, contrast, n2) <= Score(blur, contrast, n1)
  {
  }

  /** Contrast is penalised by its distance from 100 alone: raising and
      lowering it by the same amount scores the same. */
  lemma ScoreContrastSymmetric(blur: real, d: real, noise: real)
    ensures Score(blur, 100.0 + d, noise) == Score(blur, 100.0 - d, noise)
  {
  }

  /** Moving the contrast away from 100 never raises the score. */
  lemma ScoreAntitoneInContrastDeviation(blur: real, c1: real, c2: real, noise: real)
    requires Abs(100.0 - c1) <= Abs(100.0 - c2)
    ensures Score(blur, c2, noise) <= Score(blur, c1, noise)
  {
  }

  /** The upper clamp only matters for inputs the sliders never produce:
      the raw score exceeds 100 only when blur or noise is negative. */
  lemma RawScoreAboveHundred(blur: real, contrast: real, noise: real)
    requires RawScore(blur, contrast, noise) > 100.0
    ensures blur < 0.0 || noise < 0.0
  {
  }
}
