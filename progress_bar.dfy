/** The progress bar (components/ui/ProgressBar.tsx): the bar's width is the
    progress clamped to 0..100, and its colour is chosen from the unclamped
    value. */
module ProgressBar {
  import CfoParser

  datatype BarColor = Emerald | Yellow | Red

  /** `Math.max(0, Math.min(100, progress))`. */
  function Width(progress: real): (w: real)
    ensures 0.0 <= w <= 100.0
    ensures 0.0 <= progress <= 100.0 ==> w == progress
    ensures progress < 0.0 ==> w == 0.0
    ensures progress > 100.0 ==> w == 100.0
  {
    if progress < 0.0 then 0.0 else if progress > 100.0 then 100.0 else progress
  }

  /** The colour thresholds, on the value as given. */
  function Color(progress: real): (c: BarColor)
    ensures c == Emerald <==> progress > 75.0
    ensures c == Yellow <==> 40.0 < progress <= 75.0
    ensures c == Red <==> progress <= 40.0
  {
    if progress > 75.0 then Emerald else if progress > 40.0 then Yellow else Red
  }

  /** The colour does not look at the clamp: out-of-range values keep the
      colour of their side (150 is emerald, -5 is red), and clamping never
      changes the colour. */
  lemma ColorIgnoresClamp(progress: real)
    ensures Color(Width(progress)) == Color(progress)
    ensures Color(150.0) == Emerald && Width(150.0) == 100.0
    ensures Color(-5.0) == Red && Width(-5.0) == 0.0
  {
  }

  /** A whole-number score gets the same band from the bar as from the
      health-score gauge of the CFO report. */
  lemma SameBandsAsGauge(score: int)
    ensures Color(score as real) == Emerald <==> CfoParser.ScoreColor(score) == CfoParser.Green
    ensures Color(score as real) == Yellow <==> CfoParser.ScoreColor(score) == CfoParser.Yellow
    ensures Color(score as real) == Red <==> CfoParser.ScoreColor(score) == CfoParser.Red
  {
  }
}
