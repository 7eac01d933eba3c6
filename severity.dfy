/**
 * Severity classification of the day's pollen index.
 *
 * The bot compares `index.toFixed(1)` with inclusive upper bounds in
 * ascending order and takes the first band whose bound is not exceeded.
 * Here the index is the integer number of tenths left after that rounding
 * (8.2 is 82), so the bounds 2.4, 4.8, 7.2, 9.6 and 12.0 become 24, 48, 72,
 * 96 and 120 and no floating point is involved.
 */
module Severity {

  /** Inclusive upper bounds, in tenths, of the first five bands. */
  const Bounds: seq<int> := [24, 48, 72, 96, 120]

  /** Band labels, lowest band first; the last band has no upper bound. */
  const Labels: seq<string> := ["Low", "Medium-Low", "Medium", "Medium-High", "High", "Death by Pollen"]

  /** Slack attachment colours, band by band. */
  const Colors: seq<string> := ["good", "warning", "warning", "danger", "danger", "danger"]

  /**
   * Reference classification: scanning the bounds from position `from`, the
   * position of the first one that `tenths` does not exceed, or the number
   * of bounds when it exceeds them all.
   */
  function TierFrom(tenths: int, from: nat): (k: nat)
    requires from <= |Bounds|
    ensures from <= k <= |Bounds|
    ensures k < |Bounds| ==> tenths <= Bounds[k]
    ensures forall j :: from <= j < k ==> Bounds[j] < tenths
    decreases |Bounds| - from
  {
    if from == |Bounds| then from
    else if tenths <= Bounds[from] then from
    else TierFrom(tenths, from + 1)
  }

  /** The band (0 = lowest, 5 = above every bound) of a rounded index. */
  function Tier(tenths: int): (k: nat)
    ensures k < |Labels| && k < |Colors|
    ensures k < |Bounds| ==> tenths <= Bounds[k]
    ensures 0 < k ==> Bounds[k - 1] < tenths
  {
    TierFrom(tenths, 0)
  }

  /** A larger rounded index never falls in a lower band. */
  lemma TierMonotone(a: int, b: int)
    requires a <= b
    ensures Tier(a) <= Tier(b)
  {
  }

  /** `formatIndexLabel`: the first-match chain of inclusive bounds. */
  function FormatIndexLabel(tenths: int): (band: string)
    ensures band == Labels[Tier(tenths)]
    ensures band == "Low" <==> tenths <= 24
    ensures band == "Death by Pollen" <==> 120 < tenths
  {
    if tenths <= 24 then "Low"
    else if tenths <= 48 then "Medium-Low"
    else if tenths <= 72 then "Medium"
    else if tenths <= 96 then "Medium-High"
    else if tenths <= 120 then "High"
    else "Death by Pollen"
  }

  /**
   * `formatIndexColor`: the same chain of bounds, with the two middle bands
   * and the three upper bands sharing a colour.
   */
  function FormatIndexColor(tenths: int): (color: string)
    ensures color == Colors[Tier(tenths)]
    ensures color == "good" <==> tenths <= 24
    ensures color == "danger" <==> 72 < tenths
  {
    if tenths <= 24 then "good"
    else if tenths <= 48 then "warning"
    else if tenths <= 72 then "warning"
    else if tenths <= 96 then "danger"
    else if tenths <= 120 then "danger"
    else "danger"
  }

  /** The colour is determined by the label, band group by band group. */
  lemma ColorAgreesWithLabel(tenths: int)
    ensures FormatIndexColor(tenths) == "good" <==> FormatIndexLabel(tenths) == "Low"
    ensures FormatIndexColor(tenths) == "warning"
        <==> FormatIndexLabel(tenths) in {"Medium-Low", "Medium"}
    ensures FormatIndexColor(tenths) == "danger"
        <==> FormatIndexLabel(tenths) in {"Medium-High", "High", "Death by Pollen"}
  {
  }

  /** Position of a colour on the scale good < warning < danger. */
  function ColorLevel(color: string): nat
  {
    if color == "good" then 0 else if color == "warning" then 1 else 2
  }

  /**
   * Both classifiers are monotone: a larger rounded index never gives an
   * earlier label or a milder colour.
   */
  lemma ClassifiersMonotone(a: int, b: int)
    requires a <= b
    ensures forall i, j ::
      (0 <= i < |Labels| && 0 <= j < |Labels|
       && FormatIndexLabel(a) == Labels[i] && FormatIndexLabel(b) == Labels[j]) ==> i <= j
    ensures ColorLevel(FormatIndexColor(a)) <= ColorLevel(FormatIndexColor(b))
  {
  }

  /** The bands the bot's tests exercise, and the inclusive bounds. */
  lemma BandExamples()
    ensures FormatIndexLabel(1) == "Low" && FormatIndexColor(1) == "good"
    ensures FormatIndexLabel(24) == "Low" && FormatIndexLabel(25) == "Medium-Low"
    ensures FormatIndexLabel(72) == "Medium" && FormatIndexColor(72) == "warning"
    ensures FormatIndexLabel(82) == "Medium-High" && FormatIndexColor(82) == "danger"
    ensures FormatIndexLabel(120) == "High" && FormatIndexLabel(121) == "Death by Pollen"
  {
  }
}
