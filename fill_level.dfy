/** The distance-to-fill conversion and the bin's two configuration constants. */
module FillLevel {

  /** Height of the bin in millimetres. */
  const BinHeightMm: real := 600.0

  /** Fill percentage at or above which an alert is raised. */
  const ThresholdPercentage: real := 80.0

  /** The unclamped formula: 100 at distance 0, 0 at the bin's height. */
  function RawFill(distance: real): real
  {
    100.0 - (distance / BinHeightMm) * 100.0
  }

  /** The fill percentage for a distance reading: the formula clamped from
      below at 0 and not clamped from above. The three clauses together say
      that the result is the larger of 0 and the formula. */
  function Fill(distance: real): (fill: real)
    ensures fill >= 0.0
    ensures fill >= RawFill(distance)
    ensures fill == 0.0 || fill == RawFill(distance)
  {
    var raw := RawFill(distance);
    if raw > 0.0 then raw else 0.0
  }

  /** Any distance at or beyond the bottom of the bin reads as empty, and only those. */
  lemma FillZeroExactlyFromBinHeight(distance: real)
    ensures Fill(distance) == 0.0 <==> distance >= BinHeightMm
  {
  }

  /** A non-negative distance never gives more than 100 percent. */
  lemma FillAtMostHundred(distance: real)
    requires distance >= 0.0
    ensures Fill(distance) <= 100.0
  {
  }

  /** There is no upper clamp: every negative (noisy) distance gives more than 100. */
  lemma NoUpperClamp(distance: real)
    ensures Fill(distance) > 100.0 <==> distance < 0.0
  {
  }

  /** The boundary readings: an empty distance of 0 is a full bin, the bin's
      height and twice the height are empty, and -100 mm is reported uncapped. */
  lemma FillBoundaryValues()
    ensures Fill(0.0) == 100.0
    ensures Fill(BinHeightMm) == 0.0
    ensures Fill(2.0 * BinHeightMm) == 0.0
    ensures RawFill(2.0 * BinHeightMm) == -100.0
    ensures Fill(-100.0) == 100.0 + 100.0 / 6.0
  {
  }

  /** The closer the surface to the sensor, the fuller the bin. */
  lemma FillAntitone(nearer: real, farther: real)
    requires nearer <= farther
    ensures Fill(nearer) >= Fill(farther)
  {
  }

  /** Within the bin, the conversion loses nothing: the distance is recovered
      from the fill percentage. */
  lemma FillInvertibleWithinBin(distance: real)
    requires 0.0 <= distance <= BinHeightMm
    ensures (100.0 - Fill(distance)) / 100.0 * BinHeightMm == distance
  {
  }

  /** The alert threshold in terms of distance: the fill reaches 80 percent
      exactly when the surface is at most 120 mm from the sensor. */
  lemma ThresholdAsDistance(distance: real)
    ensures Fill(distance) >= ThresholdPercentage <==> distance <= 120.0
  {
  }
}
