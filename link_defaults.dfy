/**
 * The link constants of the panel (`linkDefaults` in src/types.ts).
 * Only the four the edge encoding reads are declared here.
 */
module LinkDefaults {

  /** Stroke width that the logarithmic regime's slope is measured from. */
  const EdgeWidthMin: real := 5.0

  /** Stroke width reached at the regime boundary in the linear regime. */
  const EdgeWidthMid: real := 12.0

  /** Stroke width that the logarithmic regime's slope is measured to. */
  const EdgeWidthMax: real := 20.0

  /** Bandwidth in Mbps at which the encoding switches from linear to logarithmic. */
  const BwMid: real := 15.0

}
