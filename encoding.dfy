/**
 * The per-edge visual encoding of an aggregated bandwidth
 * (src/TopologyPanel.tsx, the body of the edge loop of `componentDidUpdate`):
 * bytes to Mbps with one decimal, the linear/logarithmic regime split at
 * `BwMid`, the stroke width and the unit-switching label.
 *
 * Numbers are modelled as `real`; floating-point rounding is not.
 * The d3 colour scales are foreign: the model records which of the two
 * scales was applied, and to which bandwidth.  `Math.log10` is foreign as
 * well and is passed in as the function `log10`.
 */
module Encoding {
  import opened LinkDefaults

  /** JavaScript's `Math.round`: the nearest integer, halves rounded up. */
  function Round(x: real): (r: int)
    ensures x - 0.5 < r as real <= x + 0.5
  {
    (x + 0.5).Floor
  }

  /** Bytes to megabits with one decimal, as the panel does before encoding. */
  function ToMbps(raw: real): (bw: real)
    ensures raw * 8.0 / 1048576.0 - 0.05 < bw <= raw * 8.0 / 1048576.0 + 0.05
  {
    Round(raw / 1024.0 / 1024.0 * 8.0 * 10.0) as real / 10.0
  }

  /** Which d3 colour scale paints the edge, and at which bandwidth. */
  datatype ColorChoice = LinearScale(at: real) | LogScale(at: real)

  /** The edge label: empty, a bandwidth in Mbps, or one in Gbps. */
  datatype Label = NoLabel | Mbps(mbps: real) | Gbps(gbps: real)

  /** The three attributes written into the edge data set (`text` is the edge's `label`). */
  datatype EdgeStyle = EdgeStyle(color: ColorChoice, width: real, text: Label)

  /** The colour scale: linear below `BwMid`, logarithmic from it on. */
  function ColorOf(bw: real): (c: ColorChoice)
    ensures c.at == bw
    ensures c.LinearScale? <==> bw < BwMid
  {
    if bw < BwMid then LinearScale(bw) else LogScale(bw)
  }

  /** Stroke width: proportional below `BwMid`, logarithmic from it on. */
  function Width(bw: real, log10: real -> real): (w: real)
    ensures 0.0 <= bw < BwMid ==> 0.0 <= w < EdgeWidthMid
    ensures bw == 0.0 ==> w == 0.0
  {
    if bw < BwMid then EdgeWidthMid * bw / BwMid
    else EdgeWidthMid + log10(bw - BwMid) * (EdgeWidthMax - EdgeWidthMin) / 4.0
  }

  /** The label rule: nothing at zero, Gbps with two decimals above 1000 Mbps, Mbps otherwise. */
  function LabelOf(bw: real): (l: Label)
    ensures l == NoLabel <==> bw == 0.0
    ensures l.Gbps? <==> bw > 1000.0
    ensures l.Mbps? <==> bw != 0.0 && bw <= 1000.0
    ensures l.Mbps? ==> l.mbps == bw
    ensures l.Gbps? ==> 1.0 <= l.gbps && bw / 1000.0 - 0.005 < l.gbps <= bw / 1000.0 + 0.005
  {
    if bw != 0.0 then
      if bw > 1000.0 then Gbps(Round(bw / 10.0) as real / 100.0) else Mbps(bw)
    else
      NoLabel
  }

  /** The whole encoding of one converted bandwidth. */
  function Encode(bw: real, log10: real -> real): (s: EdgeStyle)
    ensures s.color.at == bw
    ensures s.color.LinearScale? <==> bw < BwMid
    ensures s.width == Width(bw, log10)
    ensures s.text == LabelOf(bw)
  {
    EdgeStyle(ColorOf(bw), Width(bw, log10), LabelOf(bw))
  }

  /** A converted bandwidth is a whole number of tenths of a Mbps. */
  lemma ToMbpsOneDecimal(raw: real)
    ensures (ToMbps(raw) * 10.0).Floor as real == ToMbps(raw) * 10.0
  {
  }

  /** The converted bandwidth is zero exactly for raw sums that round to 0.0 Mbps. */
  lemma ToMbpsZeroIff(raw: real)
    ensures ToMbps(raw) == 0.0 <==> -6553.6 <= raw < 6553.6
  {
  }

  /** A non-negative raw sum never converts to a negative bandwidth. */
  lemma ToMbpsNonNegative(raw: real)
    requires raw >= 0.0
    ensures ToMbps(raw) >= 0.0
  {
  }

  /** Conversion preserves order. */
  lemma ToMbpsMonotonic(raw1: real, raw2: real)
    requires raw1 <= raw2
    ensures ToMbps(raw1) <= ToMbps(raw2)
  {
    var x1 := raw1 / 1024.0 / 1024.0 * 8.0 * 10.0;
    var x2 := raw2 / 1024.0 / 1024.0 * 8.0 * 10.0;
    assert x1 <= x2;
    assert (x1 + 0.5).Floor <= (x2 + 0.5).Floor;
  }

  /** Within each regime the width grows with the bandwidth (for a non-decreasing log10). */
  lemma WidthMonotonicWithinRegime(bw1: real, bw2: real, log10: real -> real)
    requires forall x, y :: 0.0 < x <= y ==> log10(x) <= log10(y)
    requires bw1 <= bw2
    requires bw2 < BwMid || BwMid < bw1
    ensures Width(bw1, log10) <= Width(bw2, log10)
  {
  }

  /**
   * Across the regime boundary the width is not monotone: with the real
   * log10, 14.9 Mbps is drawn at 11.92 and 15.1 Mbps at 8.25.
   */
  lemma WidthDropsAcrossBoundary(log10: real -> real)
    requires log10(0.1) == -1.0
    ensures Width(15.1, log10) < Width(14.9, log10)
  {
  }

  /** The label of a converted bandwidth shows at most one decimal in Mbps and two in Gbps. */
  lemma LabelDecimals(raw: real)
    ensures LabelOf(ToMbps(raw)).Mbps? ==>
      (LabelOf(ToMbps(raw)).mbps * 10.0).Floor as real == LabelOf(ToMbps(raw)).mbps * 10.0
    ensures LabelOf(ToMbps(raw)).Gbps? ==>
      (LabelOf(ToMbps(raw)).gbps * 100.0).Floor as real == LabelOf(ToMbps(raw)).gbps * 100.0
  {
    var bw := ToMbps(raw);
    var k := Round(raw / 1024.0 / 1024.0 * 8.0 * 10.0);
    assert bw * 10.0 == k as real;
    if bw != 0.0 && bw > 1000.0 {
      var g := Round(bw / 10.0);
      assert LabelOf(bw) == Gbps(g as real / 100.0);
      assert LabelOf(bw).gbps * 100.0 == g as real;
    } else if bw != 0.0 {
      assert LabelOf(bw) == Mbps(bw);
    }
  }

  /** Worked examples: 2 MiB of traffic is 16.0 Mbps; 0, 500 and 1500 Mbps are labelled "", "500 Mbps" and "1.5 Gbps". */
  lemma EncodingExamples()
    ensures ToMbps(2097152.0) == 16.0
    ensures LabelOf(0.0) == NoLabel
    ensures LabelOf(500.0) == Mbps(500.0)
    ensures LabelOf(1500.0) == Gbps(1.5)
  {
  }

}
