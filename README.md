# Topology panel: bandwidth encoding and topology reload

A Dafny model of the core of a dashboard panel plugin that draws a network
topology. The panel keeps two data sets, the graph's nodes and edges. It
does two things with them:

- **Refresh.** On every data update it sums the last sample of every
  incoming series per series name. It converts each sum from bytes to
  Mbps with one decimal. Every edge whose id has a sum is then restyled:
  a colour scale, a stroke width and a label. The colour scale is linear
  below `bwMid` = 15 Mbps and logarithmic from it on. The label switches
  from Mbps to Gbps above 1000 Mbps.
- **Reload.** When the content option changes, a non-empty JSON graph
  description replaces both data sets. Content that does not parse leaves
  the graph as it was.

Modules:

- `Wrappers`: `Option`.
- `LinkDefaults`: the link constants the encoding reads (`edgeWidthMin/Mid/Max` = 5/12/20, `bwMid` = 15; src/types.ts:46-56).
- `Encoding`: JavaScript's `Math.round`, the bytes-to-Mbps conversion, the colour-scale choice, the width and the label, all as functions.
- `Aggregation`: data frames, the reference sum `SumFor`, and the aggregation loop `AggregateBandwidth` as a method over a map.
- `TopologyPanel`: the panel as a class whose fields are the two data sets. Its methods are the refresh step and the reload path.

Numbers are `real`. `Math.round(x)` is `Floor(x + 0.5)`. Three pieces are
foreign and kept abstract:

- `Math.log10` is the parameter `log10`.
- `JSON.parse` is the parameter `parse`, which yields `None` where it would throw.
- A d3 colour scale is recorded as the choice of scale and the bandwidth it is applied to.

Sums are taken over raw byte counts and converted to Mbps afterwards
(src/TopologyPanel.tsx:111, 117): two series of 1048576 bytes under one
name give 16.0 Mbps (`TwoSeriesExample`). The options `colorGradient`,
`color` and `label*` (src/types.ts:26-31) are not read by the panel's code.

## Model

| member | source | states |
|---|---|---|
| `Encoding.Round` | src/TopologyPanel.tsx:117 | the result is the nearest integer to x, with halves rounded up (x - 0.5 < r <= x + 0.5) |
| `Encoding.ToMbps` | src/TopologyPanel.tsx:117 | the converted bandwidth lies within 0.05 of raw * 8 / 2^20, the exact megabit value |
| `Encoding.ToMbpsOneDecimal` | src/TopologyPanel.tsx:117 | a converted bandwidth is a whole number of tenths |
| `Encoding.ToMbpsZeroIff` | src/TopologyPanel.tsx:117 | the conversion gives 0 exactly for raw sums in [-6553.6, 6553.6), so a raw sum of 0 gives 0 |
| `Encoding.ToMbpsNonNegative` | src/TopologyPanel.tsx:117 | a non-negative raw sum never converts to a negative bandwidth |
| `Encoding.ToMbpsMonotonic` | src/TopologyPanel.tsx:117 | the conversion preserves the order of raw sums |
| `Encoding.LabelOf` | src/TopologyPanel.tsx:131-139 | empty label iff bw = 0; Gbps iff bw > 1000; Mbps iff bw is non-zero and at most 1000, showing bw itself; a Gbps value is at least 1.0 and within 0.005 of bw / 1000 |
| `Encoding.ColorOf` | src/TopologyPanel.tsx:123-129 | the linear colour scale is chosen iff bw < bwMid, the logarithmic one otherwise, applied to bw itself |
| `Encoding.Width` | src/TopologyPanel.tsx:123-129 | computes 12·bw/15 below bwMid and 12 + log10(bw − 15)·15/4 from it on; states that a bandwidth in [0, 15) gets a width in [0, 12) and that bandwidth 0 gets width 0 |
| `Encoding.Encode` | src/TopologyPanel.tsx:119-139 | the linear colour scale is used iff bw < bwMid, at bw; the width is the regime's width; the label follows the label rule |
| `Encoding.WidthMonotonicWithinRegime` | src/TopologyPanel.tsx:123-129 | within either regime a larger bandwidth never gets a thinner edge, for a non-decreasing log10 |
| `Encoding.WidthDropsAcrossBoundary` | src/TopologyPanel.tsx:123-129 | across the boundary the width is not monotone: with log10(0.1) = -1, 15.1 Mbps is drawn thinner than 14.9 Mbps |
| `Encoding.LabelDecimals` | src/TopologyPanel.tsx:131-136 | the label of a converted bandwidth shows whole tenths in Mbps and whole hundredths in Gbps |
| `Encoding.EncodingExamples` | src/TopologyPanel.tsx:117-139 | 2 MiB converts to 16.0 Mbps; 0, 500 and 1500 Mbps are labelled empty, 500 Mbps and 1.5 Gbps |
| `Aggregation.SumForAbsent` | src/TopologyPanel.tsx:104-112 | a name no series carries has sum 0 |
| `Aggregation.SumForNonNegative` | src/TopologyPanel.tsx:104-112 | non-negative last samples give non-negative sums |
| `Aggregation.SumForAppend` | src/TopologyPanel.tsx:104-112 | the sum for a name over two concatenated lists of series is the sum of the two sums |
| `Aggregation.AggregateBandwidth` | src/TopologyPanel.tsx:99-112 | the map's keys are exactly the series' names, and each maps to the sum of the last samples of all series with that name |
| `TopologyPanel.Restyled` | src/TopologyPanel.tsx:115-141 | one edge after a refresh: id and endpoints kept; restyled with the encoding of its converted sum when its id has one, unchanged otherwise |
| `TopologyPanel.UpdatedEdges` | src/TopologyPanel.tsx:114-143 | the edge set after the edge loop: same length, ids and endpoints; every edge whose id has no sum is unchanged |
| `TopologyPanel.TwoSeriesExample` | src/TopologyPanel.tsx:104-117 | two series named edgeA of 1048576 bytes each sum to 2097152 bytes, shown as 16.0 Mbps |
| `TopologyPanel.RefreshedEdge` | src/TopologyPanel.tsx:114-143 | a refresh keeps every edge's position, id and endpoints; an edge whose id some series carries gets the encoding of that id's converted sum; every other edge keeps its previous style |
| `TopologyPanel.NoSeriesNoUpdate` | src/TopologyPanel.tsx:101-102 | with no series no edge is restyled |
| `TopologyPanel.UpdateIdempotent` | src/TopologyPanel.tsx:114-143 | restyling twice with the same bandwidth map is the same as restyling once |
| `TopologyPanel.RefreshedLinearWidth` | src/TopologyPanel.tsx:114-129 | with non-negative samples, an edge drawn in the linear regime gets a width in [0, 12) |
| `TopologyPanel.Panel.constructor` | src/TopologyPanel.tsx:50-55 | the panel starts with empty node and edge sets |
| `TopologyPanel.Panel.ComponentDidUpdate` | src/TopologyPanel.tsx:99-144 | nodes never change; with no series the edges do not change; otherwise the edge set becomes the restyled edges for the aggregated bandwidth of the series |
| `TopologyPanel.Panel.ProcessTopology` | src/TopologyPanel.tsx:152-157 | the node set becomes exactly the description's nodes and the edge set exactly its edges, whatever was there before |
| `TopologyPanel.Panel.PlotTopology` | src/TopologyPanel.tsx:159-166 | content that fails to parse leaves both sets unchanged; parsed content replaces both |
| `TopologyPanel.Panel.ProcessContent` | src/TopologyPanel.tsx:168-179 | empty content or a mode other than JSON leaves both sets unchanged; otherwise it behaves as plotting the content |

## Left out

- React lifecycle, `render`, the error boundary, the 150 ms debounce of `updateTopology`, the background style and `setSize`/`redraw`: host-framework glue (src/TopologyPanel.tsx:19-42, 67-97, 146-149, 181-203).
- `TopologyPanel.Panel.ComponentDidUpdate`: models only the bandwidth step (lines 99-144). Scheduling a reload when the content option changed and the background update are left out as framework glue.
- The d3 colour interpolation (src/TopologyPanel.tsx:59-64): a foreign library with floating-point colour arithmetic. Only the chosen scale and its input are recorded.
- `Math.log10` is an arbitrary function argument. So no bound is claimed on the width in the logarithmic regime. At exactly bwMid the real log10(0) is -Infinity; the model says nothing about that value.
- Floating-point rounding, NaN and infinities: numbers are reals.
- Number-to-string formatting of labels: a label is the datatype `NoLabel | Mbps(x) | Gbps(x)`.
- A series with no first field (the panel throws a TypeError) or with no samples (its sum becomes NaN) is excluded by the `WellFormed` precondition.
- `JSON.parse` internals and the graph library's data-set checks. A description without `nodes`/`edges` arrays, or with duplicate ids, makes the library throw after the sets were cleared. The model's data sets take the description's lists as given.
- `catch (SyntaxError)` (src/TopologyPanel.tsx:163) only names the caught value, so it catches any error. A data-set throw after the clears (lines 153-154) is swallowed and leaves the sets emptied or partly filled. In the model `parse` stands for the whole step and must yield the lists that end up in the sets.
- Node and edge ids are strings in the model. JSON ids may be numbers (src/types.ts:110-114); `Object.keys` at src/TopologyPanel.tsx:114 turns the edge ids into strings before they are looked up.
- The edge loop walks the keys of the network's rendered edges. The model walks the positions of the edge data set, which the rendered edges mirror. The update depends only on the id, so duplicates would not change the result.
- `this.network` being unset before the first render (the panel would throw): the model's panel always has its data sets.
- The remaining link constants (`widthScale`, `edgerateMax`, `coordinateScale`, `cacheRadius`, `maxBwValue`), `networkDefaultOptions` and `defaults` in src/types.ts: not read by the modelled code.
- src/TopologyPanelEditor.tsx (option form handlers) and src/module.tsx (plugin registration): no logic to verify.
