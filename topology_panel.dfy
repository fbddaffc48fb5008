/**
 * The topology panel (src/TopologyPanel.tsx): the node and edge data sets of
 * the embedded graph, the per-refresh edge encoding of `componentDidUpdate`,
 * and the reload path `processContent` -> `plotTopology` -> `processTopology`.
 *
 * A data set is modelled as the sequence of its items in insertion order.
 * `JSON.parse` is foreign and is passed in as `parse`, which yields `None`
 * where the host would throw.
 */
module TopologyPanel {
  import opened Wrappers
  import opened LinkDefaults
  import opened Encoding
  import opened Aggregation

  /** A node of the graph description (`caption` is the node's `label`). */
  datatype Node = Node(id: string, caption: string, title: string, group: string)

  /** An edge of the graph description; `style` is what the panel last wrote, `None` before any refresh. */
  datatype Edge = Edge(id: string, from: string, to: string, style: Option<EdgeStyle>)

  /** The parsed graph description: `{ nodes: [...], edges: [...] }`. */
  datatype Graph = Graph(nodes: seq<Node>, edges: seq<Edge>)

  /** A mode name other than "JSON". */
  type OtherModeName = s: string | s != "JSON" witness ""

  /** The panel's mode option; `Json` (the string "JSON") is the only one the panel acts on. */
  datatype Mode = Json | OtherMode(name: OtherModeName)

  /** The two options the reload path reads. */
  datatype Options = Options(mode: Mode, content: string)

  /** One edge after a refresh: restyled when its id has an aggregated bandwidth, as it was otherwise. */
  function Restyled(e: Edge, bandwidth: map<string, real>, log10: real -> real): (r: Edge)
    ensures r.id == e.id && r.from == e.from && r.to == e.to
    ensures e.id !in bandwidth ==> r == e
    ensures e.id in bandwidth ==> r.style == Some(Encode(ToMbps(bandwidth[e.id]), log10))
  {
    if e.id in bandwidth then e.(style := Some(Encode(ToMbps(bandwidth[e.id]), log10))) else e
  }

  /** The edge data set after the edge loop of a refresh. */
  function UpdatedEdges(edges: seq<Edge>, bandwidth: map<string, real>, log10: real -> real): (r: seq<Edge>)
    ensures |r| == |edges|
    ensures forall i :: 0 <= i < |r| ==> r[i].id == edges[i].id && r[i].from == edges[i].from && r[i].to == edges[i].to
    ensures forall i :: 0 <= i < |r| && edges[i].id !in bandwidth ==> r[i] == edges[i]
  {
    seq(|edges|, i requires 0 <= i < |edges| => Restyled(edges[i], bandwidth, log10))
  }

  /**
   * A refresh with series keeps every edge in place; an edge whose id some
   * series carries gets the encoding of that id's converted sum, every other
   * edge keeps its previous colour, width and label.
   */
  lemma RefreshedEdge(series: seq<Frame>, edges: seq<Edge>, log10: real -> real, i: int)
    requires WellFormed(series)
    requires 0 <= i < |edges|
    ensures |UpdatedEdges(edges, Bandwidth(series), log10)| == |edges|
    ensures var e, r := edges[i], UpdatedEdges(edges, Bandwidth(series), log10)[i];
      r.id == e.id && r.from == e.from && r.to == e.to &&
      r.style == if e.id in Names(series) then Some(Encode(ToMbps(SumFor(series, e.id)), log10)) else e.style
  {
  }

  /** Without any series no edge is restyled. */
  lemma NoSeriesNoUpdate(edges: seq<Edge>, log10: real -> real)
    ensures UpdatedEdges(edges, Bandwidth([]), log10) == edges
  {
  }

  /** Two series named "edgeA" of 1 MiB each sum to 2 MiB, which the panel shows as 16.0 Mbps. */
  lemma TwoSeriesExample()
    ensures var s := [Frame([Field("edgeA", [1048576.0])]), Frame([Field("edgeA", [1048576.0])])];
      WellFormed(s) && SumFor(s, "edgeA") == 2097152.0 && ToMbps(SumFor(s, "edgeA")) == 16.0
  {
  }

  /** Refreshing twice with the same data is the same as refreshing once. */
  lemma UpdateIdempotent(edges: seq<Edge>, bandwidth: map<string, real>, log10: real -> real)
    ensures UpdatedEdges(UpdatedEdges(edges, bandwidth, log10), bandwidth, log10)
         == UpdatedEdges(edges, bandwidth, log10)
  {
  }

  /**
   * With non-negative samples, an edge that a refresh draws in the linear
   * regime gets a width in [0, EdgeWidthMid).
   */
  lemma RefreshedLinearWidth(series: seq<Frame>, edges: seq<Edge>, log10: real -> real, i: int)
    requires WellFormed(series)
    requires forall f :: f in series ==> LastValue(f) >= 0.0
    requires 0 <= i < |edges| && edges[i].id in Names(series)
    requires ToMbps(SumFor(series, edges[i].id)) < BwMid
    ensures |UpdatedEdges(edges, Bandwidth(series), log10)| == |edges|
    ensures UpdatedEdges(edges, Bandwidth(series), log10)[i].style.Some?
    ensures 0.0 <= UpdatedEdges(edges, Bandwidth(series), log10)[i].style.value.width < EdgeWidthMid
  {
    SumForNonNegative(series, edges[i].id);
    ToMbpsNonNegative(SumFor(series, edges[i].id));
  }

  class Panel {
    /** The node data set of the network. */
    var nodes: seq<Node>
    /** The edge data set of the network. */
    var edges: seq<Edge>

    /** The panel starts with an empty graph. */
    constructor ()
      ensures nodes == [] && edges == []
    {
      nodes, edges := [], [];
    }

    /**
     * The bandwidth step of `componentDidUpdate`: with no series nothing is
     * updated; otherwise the series are aggregated by name and every edge
     * whose id has an aggregated entry is restyled.
     */
    method ComponentDidUpdate(series: seq<Frame>, log10: real -> real)
      requires WellFormed(series)
      modifies this
      ensures nodes == old(nodes)
      ensures |series| < 1 ==> edges == old(edges)
      ensures |series| >= 1 ==> edges == UpdatedEdges(old(edges), Bandwidth(series), log10)
    {
      if |series| < 1 {
        // the panel only logs that no data is available
      } else {
        var bandwidth := AggregateBandwidth(series);
        // each position stands for its id among the keys of the network's edges
        var i := 0;
        while i < |edges|
          invariant 0 <= i <= |edges| == |old(edges)|
          invariant nodes == old(nodes)
          invariant forall k :: 0 <= k < i ==> edges[k] == Restyled(old(edges)[k], bandwidth, log10)
          invariant forall k :: i <= k < |edges| ==> edges[k] == old(edges)[k]
        {
          var key := edges[i].id;
          if key in bandwidth {
            var bw := ToMbps(bandwidth[key]);
            edges := edges[i := edges[i].(style := Some(Encode(bw, log10)))];
          }
          i := i + 1;
        }
      }
    }

    /** Clears both data sets and fills them with the description's nodes and edges. */
    method ProcessTopology(json: Graph)
      modifies this
      ensures nodes == json.nodes && edges == json.edges
    {
      nodes := [];
      edges := [];
      nodes := nodes + json.nodes;
      edges := edges + json.edges;
    }

    /** Parses the content and shows it; content that does not parse leaves the graph as it was. */
    method PlotTopology(content: string, parse: string -> Option<Graph>)
      modifies this
      ensures parse(content).None? ==> nodes == old(nodes) && edges == old(edges)
      ensures parse(content).Some? ==>
        nodes == parse(content).value.nodes && edges == parse(content).value.edges
    {
      match parse(content)
      case None =>
        // the parse error is caught and logged
      case Some(json) =>
        ProcessTopology(json);
    }

    /** Reloads the graph from the options: only non-empty content in JSON mode is plotted. */
    method ProcessContent(options: Options, parse: string -> Option<Graph>)
      modifies this
      ensures options.content == [] || options.mode != Json ==>
        nodes == old(nodes) && edges == old(edges)
      ensures options.content != [] && options.mode == Json && parse(options.content).None? ==>
        nodes == old(nodes) && edges == old(edges)
      ensures options.content != [] && options.mode == Json && parse(options.content).Some? ==>
        nodes == parse(options.content).value.nodes && edges == parse(options.content).value.edges
    {
      if options.content == [] {
        return;
      }
      if options.mode == Json {
        PlotTopology(options.content, parse);
      }
    }
  }

}
