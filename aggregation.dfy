/**
 * The bandwidth aggregation of `componentDidUpdate` (src/TopologyPanel.tsx):
 * every data frame contributes the last sample of its first field, summed
 * per field name, in a map that is built up one frame at a time.
 */
module Aggregation {

  /** A field of a data frame: its name and its samples in time order. */
  datatype Field = Field(name: string, values: seq<real>)

  /** A data frame (one series) as the host delivers it. */
  datatype Frame = Frame(fields: seq<Field>)

  /** The panel reads the first field's name and its last sample. */
  predicate HasSample(f: Frame)
  {
    |f.fields| > 0 && |f.fields[0].values| > 0
  }

  predicate WellFormed(series: seq<Frame>)
  {
    forall f :: f in series ==> HasSample(f)
  }

  function Name(f: Frame): string
    requires |f.fields| > 0
  {
    f.fields[0].name
  }

  function LastValue(f: Frame): real
    requires HasSample(f)
  {
    var v := f.fields[0].values;
    v[|v| - 1]
  }

  /** The names carried by the series. */
  function Names(series: seq<Frame>): set<string>
    requires WellFormed(series)
  {
    set f | f in series :: Name(f)
  }

  /** Reference definition: the sum of the last samples of all series carrying `name`, in series order. */
  function SumFor(series: seq<Frame>, name: string): real
    requires WellFormed(series)
  {
    if series == [] then 0.0
    else
      var init, last := series[..|series| - 1], series[|series| - 1];
      assert forall f :: f in init ==> f in series;
      assert last in series;
      SumFor(init, name) + (if Name(last) == name then LastValue(last) else 0.0)
  }

  /** The aggregated bandwidth map the panel builds: one entry per name, holding its sum. */
  function Bandwidth(series: seq<Frame>): map<string, real>
    requires WellFormed(series)
  {
    map name | name in Names(series) :: SumFor(series, name)
  }

  /** A name that no series carries sums to zero. */
  lemma {:induction false} SumForAbsent(series: seq<Frame>, name: string)
    requires WellFormed(series)
    requires name !in Names(series)
    ensures SumFor(series, name) == 0.0
  {
    if series != [] {
      var init := series[..|series| - 1];
      assert forall f :: f in init ==> f in series;
      assert Names(init) <= Names(series);
      SumForAbsent(init, name);
    }
  }

  /** Non-negative samples give non-negative sums. */
  lemma {:induction false} SumForNonNegative(series: seq<Frame>, name: string)
    requires WellFormed(series)
    requires forall f :: f in series ==> LastValue(f) >= 0.0
    ensures SumFor(series, name) >= 0.0
  {
    if series != [] {
      var init := series[..|series| - 1];
      assert forall f :: f in init ==> f in series;
      SumForNonNegative(init, name);
    }
  }

  /** Every frame counts once: the sums of the last samples split by name add up along the series. */
  lemma {:induction false} SumForAppend(series: seq<Frame>, more: seq<Frame>, name: string)
    requires WellFormed(series) && WellFormed(more)
    ensures WellFormed(series + more)
    ensures SumFor(series + more, name) == SumFor(series, name) + SumFor(more, name)
  {
    if more != [] {
      var init := more[..|more| - 1];
      assert forall f :: f in init ==> f in more;
      assert (series + more)[..|series + more| - 1] == series + init;
      SumForAppend(series, init, name);
    } else {
      assert series + more == series;
    }
  }

  /**
   * The `forEach` over `data.series`: look up the running sum of the frame's
   * name (absent counts as 0) and store it increased by the frame's last sample.
   */
  method AggregateBandwidth(series: seq<Frame>) returns (bandwidth: map<string, real>)
    requires WellFormed(series)
    ensures bandwidth.Keys == Names(series)
    ensures forall name :: name in bandwidth ==> bandwidth[name] == SumFor(series, name)
    ensures bandwidth == Bandwidth(series)
  {
    bandwidth := map[];
    var i := 0;
    while i < |series|
      invariant 0 <= i <= |series|
      invariant WellFormed(series[..i])
      invariant bandwidth.Keys == Names(series[..i])
      invariant forall name :: name in bandwidth ==> bandwidth[name] == SumFor(series[..i], name)
    {
      var element := series[i];
      assert element in series;
      var name := Name(element);
      var linkBw := if name in bandwidth then bandwidth[name] else 0.0;
      if name !in bandwidth {
        SumForAbsent(series[..i], name);
      }
      bandwidth := bandwidth[name := linkBw + LastValue(element)];
      assert series[..i + 1][..i] == series[..i];
      assert series[..i + 1] == series[..i] + [element];
      i := i + 1;
    }
    assert series[..i] == series;
  }

}
