/** The small computations inside the explainer's visualisation panels:
    bar heights, the size verdict, the memory split and the highlighted bar of
    the performance graph. */
module Visuals {
  import opened Js
  import opened Metrics

  // ------------------------------------------------------ model visualisation

  /** Height in px of the parameter bar: proportional to the share of 2000M,
      kept between 10 and 40. */
  function ModelBarHeight(paramsM: real): (h: real)
    ensures 10.0 <= h <= 40.0
    ensures 500.0 <= paramsM <= 2000.0 ==> h == paramsM / 2000.0 * 40.0
    ensures paramsM <= 500.0 ==> h == 10.0
    ensures paramsM >= 2000.0 ==> h == 40.0
  {
    Min(40.0, Max(10.0, (paramsM / 2000.0) * 40.0))
  }

  /** Height in px of the context bar: proportional to the share of 8192
      tokens, kept between 10 and 40. */
  function ContextBarHeight(contextLen: int): (h: real)
    ensures 10.0 <= h <= 40.0
    ensures 2048 <= contextLen <= 8192 ==> h == contextLen as real / 8192.0 * 40.0
    ensures contextLen <= 2048 ==> h == 10.0
    ensures contextLen >= 8192 ==> h == 40.0
  {
    Min(40.0, Max(10.0, (contextLen as real / 8192.0) * 40.0))
  }

  /** Height in px of the precision bar. */
  function QuantBarHeight(quantBits: int): (h: real)
    ensures h == 15.0 <==> quantBits == 4
    ensures quantBits != 4 ==> h == 30.0
  {
    if quantBits == 4 then 15.0 else 30.0
  }

  lemma BarHeightsMonotone(p1: real, p2: real, c1: int, c2: int)
    requires p1 <= p2 && c1 <= c2
    ensures ModelBarHeight(p1) <= ModelBarHeight(p2)
    ensures ContextBarHeight(c1) <= ContextBarHeight(c2)
  {
  }

  datatype Verdict = SmallModel | MediumModel | LargeModel

  /** The impact badge: large above 1000M, medium above 500M, small otherwise. */
  function SizeVerdict(paramsM: real): (v: Verdict)
    ensures v == LargeModel <==> paramsM > 1000.0
    ensures v == SmallModel <==> paramsM <= 500.0
  {
    if paramsM > 1000.0 then LargeModel
    else if paramsM > 500.0 then MediumModel
    else SmallModel
  }

  function VerdictRank(v: Verdict): nat
  {
    match v
    case SmallModel => 0
    case MediumModel => 1
    case LargeModel => 2
  }

  lemma SizeVerdictMonotone(p: real, q: real)
    requires p <= q
    ensures VerdictRank(SizeVerdict(p)) <= VerdictRank(SizeVerdict(q))
  {
  }

  // ---------------------------------------------------------- memory split

  /** Percentages of the memory bar taken by weights and by KV cache. */
  datatype Shares = Shares(weightsPercent: real, kvPercent: real)

  function MemoryShares(m: Metrics): (s: Shares)
    requires m.memMB != 0.0
    ensures m.memMB == m.weightMB + m.kvTotalMB ==> s.weightsPercent + s.kvPercent == 100.0
  {
    var total := m.memMB;
    var w := (m.weightMB / total) * 100.0;
    var kv := (m.kvTotalMB / total) * 100.0;
    assert w + kv == (m.weightMB + m.kvTotalMB) / total * 100.0;
    Shares(w, kv)
  }

  /** For any non-negative context the two segments fill the bar exactly,
      and the weights never take less than their share of the total. */
  lemma {:induction false} SharesFillTheBar(paramsM: real, contextLen: int, quantBits: int, device: Device)
    requires contextLen >= 0
    ensures UseMetrics(paramsM, contextLen, quantBits, device).memMB > 0.0
    ensures var s := MemoryShares(UseMetrics(paramsM, contextLen, quantBits, device));
            s.weightsPercent + s.kvPercent == 100.0
            && 0.0 < s.weightsPercent <= 100.0 && 0.0 <= s.kvPercent < 100.0
  {
    var m := UseMetrics(paramsM, contextLen, quantBits, device);
    var s := MemoryShares(m);
    assert m.weightMB / m.memMB <= 1.0 by {
      DivAntitone(m.weightMB, m.weightMB, m.memMB);
      assert m.weightMB / m.weightMB == 1.0;
    }
    assert m.weightMB / m.memMB > 0.0;
  }

  // ----------------------------------------------------- performance graph

  /** The model sizes on the graph's horizontal axis. */
  const Sizes: seq<real> := [5.0, 50.0, 100.0, 250.0, 500.0, 1000.0, 2000.0]

  /** Height in px of the graph bar for the size at `index`. */
  function GraphBarHeight(index: int): (h: real)
    requires 0 <= index < |Sizes|
    ensures 20.0 <= h <= 80.0
  {
    var size := Sizes[index];
    Min(80.0, Max(20.0, (2000.0 / size) * 0.02 * 80.0))
  }

  /** Index of the first size at least `paramsM`, or -1. */
  function FirstSizeAtLeast(paramsM: real): (i: int)
    ensures -1 <= i < |Sizes|
  {
    FindIndex(Sizes, (size: real) => size >= paramsM)
  }

  /** `FirstSizeAtLeast` is the position of the first axis size at least `paramsM`. */
  lemma FirstSizeAtLeastMeaning(paramsM: real)
    ensures paramsM <= 2000.0 <==> FirstSizeAtLeast(paramsM) >= 0
    ensures paramsM <= 2000.0 ==> Sizes[FirstSizeAtLeast(paramsM)] >= paramsM
    ensures paramsM <= 2000.0 ==> forall j :: 0 <= j < FirstSizeAtLeast(paramsM) ==> Sizes[j] < paramsM
  {
    var pred := (size: real) => size >= paramsM;
    if paramsM <= 2000.0 {
      assert pred(Sizes[6]);
    }
  }

  /** The highlighted bar as written, `findIndex(...) || sizes.length - 1`:
      the index 0 is falsy and becomes 6, while -1 is truthy and stays -1. */
  function GraphIndexAsWritten(paramsM: real): (r: int)
    ensures paramsM <= 5.0 ==> r == 6
    ensures r == -1 <==> paramsM > 2000.0
    ensures 5.0 < paramsM <= 2000.0 ==> r == FirstSizeAtLeast(paramsM)
  {
    FirstSizeAtLeastMeaning(paramsM);
    var i := FirstSizeAtLeast(paramsM);
    if i == 0 then |Sizes| - 1 else i
  }

  /** The highlighted bar as intended: the first size at least `paramsM`, or
      the last bar when every size is smaller. */
  function GraphIndex(paramsM: real): (r: int)
    ensures 0 <= r < |Sizes|
    ensures paramsM <= 2000.0 ==> Sizes[r] >= paramsM && forall j :: 0 <= j < r ==> Sizes[j] < paramsM
    ensures paramsM > 2000.0 ==> r == |Sizes| - 1
  {
    FirstSizeAtLeastMeaning(paramsM);
    var i := FirstSizeAtLeast(paramsM);
    if i == -1 then |Sizes| - 1 else i
  }

  /** Bars shrink as the model size grows: 80, 64 and 32 px for 5M, 50M and
      100M, and the 20 px floor from 250M on. */
  lemma GraphBarHeights(i: int, j: int)
    requires 0 <= i <= j < |Sizes|
    ensures GraphBarHeight(i) >= GraphBarHeight(j)
    ensures GraphBarHeight(0) == 80.0 && GraphBarHeight(1) == 64.0 && GraphBarHeight(2) == 32.0
    ensures forall k :: 3 <= k < |Sizes| ==> GraphBarHeight(k) == 20.0
  {
  }

  /** Horizontal position, in percent of the graph, of the red marker: 2% for
      the first bar, 94% for the last, evenly spaced in between, and left of
      the graph for a negative index. */
  function MarkerLeftPercent(index: int): (r: real)
    ensures 0 <= index < |Sizes| ==> 2.0 <= r <= 94.0
    ensures index == 0 ==> r == 2.0
    ensures index == |Sizes| - 1 ==> r == 94.0
    ensures index < 0 ==> r < 2.0
  {
    2.0 + (index as real / (|Sizes| - 1) as real) * 92.0
  }

  /** With the intended index the marker always sits on the graph, between 2%
      and 94%, above the highlighted bar. */
  lemma MarkerOnGraph(paramsM: real)
    ensures 2.0 <= MarkerLeftPercent(GraphIndex(paramsM)) <= 94.0
  {
  }

  /** The written index highlights the 2000M bar for a 5M model (one of the
      quick-pick sizes), and for a model above 2000M highlights nothing and
      places the marker left of the graph. */
  lemma GraphIndexAsWrittenMisses()
    ensures GraphIndexAsWritten(5.0) == 6 && GraphIndex(5.0) == 0
    ensures Sizes[0] >= 5.0 && Sizes[6] == 2000.0
    ensures GraphIndexAsWritten(2500.0) == -1 && MarkerLeftPercent(-1) < 0.0
  {
  }

  /** Where the written index is not 0 or -1, the two agree. */
  lemma GraphIndexAgreesElsewhere(paramsM: real)
    requires 5.0 < paramsM <= 2000.0
    ensures GraphIndexAsWritten(paramsM) == GraphIndex(paramsM)
  {
  }
}
