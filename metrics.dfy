/** The explainer's estimation engine: from parameter count, context length,
    quantization and device to weight size, KV cache, memory, throughput,
    first-token latency and download size.  Exact real arithmetic stands in
    for the browser's floating point. */
module Metrics {
  import opened Js

  /** Megabytes per parameter at 16 and at 4 bits (2 and 0.5 bytes, over 1024). */
  const MbPerParamFp16: real := 2.0 / 1024.0
  const MbPerParamInt4: real := 0.5 / 1024.0

  /** `Math.max(lo, Math.min(hi, n))`. */
  function Clamp(n: real, lo: real, hi: real): (r: real)
    ensures lo <= hi ==> lo <= r <= hi
    ensures lo <= n <= hi ==> r == n
    ensures n < lo ==> r == lo
    ensures lo <= hi && hi < n ==> r == hi
    ensures hi < lo ==> r == lo
  {
    Max(lo, Min(hi, n))
  }

  datatype Device = DesktopBrowser | MobileBrowser | Server

  datatype DeviceProfile = DeviceProfile(speedMul: real, memMul: real)

  /** The fixed device table. */
  function Profile(d: Device): (r: DeviceProfile)
    ensures r.speedMul > 0.0 && r.memMul == 1.0
    ensures d == DesktopBrowser ==> r.speedMul == 1.0
    ensures d == MobileBrowser ==> r.speedMul == 0.55
    ensures d == Server ==> r.speedMul == 3.2
  {
    match d
    case DesktopBrowser => DeviceProfile(1.0, 1.0)
    case MobileBrowser => DeviceProfile(0.55, 1.0)
    case Server => DeviceProfile(3.2, 1.0)
  }

  datatype Metrics = Metrics(
    weightMB: real,
    kvTotalMB: real,
    memMB: real,
    baseTPS: real,
    ttfbMs: real,
    downloadMB: real)

  /** The parameter count (in millions) the formulas actually use. */
  function EffectiveParams(paramsM: real): (p: real)
    ensures 1.0 <= p <= 2000.0
    ensures 1.0 <= paramsM <= 2000.0 ==> p == paramsM
  {
    Clamp(paramsM, 1.0, 2000.0)
  }

  /** Throughput penalty for contexts longer than 1024 tokens. */
  function ContextFactor(contextLen: int): (f: real)
    ensures f >= 1.0
    ensures contextLen <= 1024 ==> f == 1.0
  {
    Max(1.0, 1.0 + (contextLen - 1024) as real / 4096.0)
  }

  /** 4-bit weights are taken to be 15% faster. */
  function QuantFactor(quantBits: int): (q: real)
    ensures q >= 1.0
    ensures quantBits == 4 <==> q == 1.15
    ensures quantBits != 4 ==> q == 1.0
  {
    if quantBits == 4 then 1.15 else 1.0
  }

  /** Weight size in MB of `p` million parameters. */
  function WeightMB(p: real, quantBits: int): (w: real)
    requires p > 0.0
    ensures w > 0.0
  {
    if quantBits == 4 then p * (MbPerParamInt4 * 1000.0) else p * (MbPerParamFp16 * 1000.0)
  }

  /** KV cache in MB: each context token adds 0.0008 MB per million parameters. */
  function KvTotalMB(p: real, contextLen: int): real
  {
    var kvPerTokMB := 0.0008 * p;
    kvPerTokMB * contextLen as real
  }

  /** Tokens per second: 2000 / (p x context factor), scaled by device and precision. */
  function BaseTPS(p: real, contextLen: int, quantBits: int, speedMul: real): (t: real)
    requires p >= 1.0 && speedMul > 0.0
    ensures t > 0.0
  {
    var k := 2000.0;
    var contextFactor := ContextFactor(contextLen);
    MulAtLeastOne(p, contextFactor);
    var tps := k / (p * contextFactor);
    PositiveProduct(tps, speedMul * QuantFactor(quantBits));
    tps * (speedMul * QuantFactor(quantBits))
  }

  /** First-token latency in ms. */
  function TtfbMs(p: real, speedMul: real): (t: real)
    requires speedMul > 0.0
    ensures t > 0.0
  {
    Clamp(120.0 + p * 0.6, 80.0, 2200.0) / speedMul
  }

  /** The body of `useMetrics`. */
  function UseMetrics(paramsM: real, contextLen: int, quantBits: int, device: Device): (m: Metrics)
    ensures m.downloadMB == m.weightMB
    ensures m.memMB == m.weightMB + m.kvTotalMB
    ensures m.weightMB > 0.0 && m.baseTPS > 0.0 && m.ttfbMs > 0.0
    ensures contextLen >= 0 ==> m.kvTotalMB >= 0.0 && m.memMB >= m.weightMB
  {
    var p := Clamp(paramsM, 1.0, 2000.0);
    var speedMul := Profile(device).speedMul;
    var weightMB := WeightMB(p, quantBits);
    var kvTotalMB := KvTotalMB(p, contextLen);
    var baseTPS := BaseTPS(p, contextLen, quantBits, speedMul);
    var ttfbMs := TtfbMs(p, speedMul);
    var downloadMB := weightMB;
    var memMB := weightMB + kvTotalMB;
    Metrics(weightMB, kvTotalMB, memMB, baseTPS, ttfbMs, downloadMB)
  }

  /** Labels shown beside the parameter slider, chosen from five size bands. */
  function BadgesForParams(p: real): (labels: seq<string>)
    ensures |labels| == 4
  {
    if p <= 20.0 then ["On-device classify", "Regex+", "Smart autocomplete", "IoT edge"]
    else if p <= 60.0 then ["Mobile chat", "Intent+slots", "RAG lite", "Fast rewriter"]
    else if p <= 200.0 then ["Assistant (short ctx)", "Summarizer", "Code hints", "Multi-lingual lite"]
    else if p <= 600.0 then ["General chat", "Reasoning-lite", "RAG heavy", "Enterprise on-device"]
    else ["LLM territory", "Server heavy", "Long ctx", "Tool use"]
  }

  /** The size band (0 to 4) a parameter count falls in, by its upper bounds
      20, 60, 200 and 600. */
  function BadgeBand(p: real): (band: nat)
    ensures band < 5
    ensures band == 0 <==> p <= 20.0
    ensures band <= 1 <==> p <= 60.0
    ensures band <= 2 <==> p <= 200.0
    ensures band <= 3 <==> p <= 600.0
  {
    if p <= 20.0 then 0 else if p <= 60.0 then 1 else if p <= 200.0 then 2
    else if p <= 600.0 then 3 else 4
  }

  /** The fixed 7B comparison model. */
  datatype Comparison = Comparison(tps: real, dlMB: real)

  /** The 7000M baseline, with no clamp, no context factor and no quant factor. */
  function LlmCompare(device: Device): (c: Comparison)
    ensures c.tps > 0.0
  {
    var p := 7000.0;
    var k := 2000.0;
    var tps := (k / p) * Profile(device).speedMul;
    var dlMB := p * (MbPerParamInt4 * 1000.0);
    Comparison(tps, dlMB)
  }

  /** `prettyMB` decides between megabytes and gigabytes; the amount is the
      number it then prints (before `toFixed` rounds it). */
  datatype SizeText = Megabytes(amount: real) | Gigabytes(amount: real)

  function PrettyMB(x: real): (t: SizeText)
    ensures t.Megabytes? <==> x < 1024.0
    ensures t.Gigabytes? ==> t.amount >= 1.0
    ensures InMegabytes(t) == x
  {
    if x < 1024.0 then Megabytes(x) else Gigabytes(x / 1024.0)
  }

  /** The quantity a `SizeText` denotes, in megabytes. */
  function InMegabytes(t: SizeText): real
  {
    match t
    case Megabytes(a) => a
    case Gigabytes(a) => a * 1024.0
  }

  // ------------------------------------------------------- real arithmetic

  lemma MulAtLeastOne(a: real, b: real)
    requires a >= 1.0 && b >= 1.0
    ensures a * b >= 1.0
  {
    assert a * b >= a * 1.0;
  }

  lemma PositiveProduct(a: real, b: real)
    requires a > 0.0 && b > 0.0
    ensures a * b > 0.0
  {
  }

  lemma DivAntitone(k: real, x: real, y: real)
    requires k >= 0.0 && 0.0 < x <= y
    ensures k / y <= k / x
  {
  }

  lemma MulLeftMonotone(p: real, a: real, b: real)
    requires p >= 0.0 && a <= b
    ensures p * a <= p * b
  {
    assert p * b - p * a == p * (b - a);
  }

  // ---------------------------------------------------------------- lemmas

  /** Out-of-range parameter counts give the metrics of the nearest bound. */
  lemma MetricsUseClampedParams(paramsM: real, contextLen: int, quantBits: int, device: Device)
    ensures UseMetrics(paramsM, contextLen, quantBits, device)
         == UseMetrics(EffectiveParams(paramsM), contextLen, quantBits, device)
    ensures paramsM < 1.0 ==>
              UseMetrics(paramsM, contextLen, quantBits, device) == UseMetrics(1.0, contextLen, quantBits, device)
    ensures paramsM > 2000.0 ==>
              UseMetrics(paramsM, contextLen, quantBits, device) == UseMetrics(2000.0, contextLen, quantBits, device)
  {
  }

  /** Weight size and KV cache: 0.48828125 MB per million parameters at 4 bits,
      1.953125 otherwise (exactly four times as much), and 0.0008 MB per
      million parameters per context token. */
  lemma WeightAndCacheSizes(paramsM: real, contextLen: int, device: Device)
    ensures UseMetrics(paramsM, contextLen, 4, device).weightMB == EffectiveParams(paramsM) * 0.48828125
    ensures UseMetrics(paramsM, contextLen, 16, device).weightMB == EffectiveParams(paramsM) * 1.953125
    ensures UseMetrics(paramsM, contextLen, 16, device).weightMB
         == 4.0 * UseMetrics(paramsM, contextLen, 4, device).weightMB
    ensures UseMetrics(paramsM, contextLen, 4, device).kvTotalMB
         == 0.0008 * EffectiveParams(paramsM) * contextLen as real
    ensures UseMetrics(paramsM, contextLen, 4, device).kvTotalMB
         == UseMetrics(paramsM, contextLen, 16, device).kvTotalMB
  {
  }

  /** A longer context never shrinks the KV cache and never raises throughput. */
  lemma LongerContextCostsMore(paramsM: real, c1: int, c2: int, quantBits: int, device: Device)
    requires c1 <= c2
    ensures UseMetrics(paramsM, c1, quantBits, device).kvTotalMB
         <= UseMetrics(paramsM, c2, quantBits, device).kvTotalMB
    ensures UseMetrics(paramsM, c2, quantBits, device).baseTPS
         <= UseMetrics(paramsM, c1, quantBits, device).baseTPS
  {
    var p := EffectiveParams(paramsM);
    MulLeftMonotone(0.0008 * p, c1 as real, c2 as real);
    assert KvTotalMB(p, c1) <= KvTotalMB(p, c2);
    BaseTPSAntitoneInContext(p, c1, c2, quantBits, Profile(device).speedMul);
  }

  lemma BaseTPSAntitoneInContext(p: real, c1: int, c2: int, quantBits: int, speedMul: real)
    requires p >= 1.0 && speedMul > 0.0 && c1 <= c2
    ensures BaseTPS(p, c2, quantBits, speedMul) <= BaseTPS(p, c1, quantBits, speedMul)
  {
    var f1, f2 := ContextFactor(c1), ContextFactor(c2);
    MulLeftMonotone(p, f1, f2);
    MulAtLeastOne(p, f1);
    var x, y := p * f1, p * f2;
    DivAntitone(2000.0, x, y);
    var g := speedMul * QuantFactor(quantBits);
    MulLeftMonotone(g, 2000.0 / y, 2000.0 / x);
  }

  lemma BaseTPSAntitoneInParams(p1: real, p2: real, contextLen: int, quantBits: int, speedMul: real)
    requires 1.0 <= p1 <= p2 && speedMul > 0.0
    ensures BaseTPS(p2, contextLen, quantBits, speedMul) <= BaseTPS(p1, contextLen, quantBits, speedMul)
  {
    var f := ContextFactor(contextLen);
    MulLeftMonotone(f, p1, p2);
    MulAtLeastOne(p1, f);
    var x, y := p1 * f, p2 * f;
    DivAntitone(2000.0, x, y);
    var g := speedMul * QuantFactor(quantBits);
    MulLeftMonotone(g, 2000.0 / y, 2000.0 / x);
  }

  /** Throughput is proportional to the device's speed multiplier. */
  lemma ThroughputScalesWithDevice(paramsM: real, contextLen: int, quantBits: int)
    ensures UseMetrics(paramsM, contextLen, quantBits, Server).baseTPS
         == 3.2 * UseMetrics(paramsM, contextLen, quantBits, DesktopBrowser).baseTPS
    ensures UseMetrics(paramsM, contextLen, quantBits, MobileBrowser).baseTPS
         == 0.55 * UseMetrics(paramsM, contextLen, quantBits, DesktopBrowser).baseTPS
  {
  }

  /** 4-bit throughput is exactly 1.15 times the 16-bit throughput. */
  lemma ThroughputByPrecision(paramsM: real, contextLen: int, device: Device)
    ensures UseMetrics(paramsM, contextLen, 4, device).baseTPS
         == 1.15 * UseMetrics(paramsM, contextLen, 16, device).baseTPS
  {
  }

  /** For every admissible parameter count the latency clamp never binds:
      latency times the speed multiplier is 120 + 0.6 p, between 120.6 and 1320. */
  lemma FirstTokenLatencyRange(paramsM: real, contextLen: int, quantBits: int, device: Device)
    ensures UseMetrics(paramsM, contextLen, quantBits, device).ttfbMs * Profile(device).speedMul
         == 120.0 + 0.6 * EffectiveParams(paramsM)
    ensures 120.6 <= UseMetrics(paramsM, contextLen, quantBits, device).ttfbMs * Profile(device).speedMul <= 1320.0
  {
  }

  /** The defaults (50M, 1024 tokens, desktop, 4-bit). */
  lemma DefaultMetrics()
    ensures UseMetrics(50.0, 1024, 4, DesktopBrowser)
         == Metrics(24.4140625, 40.96, 65.3740625, 46.0, 150.0, 24.4140625)
  {
  }

  /** Two parameter counts get the same badges exactly when they fall in the
      same band. */
  lemma BadgesFollowBands(p: real, q: real)
    ensures BadgesForParams(p) == BadgesForParams(q) <==> BadgeBand(p) == BadgeBand(q)
  {
    if BadgeBand(p) != BadgeBand(q) {
      assert BadgesForParams(p)[0] != BadgesForParams(q)[0];
    }
  }

  /** A larger parameter count never falls in a smaller band. */
  lemma BadgeBandMonotone(p: real, q: real)
    requires p <= q
    ensures BadgeBand(p) <= BadgeBand(q)
  {
  }

  /** The baseline: 2000/7000 tokens per second times the speed multiplier and
      7000 x 0.48828125 MB, whatever the context and precision. */
  lemma BaselineValues(device: Device)
    ensures LlmCompare(device).tps == 2.0 / 7.0 * Profile(device).speedMul
    ensures LlmCompare(device).dlMB == 3417.96875
  {
  }

  /** The baseline is not the engine run at 7000M: the engine clamps to 2000M,
      so its download is smaller, and it applies the 4-bit speed-up. */
  lemma BaselineIsNotTheEngine(contextLen: int, device: Device)
    requires contextLen <= 8192
    ensures UseMetrics(7000.0, contextLen, 4, device).downloadMB == 976.5625
    ensures UseMetrics(7000.0, contextLen, 4, device).downloadMB < LlmCompare(device).dlMB
    ensures UseMetrics(7000.0, contextLen, 4, device).baseTPS > LlmCompare(device).tps
    ensures contextLen <= 1024 ==>
              UseMetrics(7000.0, contextLen, 4, device).baseTPS == 1.15 * Profile(device).speedMul
  {
    SmallModelOutpacesBaseline(7000.0, contextLen, 4, device);
    var s := Profile(device).speedMul;
    if contextLen <= 1024 {
      assert UseMetrics(7000.0, contextLen, 4, device).baseTPS == 2000.0 / 2000.0 * (s * 1.15);
    }
  }

  /** Within the slider ranges (up to 2000M and 8192 tokens) the small model is
      always faster than the baseline on the same device. */
  lemma SmallModelOutpacesBaseline(paramsM: real, contextLen: int, quantBits: int, device: Device)
    requires contextLen <= 8192
    ensures UseMetrics(paramsM, contextLen, quantBits, device).baseTPS > LlmCompare(device).tps
  {
    var p := EffectiveParams(paramsM);
    var s := Profile(device).speedMul;
    var q := QuantFactor(quantBits);
    BaseTPSAntitoneInContext(p, contextLen, 8192, quantBits, s);
    BaseTPSAntitoneInParams(p, 2000.0, 8192, quantBits, s);
    assert ContextFactor(8192) == 2.75;
    assert BaseTPS(2000.0, 8192, quantBits, s) == 2000.0 / 5500.0 * (s * q);
    MulLeftMonotone(s, 1.0, q);
    MulLeftMonotone(2000.0 / 5500.0, s, s * q);
  }

  /** The unit switch happens at 1024 MB, and the printed amount converts back
      to the same size. */
  lemma PrettyMBThreshold()
    ensures PrettyMB(1023.0) == Megabytes(1023.0)
    ensures PrettyMB(1024.0) == Gigabytes(1.0)
    ensures PrettyMB(3417.96875).Gigabytes?
  {
  }
}
