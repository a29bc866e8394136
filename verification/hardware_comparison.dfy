/** The hardware comparison chart: one row of bars per metric (compute, memory capacity,
    memory bandwidth, efficiency), one bar per table entry, each bar's height its figure
    normalised against the row's maximum and scaled to five units. */
module HardwareComparison {
  import opened Vectors
  import opened NumericExtract
  import opened GpuModels

  /** A bar of the chart; its colour is left out. */
  datatype MetricBar = MetricBar(caption: string, value: real, maxValue: real, position: Vec3)

  datatype ComparisonMetrics = ComparisonMetrics(
    tflops: seq<MetricBar>,
    memory: seq<MetricBar>,
    bandwidth: seq<MetricBar>,
    efficiency: seq<MetricBar>)

  /** The four rows of the chart. */
  datatype Category = TflopsRow | MemoryRow | BandwidthRow | EfficiencyRow

  /** Depth of a row: the rows are 2 units apart. */
  function RowZ(c: Category): real {
    match c
    case TflopsRow => 0.0
    case MemoryRow => 2.0
    case BandwidthRow => 4.0
    case EfficiencyRow => 6.0
  }

  /** The figure each row is normalised against: 2000 TFLOPS, 200 GB, 6 TB/s, 3 TFLOPS/W. */
  function MaxValue(c: Category): (m: real)
    ensures m > 0.0
  {
    match c
    case TflopsRow => 2000.0
    case MemoryRow => 200.0
    case BandwidthRow => 6.0
    case EfficiencyRow => 3.0
  }

  /** The display string a row reads its figure from. */
  function Source(c: Category, g: GpuSpec): string {
    match c
    case TflopsRow => g.compute.tflops
    case MemoryRow => g.memory.capacity
    case BandwidthRow => g.memory.bandwidth
    case EfficiencyRow => g.performance.efficiency
  }

  /** The figure of a bar: the integer extractor for the memory capacity, the decimal
      extractor for the other three rows. */
  function Reading(c: Category, g: GpuSpec): (v: real)
    ensures v >= 0.0
  {
    Figure(c == MemoryRow, Source(c, g))
  }

  function Figure(integral: bool, s: string): (v: real)
    ensures v >= 0.0
  {
    if integral then ExtractInteger(s) as real else ExtractDecimal(s)
  }

  function Label(c: Category, g: GpuSpec): string {
    match c
    case TflopsRow => g.name + "\n" + g.compute.tflops
    case MemoryRow => g.memory.capacity + "\n" + g.memory.memoryType
    case BandwidthRow => g.memory.bandwidth
    case EfficiencyRow => g.performance.efficiency
  }

  /** Horizontal offset of the bars of the entry at `index`: the three entries sit at
      x = -2, 0 and 2. */
  function XOffset(index: nat): real {
    (index as real - 1.0) * 2.0
  }

  function Bar(c: Category, g: GpuSpec, index: nat): MetricBar {
    MetricBar(Label(c, g), Reading(c, g), MaxValue(c), Vec3(XOffset(index), 0.0, RowZ(c)))
  }

  /** The bars of one row for `entries`, built the way the chart pushes them: one bar
      per entry, in the entries' order, bar `i` at the `i`-th offset. */
  function RowBars(c: Category, entries: seq<GpuSpec>): (bars: seq<MetricBar>)
    ensures |bars| == |entries|
    ensures forall i :: 0 <= i < |bars| ==>
      bars[i].value == Reading(c, entries[i]) && bars[i].maxValue == MaxValue(c)
        && bars[i].position == Vec3(XOffset(i), 0.0, RowZ(c)) && bars[i].caption == Label(c, entries[i])
  {
    seq(|entries|, i requires 0 <= i < |entries| => Bar(c, entries[i], i))
  }

  /** `calculateMetrics` over the given entries: each row gets one bar per entry in
      order, all four bars of an entry share its x offset, and every bar's figure is
      its row's reading of that entry. */
  method CalculateMetrics(entries: seq<GpuSpec>) returns (m: ComparisonMetrics)
    ensures m.tflops == RowBars(TflopsRow, entries)
    ensures m.memory == RowBars(MemoryRow, entries)
    ensures m.bandwidth == RowBars(BandwidthRow, entries)
    ensures m.efficiency == RowBars(EfficiencyRow, entries)
  {
    m := ComparisonMetrics([], [], [], []);
    var index := 0;
    while index < |entries|
      invariant index <= |entries|
      invariant m.tflops == RowBars(TflopsRow, entries[..index])
      invariant m.memory == RowBars(MemoryRow, entries[..index])
      invariant m.bandwidth == RowBars(BandwidthRow, entries[..index])
      invariant m.efficiency == RowBars(EfficiencyRow, entries[..index])
    {
      var gpu := entries[index];
      RowBarsExtend(TflopsRow, entries, index);
      RowBarsExtend(MemoryRow, entries, index);
      RowBarsExtend(BandwidthRow, entries, index);
      RowBarsExtend(EfficiencyRow, entries, index);
      m := ComparisonMetrics(
        m.tflops + [Bar(TflopsRow, gpu, index)],
        m.memory + [Bar(MemoryRow, gpu, index)],
        m.bandwidth + [Bar(BandwidthRow, gpu, index)],
        m.efficiency + [Bar(EfficiencyRow, gpu, index)]);
      index := index + 1;
    }
    assert entries[..index] == entries;
  }

  /** One more entry adds one bar at the end of the row, at the next offset. */
  lemma RowBarsExtend(c: Category, entries: seq<GpuSpec>, n: nat)
    requires n < |entries|
    ensures RowBars(c, entries[..n + 1]) == RowBars(c, entries[..n]) + [Bar(c, entries[n], n)]
  {
    var longer := RowBars(c, entries[..n + 1]);
    var shorter := RowBars(c, entries[..n]);
    assert forall i :: 0 <= i < n ==> longer[i] == shorter[i];
  }

  /** Height of a bar: its figure over its maximum, times five; not clamped. It stays
      within five units exactly when the figure does not exceed the maximum, and a 0
      figure gives a flat bar. */
  function BarHeight(bar: MetricBar): (h: real)
    requires bar.maxValue > 0.0
    ensures h <= 5.0 <==> bar.value <= bar.maxValue
    ensures 0.0 <= h <==> 0.0 <= bar.value
    ensures bar.value == 0.0 ==> h == 0.0
  {
    HeightScales(bar.value, bar.maxValue);
    bar.value / bar.maxValue * 5.0
  }

  lemma HeightScales(v: real, m: real)
    requires m > 0.0
    ensures v / m * 5.0 <= 5.0 <==> v <= m
    ensures 0.0 <= v / m * 5.0 <==> 0.0 <= v
  {
    var q := v / m;
    assert q * m == v;
    ScaleByPositive(q, m);
  }

  lemma ScaleByPositive(q: real, m: real)
    requires m > 0.0
    ensures q <= 1.0 <==> q * m <= m
    ensures 0.0 <= q <==> 0.0 <= q * m
  {
  }

  /** A display string without a digit makes the extractor fall back to 0, and the
      bar is flat. */
  lemma FallbackBarIsFlat(c: Category, g: GpuSpec, index: nat)
    requires !HasDigit(Source(c, g))
    ensures Reading(c, g) == 0.0
    ensures BarHeight(Bar(c, g, index)) == 0.0
  {
    NoDigitFallsBackToZero(Source(c, g));
  }

  /** The four figures of an entry are at most 2000, 200, 6 and 3. */
  predicate FiguresWithinMaxima(g: GpuSpec) {
    && ExtractDecimal(g.compute.tflops) <= 2000.0
    && ExtractInteger(g.memory.capacity) <= 200
    && ExtractDecimal(g.memory.bandwidth) <= 6.0
    && ExtractDecimal(g.performance.efficiency) <= 3.0
  }

  /** The bars of an entry whose figures are within the maxima are between 0 and 5
      units high. */
  lemma BarsOfEntryWithinFiveUnits(c: Category, entries: seq<GpuSpec>, i: nat)
    requires i < |entries| && FiguresWithinMaxima(entries[i])
    ensures 0.0 <= BarHeight(RowBars(c, entries)[i]) <= 5.0
  {
    var bar := RowBars(c, entries)[i];
    assert bar.value == Reading(c, entries[i]) && bar.maxValue == MaxValue(c);
  }
}

/** The chart drawn from the shipped table: every bar stays within five units. */
module ShippedComparison {
  import opened GpuModels
  import opened HardwareComparison

  /** On the shipped table no bar of the chart rises above five units or below zero. */
  lemma ShippedBarsAtMostFiveUnits(c: Category, i: nat)
    requires i < |Table()|
    ensures 0.0 <= BarHeight(RowBars(c, Table())[i]) <= 5.0
  {
    ShippedFiguresWithinMaxima(i);
    BarsOfEntryWithinFiveUnits(c, Table(), i);
  }

  /** Every entry of the shipped table has its figures within the chart's maxima. */
  lemma ShippedFiguresWithinMaxima(i: nat)
    requires i < |Table()|
    ensures FiguresWithinMaxima(Table()[i])
  {
    if i == 0 {
      A100WithinMaxima();
    } else if i == 1 {
      H100WithinMaxima();
    } else {
      MI300XWithinMaxima();
    }
  }

  lemma A100WithinMaxima()
    ensures FiguresWithinMaxima(Table()[0])
  {
    FiguresOfA100();
  }

  lemma H100WithinMaxima()
    ensures FiguresWithinMaxima(Table()[1])
  {
    FiguresOfH100();
  }

  lemma MI300XWithinMaxima()
    ensures FiguresWithinMaxima(Table()[2])
  {
    FiguresOfMI300X();
  }
}
