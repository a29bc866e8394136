/** The metric block of one server rack: power draw in watts, utilisation of the rack's
    power budget with its strict 80% warning threshold, total compute and memory from
    the per-GPU display strings, and the vertical spacing of the GPUs in the rack. */
module ServerRack {
  import opened NumericExtract
  import opened GpuModels

  /** The props the metric block reads; the other props only place or colour meshes. */
  datatype RackProps = RackProps(gpuModel: ModelKey, gpuCount: nat, load: real, powerCapacity: real)

  /** A 15 kW rack of eight H100s at half load. */
  const DefaultProps: RackProps := RackProps(H100, 8, 0.5, 15000.0)

  /** Utilisation strictly above this fraction is shown in the warning colour. */
  const WarningThreshold: real := 0.8

  /** Vertical distance between neighbouring GPUs in the rack. */
  const GpuSpacing: real := 0.3

  datatype RackMetrics = RackMetrics(
    totalPower: real,
    powerUtilization: real,
    tflopsPerGpu: real,
    totalTflops: real,
    memoryPerGpu: nat,
    totalMemory: nat)

  /** Power in watts drawn by `gpuCount` GPUs of thermal design power `tdp` at `load`. */
  function TotalPower(tdp: nat, gpuCount: nat, load: real): real {
    tdp as real * gpuCount as real * load
  }

  /** The fraction of the rack's power budget in use. */
  function Utilization(totalPower: real, powerCapacity: real): (u: real)
    requires powerCapacity > 0.0
    ensures u * powerCapacity == totalPower
    ensures totalPower <= powerCapacity <==> u <= 1.0
  {
    totalPower / powerCapacity
  }

  /** The rack's metric block from the per-GPU figures: the totals are the per-GPU
      figure times the GPU count, and the utilisation is the share of the budget the
      power draw takes. */
  function Totals(tdp: nat, tflopsPerGpu: real, memoryPerGpu: nat, p: RackProps): (m: RackMetrics)
    requires p.powerCapacity > 0.0
    ensures m.totalPower == TotalPower(tdp, p.gpuCount, p.load)
    ensures m.powerUtilization * p.powerCapacity == m.totalPower
    ensures m.tflopsPerGpu == tflopsPerGpu && m.memoryPerGpu == memoryPerGpu
    ensures m.totalTflops == tflopsPerGpu * p.gpuCount as real
    ensures m.totalMemory == memoryPerGpu * p.gpuCount
  {
    var power := TotalPower(tdp, p.gpuCount, p.load);
    RackMetrics(
      power,
      Utilization(power, p.powerCapacity),
      tflopsPerGpu,
      tflopsPerGpu * p.gpuCount as real,
      memoryPerGpu,
      memoryPerGpu * p.gpuCount)
  }

  /** The metric block of a rack of GPUs described by `spec`: the per-GPU compute is
      the decimal figure of the tflops string and the per-GPU memory the integer figure
      of the capacity string. */
  function Metrics(spec: GpuSpec, p: RackProps): (m: RackMetrics)
    requires p.powerCapacity > 0.0
    ensures m.totalPower == spec.power.tdp as real * p.gpuCount as real * p.load
    ensures m.powerUtilization * p.powerCapacity == m.totalPower
    ensures m.totalTflops == ExtractDecimal(spec.compute.tflops) * p.gpuCount as real
    ensures m.totalMemory == ExtractInteger(spec.memory.capacity) * p.gpuCount
  {
    Totals(spec.power.tdp, ExtractDecimal(spec.compute.tflops), ExtractInteger(spec.memory.capacity), p)
  }

  /** The metric block of the rack the props describe, read from the table entry of
      the rack's own GPU model. */
  function RackMetricsOf(p: RackProps): (m: RackMetrics)
    requires p.powerCapacity > 0.0
    ensures m.totalPower == TotalPower(Spec(p.gpuModel).power.tdp, p.gpuCount, p.load)
    ensures m.tflopsPerGpu == ExtractDecimal(Spec(p.gpuModel).compute.tflops)
    ensures m.memoryPerGpu == ExtractInteger(Spec(p.gpuModel).memory.capacity)
  {
    Metrics(Spec(p.gpuModel), p)
  }

  /** The per-GPU figures are the extractors' readings of the entry's display strings,
      and a string without a digit gives a per-GPU figure, and so a total, of 0. */
  lemma MetricsReadDisplayStrings(spec: GpuSpec, p: RackProps)
    requires p.powerCapacity > 0.0
    ensures Metrics(spec, p).tflopsPerGpu == ExtractDecimal(spec.compute.tflops)
    ensures Metrics(spec, p).memoryPerGpu == ExtractInteger(spec.memory.capacity)
    ensures !HasDigit(spec.compute.tflops) ==> Metrics(spec, p).totalTflops == 0.0
    ensures !HasDigit(spec.memory.capacity) ==> Metrics(spec, p).totalMemory == 0
  {
    if !HasDigit(spec.compute.tflops) {
      NoDigitFallsBackToZero(spec.compute.tflops);
    }
    if !HasDigit(spec.memory.capacity) {
      NoDigitFallsBackToZero(spec.memory.capacity);
    }
  }

  datatype PowerColor = Green | Red

  /** Colour of the power label and the power bar. */
  function PowerColorOf(utilization: real): (c: PowerColor)
    ensures c == Red <==> utilization > WarningThreshold
  {
    if utilization > WarningThreshold then Red else Green
  }

  /** In watts: the label of a rack drawing `power` from a positive budget turns red
      exactly when the draw exceeds 80% of the budget. */
  lemma RedAboveWarningShare(power: real, capacity: real)
    requires capacity > 0.0
    ensures PowerColorOf(Utilization(power, capacity)) == Red <==> power > WarningThreshold * capacity
  {
  }

  /** More load, or more GPUs at a non-negative load, never lowers the utilisation. */
  lemma UtilizationMonotone(tdp: nat, tflops: real, memory: nat, p: RackProps, load: real, gpuCount: nat)
    requires p.powerCapacity > 0.0
    ensures p.load <= load ==>
      Totals(tdp, tflops, memory, p).powerUtilization
        <= Totals(tdp, tflops, memory, p.(load := load)).powerUtilization
    ensures 0.0 <= p.load && p.gpuCount <= gpuCount ==>
      Totals(tdp, tflops, memory, p).powerUtilization
        <= Totals(tdp, tflops, memory, p.(gpuCount := gpuCount)).powerUtilization
  {
    var c := p.powerCapacity;
    if p.load <= load {
      PowerMonotoneInLoad(tdp as real, p.gpuCount as real, p.load, load);
      DivideMonotone(TotalPower(tdp, p.gpuCount, p.load), TotalPower(tdp, p.gpuCount, load), c);
    }
    if 0.0 <= p.load && p.gpuCount <= gpuCount {
      PowerMonotoneInCount(tdp as real, p.gpuCount as real, gpuCount as real, p.load);
      DivideMonotone(TotalPower(tdp, p.gpuCount, p.load), TotalPower(tdp, gpuCount, p.load), c);
    }
  }

  lemma PowerMonotoneInLoad(tdp: real, count: real, load1: real, load2: real)
    requires 0.0 <= tdp && 0.0 <= count && load1 <= load2
    ensures tdp * count * load1 <= tdp * count * load2
  {
    assert tdp * count >= 0.0;
  }

  lemma PowerMonotoneInCount(tdp: real, count1: real, count2: real, load: real)
    requires 0.0 <= tdp && 0.0 <= load && count1 <= count2
    ensures tdp * count1 * load <= tdp * count2 * load
  {
    assert tdp * count1 <= tdp * count2;
  }

  lemma DivideMonotone(a: real, b: real, c: real)
    requires a <= b && c > 0.0
    ensures a / c <= b / c
  {
  }

  /** The default rack draws 2800 W of its 15000 W budget, stays green, and totals
      8 × 989 TFLOPS and 8 × 141 GB. */
  lemma DefaultRackMetrics()
    ensures RackMetricsOf(DefaultProps).totalPower == 2800.0
    ensures RackMetricsOf(DefaultProps).powerUtilization * 15.0 == 2.8
    ensures PowerColorOf(RackMetricsOf(DefaultProps).powerUtilization) == Green
    ensures RackMetricsOf(DefaultProps).totalTflops == 7912.0
    ensures RackMetricsOf(DefaultProps).totalMemory == 1128
  {
    FiguresOfH100();
    var m := Metrics(Spec(H100), DefaultProps);
    assert m.totalPower == 2800.0;
    assert m.powerUtilization * 15000.0 == 2800.0;
  }

  /** Height of GPU `i` of `gpuCount` in the rack: the GPUs are stacked around the middle. */
  function GpuYOffset(i: nat, gpuCount: nat): real {
    (i as real - gpuCount as real / 2.0) * GpuSpacing
  }

  /** Neighbouring GPUs are exactly 0.3 apart, so no two GPUs of a rack share a height.
      The first GPU sits as far below the middle as one slot past the last would sit
      above it, so the stack itself is half a slot below the middle: the first and the
      last GPU are centred on -0.15. */
  lemma GpuSpacingIsUniform(i: nat, j: nat, gpuCount: nat)
    ensures GpuYOffset(i + 1, gpuCount) - GpuYOffset(i, gpuCount) == 0.3
    ensures i < j ==> GpuYOffset(i, gpuCount) < GpuYOffset(j, gpuCount)
    ensures GpuYOffset(0, gpuCount) == -GpuYOffset(gpuCount, gpuCount)
    ensures gpuCount >= 1 ==> GpuYOffset(0, gpuCount) + GpuYOffset(gpuCount - 1, gpuCount) == -0.3
  {
  }
}
