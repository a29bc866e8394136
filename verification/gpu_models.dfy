/** The hardware table: the `GPUSpec` record and the three shipped entries, with the
    figures the metric calculators read out of their display strings. Visual-only
    fields (dimensions, heat-sink, board and shroud colours and textures) and the
    descriptive blurbs (cooling solution, inference speed, training capability) are not
    modelled: nothing computes with them. */
module GpuModels {
  import opened Vectors
  import opened NumericExtract
  import opened ReadNumerals

  /** The keys of the table, `keyof typeof GPUModels`. */
  datatype ModelKey = A100 | H100 | MI300X

  datatype Fans = Fans(diameter: real, count: nat, positions: seq<Vec3>, maxRpm: nat)

  datatype Memory = Memory(capacity: string, memoryType: string, bandwidth: string)

  datatype Compute = Compute(tflops: string, architecture: string, tensorCores: nat)

  /** `tdp` is the thermal design power in watts. */
  datatype Power = Power(tdp: nat, maxTemp: nat)

  datatype Performance = Performance(efficiency: string)

  datatype GpuSpec = GpuSpec(
    name: string,
    fans: Fans,
    memory: Memory,
    compute: Compute,
    power: Power,
    performance: Performance,
    scale: real)

  /** The table's keys in the order `Object.entries` visits them (insertion order). */
  const TableOrder: seq<ModelKey> := [A100, H100, MI300X]

  function KeyName(k: ModelKey): string {
    match k
    case A100 => "A100"
    case H100 => "H100"
    case MI300X => "MI300X"
  }

  /** `GPUModels[k]`. */
  function Spec(k: ModelKey): GpuSpec {
    match k
    case A100 => A100Spec()
    case H100 => H100Spec()
    case MI300X => MI300XSpec()
  }

  // The display strings the metric calculators parse, one constant each.
  const A100Capacity: string := "80GB"
  const A100Bandwidth: string := "2 TB/s"
  const A100Tflops: string := "312 TFLOPS (FP16)"
  const A100Efficiency: string := "0.78 TFLOPS/W"
  const H100Capacity: string := "141GB"
  const H100Bandwidth: string := "3.9 TB/s"
  const H100Tflops: string := "989 TFLOPS (FP16), 1.98 PFLOPS (FP8)"
  const H100Efficiency: string := "1.41 TFLOPS/W"
  const MI300XCapacity: string := "192GB"
  const MI300XBandwidth: string := "5.3 TB/s"
  const MI300XTflops: string := "1.6 PFLOPS (FP16)"
  const MI300XEfficiency: string := "2.13 TFLOPS/W"

  /** The table's entries as `Object.entries` visits them, in `TableOrder`. */
  function Table(): seq<GpuSpec> {
    [Spec(A100), Spec(H100), Spec(MI300X)]
  }

  function A100Spec(): GpuSpec {
    GpuSpec(
      "NVIDIA A100",
      Fans(0.4, 3, [Vec3(-0.4, 0.26, 0.0), Vec3(0.0, 0.26, 0.0), Vec3(0.4, 0.26, 0.0)], 3000),
      Memory(A100Capacity, "HBM2e", A100Bandwidth),
      Compute(A100Tflops, "Ampere", 432),
      Power(400, 85),
      Performance(A100Efficiency),
      1.0)
  }

  function H100Spec(): GpuSpec {
    GpuSpec(
      "NVIDIA H100",
      Fans(0.45, 3, [Vec3(-0.45, 0.28, 0.0), Vec3(0.0, 0.28, 0.0), Vec3(0.45, 0.28, 0.0)], 3500),
      Memory(H100Capacity, "HBM3e", H100Bandwidth),
      Compute(H100Tflops, "Hopper", 528),
      Power(700, 90),
      Performance(H100Efficiency),
      1.2)
  }

  function MI300XSpec(): GpuSpec {
    GpuSpec(
      "AMD Instinct MI300X",
      Fans(0.42, 3, [Vec3(-0.42, 0.27, 0.0), Vec3(0.0, 0.27, 0.0), Vec3(0.42, 0.27, 0.0)], 3200),
      Memory(MI300XCapacity, "HBM3", MI300XBandwidth),
      Compute(MI300XTflops, "CDNA 3", 584),
      Power(750, 95),
      Performance(MI300XEfficiency),
      1.1)
  }

  // ---------------------------------------------------------------------------
  // Facts about the shipped table

  /** The table has exactly three entries, each key once, visited A100, H100, MI300X:
      entry i is the spec of the i-th key, and no two entries share a name. */
  lemma TableHasThreeEntriesInOrder()
    ensures |TableOrder| == 3
    ensures TableOrder[0] == A100 && TableOrder[1] == H100 && TableOrder[2] == MI300X
    ensures forall k: ModelKey :: k in TableOrder
    ensures forall i, j :: 0 <= i < j < |TableOrder| ==> TableOrder[i] != TableOrder[j]
    ensures forall i, j :: 0 <= i < j < |TableOrder| ==> KeyName(TableOrder[i]) != KeyName(TableOrder[j])
    ensures |Table()| == |TableOrder|
    ensures forall i :: 0 <= i < |TableOrder| ==> Table()[i] == Spec(TableOrder[i])
    ensures forall i, j :: 0 <= i < j < |Table()| ==> Table()[i].name != Table()[j].name
  {
    forall k: ModelKey
      ensures k in TableOrder
    {
      assert TableOrder[if k == A100 then 0 else if k == H100 then 1 else 2] == k;
    }
  }

  /** Every entry declares as many fans as it lists fan positions. */
  lemma FanCountMatchesPositions(k: ModelKey)
    ensures Spec(k).fans.count == |Spec(k).fans.positions|
  {
  }

  /** Every display string the calculators parse contains a digit, so their 0 fallback
      never fires on the shipped data. */
  lemma ParsedStringsHaveDigits(k: ModelKey)
    ensures HasDigit(Spec(k).memory.capacity)
    ensures HasDigit(Spec(k).memory.bandwidth)
    ensures HasDigit(Spec(k).compute.tflops)
    ensures HasDigit(Spec(k).performance.efficiency)
  {
    var g := Spec(k);
    assert IsDigit(g.memory.capacity[0]);
    assert IsDigit(g.memory.bandwidth[0]);
    assert IsDigit(g.compute.tflops[0]);
    assert IsDigit(g.performance.efficiency[0]);
  }

  // ---------------------------------------------------------------------------
  // The figures the extractors read from the table

  /** The figures the calculators read from each entry: tflops and bandwidth and
      efficiency through the decimal extractor, the capacity through the integer one.
      For the H100 the first numeral wins over the later "1.98"; for the MI300X the
      "PFLOPS" unit is ignored, so it reads 1.6. */
  lemma FiguresOfA100()
    ensures ExtractDecimal(Spec(A100).compute.tflops) == 312.0
    ensures ExtractInteger(Spec(A100).memory.capacity) == 80
    ensures ExtractDecimal(Spec(A100).memory.bandwidth) == 2.0
    ensures ExtractDecimal(Spec(A100).performance.efficiency) == 0.78
  {
    TflopsOfA100();
    CapacityOfA100();
    BandwidthOfA100();
    EfficiencyOfA100();
  }

  lemma FiguresOfH100()
    ensures ExtractDecimal(Spec(H100).compute.tflops) == 989.0
    ensures ExtractInteger(Spec(H100).memory.capacity) == 141
    ensures ExtractDecimal(Spec(H100).memory.bandwidth) == 3.9
    ensures ExtractDecimal(Spec(H100).performance.efficiency) == 1.41
  {
    TflopsOfH100();
    CapacityOfH100();
    BandwidthOfH100();
    EfficiencyOfH100();
  }

  lemma FiguresOfMI300X()
    ensures ExtractDecimal(Spec(MI300X).compute.tflops) == 1.6
    ensures ExtractInteger(Spec(MI300X).memory.capacity) == 192
    ensures ExtractDecimal(Spec(MI300X).memory.bandwidth) == 5.3
    ensures ExtractDecimal(Spec(MI300X).performance.efficiency) == 2.13
  {
    TflopsOfMI300X();
    CapacityOfMI300X();
    BandwidthOfMI300X();
    EfficiencyOfMI300X();
  }

  lemma TflopsOfA100()
    ensures ExtractDecimal(A100Tflops) == 312.0
  {
    DigitsValueOfAppend("3", '1');
    DigitsValueOfAppend("31", '2');
    DecimalOfLeadingDigits(A100Tflops, "312", 312.0);
  }

  lemma TflopsOfH100()
    ensures ExtractDecimal(H100Tflops) == 989.0
  {
    assert DigitsValue("989") == 989 by {
      DigitsValueOfAppend("9", '8');
      DigitsValueOfAppend("98", '9');
    }
    assert H100Tflops[..3] == "989" by {
      assert H100Tflops[0] == '9' && H100Tflops[1] == '8' && H100Tflops[2] == '9';
    }
    assert H100Tflops[3] == ' ';
    DecimalOfLeadingDigits(H100Tflops, "989", 989.0);
  }

  lemma TflopsOfMI300X()
    ensures ExtractDecimal(MI300XTflops) == 1.6
  {
    DecimalOfLeadingFraction(MI300XTflops, "1", "6");
  }

  lemma CapacityOfA100()
    ensures ExtractInteger(A100Capacity) == 80
  {
    DigitsValueOfAppend("8", '0');
    IntegerOfLeadingDigits(A100Capacity, "80", 80);
  }

  lemma CapacityOfH100()
    ensures ExtractInteger(H100Capacity) == 141
  {
    DigitsValueOfAppend("1", '4');
    DigitsValueOfAppend("14", '1');
    IntegerOfLeadingDigits(H100Capacity, "141", 141);
  }

  lemma CapacityOfMI300X()
    ensures ExtractInteger(MI300XCapacity) == 192
  {
    DigitsValueOfAppend("1", '9');
    DigitsValueOfAppend("19", '2');
    IntegerOfLeadingDigits(MI300XCapacity, "192", 192);
  }

  lemma BandwidthOfA100()
    ensures ExtractDecimal(A100Bandwidth) == 2.0
  {
    DecimalOfLeadingDigits(A100Bandwidth, "2", 2.0);
  }

  lemma BandwidthOfH100()
    ensures ExtractDecimal(H100Bandwidth) == 3.9
  {
    DecimalOfLeadingFraction(H100Bandwidth, "3", "9");
  }

  lemma BandwidthOfMI300X()
    ensures ExtractDecimal(MI300XBandwidth) == 5.3
  {
    DecimalOfLeadingFraction(MI300XBandwidth, "5", "3");
  }

  lemma EfficiencyOfA100()
    ensures ExtractDecimal(A100Efficiency) == 0.78
  {
    DecimalOfLeadingFraction(A100Efficiency, "0", "78");
  }

  lemma EfficiencyOfH100()
    ensures ExtractDecimal(H100Efficiency) == 1.41
  {
    DecimalOfLeadingFraction(H100Efficiency, "1", "41");
  }

  lemma EfficiencyOfMI300X()
    ensures ExtractDecimal(MI300XEfficiency) == 2.13
  {
    DecimalOfLeadingFraction(MI300XEfficiency, "2", "13");
  }
}
