# GPU visualisation core, modelled in Dafny

This project models the pure logic behind a 3D GPU-hardware visualisation. There are
four parts, and each is a set of immutable datatypes and pure functions.

- **Numeric extraction** (`numeric_extract.dfy`, modules `NumericExtract` and `ReadNumerals`).
  The server rack and the comparison chart read figures out of display strings such as
  `"989 TFLOPS (FP16), 1.98 PFLOPS (FP8)"`.
  - The decimal reader takes the first match of `\d+\.?\d*` and applies `parseFloat`.
  - The integer reader takes the first match of `\d+` and applies `parseInt`.
  - Both give 0 when there is no digit.
  - The matches are specified declaratively: the earliest start, then the longest numeral
    there. Their values are exact: a `real` that is the integer part plus `0.d1…dk`, and a `nat`.
- **The hardware table** (`gpu_models.dfy`, module `GpuModels`). This is the `GPUSpec`
  record and its three entries (A100, H100, MI300X), in iteration order, with the figures
  the readers get from each entry.
- **Rack and comparison metrics.**
  - `server_rack.dfy`, module `ServerRack`: the per-rack figures.
    - Power in watts is tdp × GPU count × load.
    - Utilisation is power over the rack's budget. It turns red strictly above 0.8.
    - Compute and memory totals are the per-GPU figure × count.
    - GPUs are stacked 0.3 apart.
  - `hardware_comparison.dfy`, modules `HardwareComparison` and `ShippedComparison`: the
    comparison chart.
    - It has four rows of bars, one bar per table entry, placed by entry index.
    - Each bar is as high as its figure over the row maximum × 5.
- **Warehouse layout** (`warehouse.dfy`, modules `Warehouse` and `WarehousePresets`).
  - The three preset clusters.
  - The near-square grid: `rows = ⌈√n⌉` and `cols = ⌈n / rows⌉`, computed on naturals.
  - Rack `i` sits in cell `(i div cols, i mod cols)`.
  - There is one cooling indicator per grid cell.
  - `n − 1` network links chain consecutive racks.
  - Power and compute are scaled by the load.
- **Camera animator** (`vector_space.dfy`, module `VectorSpace`). This is a two-state
  machine, idle or transitioning.
  - A view change starts a transition from the camera's current pose.
  - Each frame eases the progress `min(elapsed / duration, 1)`, puts the camera at the
    interpolated pose, and ends the transition once the duration has elapsed.
  - The wall clock, the camera's view direction and the easing curve are inputs.

`vectors.dfy` (exact 3-vectors with `lerpVectors`) and `optional.dfy` (an option type)
are shared helpers.

Two behaviours of the code are worth stating up front.
- Progress is capped at 1 (`vector-space.tsx:69`) and has no lower clamp, so a clock
  reading before the start gives negative progress (`VectorSpace.Progress`).
- The regular expressions are not anchored: the first digit anywhere starts the match,
  and whatever comes before it is skipped (`NumericExtract.NonDigitPrefixIgnored`).

## Model

| member | source | states |
|---|---|---|
| NumericExtract.MatchDecimal | src/components/visualization/models/server-rack.tsx:40 | The decimal pattern matches iff the string has a digit; the match is the earliest-starting, longest numeral of digits with at most one point |
| NumericExtract.MatchInteger | src/components/visualization/models/server-rack.tsx:45 | The integer pattern matches iff the string has a digit; the match is the earliest maximal digit run |
| NumericExtract.FirstDecimalMatchUnique | src/components/visualization/hardware-comparison.tsx:36 | The first match of the decimal pattern is unique, so the reading is well defined |
| NumericExtract.FirstIntegerMatchUnique | src/components/visualization/hardware-comparison.tsx:47 | The first match of the integer pattern is unique |
| NumericExtract.ExtractDecimalReadsFirstMatch | src/components/visualization/models/server-rack.tsx:40-41 | The decimal reader returns the value of the numeral the pattern's first match spans |
| NumericExtract.ExtractIntegerReadsFirstMatch | src/components/visualization/models/server-rack.tsx:45-46 | The integer reader returns the value of the digit run the first match spans |
| NumericExtract.DecimalAtFrontReadsNumeral | src/components/visualization/models/server-rack.tsx:41 | Reading at a digit takes the longest numeral there and returns its integer part plus its fraction |
| NumericExtract.ExtractorsReadAtFirstDigit | src/components/visualization/models/server-rack.tsx:40-46 | Both readers give 0 when no character is a digit, and otherwise read at the first digit |
| NumericExtract.NoDigitFallsBackToZero | src/components/visualization/models/server-rack.tsx:40-46 | A string without a digit reads as 0 through both readers |
| NumericExtract.NonDigitPrefixIgnored | src/components/visualization/models/server-rack.tsx:40-41 | The pattern is unanchored: any run of non-digits before the number does not change either reading |
| NumericExtract.IntegerBeforeUnit | src/components/visualization/models/server-rack.tsx:45-46 | A digit run followed by a unit reads as the run's value; the unit is ignored |
| NumericExtract.DecimalBeforeUnit | src/components/visualization/models/server-rack.tsx:40-41 | Digits followed by a non-digit, non-point unit read as their integer value |
| NumericExtract.DecimalWithFractionBeforeUnit | src/components/visualization/models/server-rack.tsx:40-41 | `d.f` followed by a unit reads as d plus 0.f |
| NumericExtract.ExtractDecimal | src/components/visualization/models/server-rack.tsx:40-41 | The decimal reader never gives a negative figure; which numeral it reads is stated by ExtractDecimalReadsFirstMatch |
| NumericExtract.ExtractInteger | src/components/visualization/models/server-rack.tsx:45-46 | The integer reader stops at the point: its reading is the integral part of the decimal reading of the same string; which run it reads is stated by ExtractIntegerReadsFirstMatch |
| NumericExtract.FractionValue | src/components/visualization/models/server-rack.tsx:41 | The fraction digits after the point contribute a value in [0, 1) |
| GpuModels.TableHasThreeEntriesInOrder | src/components/visualization/models/gpu-models.ts:59-224 | The table has exactly three distinct keys, visited A100, H100, MI300X; the table the chart iterates holds entry i = the spec of the i-th key, and no two entries share a name |
| GpuModels.FanCountMatchesPositions | src/components/visualization/models/gpu-models.ts:81-198 | Every entry declares as many fans as it lists fan positions |
| GpuModels.ParsedStringsHaveDigits | src/components/visualization/models/gpu-models.ts:94-221 | Each capacity, bandwidth, tflops and efficiency string has a digit, so the 0 fallback never fires on the table |
| GpuModels.FiguresOfA100 | src/components/visualization/models/gpu-models.ts:94-111 | The A100 strings read as 312 TFLOPS, 80 GB, 2 TB/s and 0.78 TFLOPS/W |
| GpuModels.FiguresOfH100 | src/components/visualization/models/gpu-models.ts:149-166 | The H100 strings read as 989 (the first numeral wins over the later 1.98), 141, 3.9 and 1.41 |
| GpuModels.FiguresOfMI300X | src/components/visualization/models/gpu-models.ts:204-221 | The MI300X strings read as 1.6 (its PFLOPS unit is ignored), 192, 5.3 and 2.13 |
| ServerRack.Utilization | src/components/visualization/models/server-rack.tsx:37 | Utilisation times the budget is the power draw; it is at most 1 iff the draw fits the budget |
| ServerRack.Totals | src/components/visualization/models/server-rack.tsx:36-47 | Power is tdp × count × load; the compute and memory totals are the per-GPU figure × count; utilisation × budget = power |
| ServerRack.Metrics | src/components/visualization/models/server-rack.tsx:36-47 | A rack of GPUs described by a table entry draws tdp × count × load watts, its utilisation × budget is that draw, and its compute and memory totals are the readers' figures of the entry's tflops and capacity strings × count |
| ServerRack.RackMetricsOf | src/components/visualization/models/server-rack.tsx:33-47 | The rack's figures come from the table entry of its own GPU model: its power from that entry's tdp, its per-GPU compute and memory from that entry's strings |
| ServerRack.MetricsReadDisplayStrings | src/components/visualization/models/server-rack.tsx:40-47 | The per-GPU figures are the readers' values of the tflops and capacity strings; a string without a digit gives a total of 0 |
| ServerRack.PowerColorOf | src/components/visualization/models/server-rack.tsx:98 | The label is red iff utilisation exceeds 0.8, so exactly 0.8 is still green |
| ServerRack.RedAboveWarningShare | src/components/visualization/models/server-rack.tsx:37-98 | For a positive budget the label is red iff the draw in watts exceeds 0.8 × the budget |
| ServerRack.UtilizationMonotone | src/components/visualization/models/server-rack.tsx:36-37 | More load, or more GPUs at a non-negative load, never lowers utilisation |
| ServerRack.DefaultRackMetrics | src/components/visualization/models/server-rack.tsx:24-47 | The default rack (8 H100 at half load, 15 kW) draws 2800 W, stays green, and totals 7912 TFLOPS and 1128 GB |
| ServerRack.GpuSpacingIsUniform | src/components/visualization/models/server-rack.tsx:68-69 | Neighbouring GPUs are 0.3 apart, heights strictly increase with the index, and the stack sits half a slot below the rack's centre: the first GPU is as far below the middle as one slot past the last would be above it, so the first and last GPU are centred on −0.15 |
| HardwareComparison.RowBars | src/components/visualization/hardware-comparison.tsx:32-78 | A row has one bar per entry in entry order; bar i carries the entry's reading, the row maximum, x = (i − 1) × 2 and the row's z |
| HardwareComparison.CalculateMetrics | src/components/visualization/hardware-comparison.tsx:23-81 | The loop's four lists are exactly the four rows' bars over all entries |
| HardwareComparison.BarHeight | src/components/visualization/hardware-comparison.tsx:87 | Height is at most 5 iff the value is at most the maximum, non-negative iff the value is, and 0 for a 0 value (no clamping) |
| HardwareComparison.FallbackBarIsFlat | src/components/visualization/hardware-comparison.tsx:36-77 | A display string without a digit gives a reading of 0 and a bar of height 0 |
| HardwareComparison.BarsOfEntryWithinFiveUnits | src/components/visualization/hardware-comparison.tsx:87 | An entry whose figures are within the row maxima gets bars between 0 and 5 high |
| ShippedComparison.ShippedFiguresWithinMaxima | src/components/visualization/models/gpu-models.ts:94-221 | Every table entry's figures are within 2000, 200, 6 and 3 |
| ShippedComparison.ShippedBarsAtMostFiveUnits | src/components/visualization/hardware-comparison.tsx:36-87 | Every bar of the shipped chart is between 0 and 5 units high |
| Warehouse.CeilSqrt | src/components/visualization/models/warehouse.tsx:70 | The row count's square reaches the rack count, and its predecessor's square does not |
| Warehouse.CeilSqrtIsLeast | src/components/visualization/models/warehouse.tsx:70 | The row count is the least natural whose square reaches the rack count |
| Warehouse.CeilDiv | src/components/visualization/models/warehouse.tsx:71 | The rounded-up quotient times the divisor reaches the dividend; one less does not |
| Warehouse.CeilDivIsLeast | src/components/visualization/models/warehouse.tsx:71 | The rounded-up quotient is the least q with q × divisor ≥ dividend |
| Warehouse.GridOf | src/components/visualization/models/warehouse.tsx:70-71 | For at least one rack: rows and cols are positive, rows × cols seats every rack, one column fewer would not seat every rack, and cols ≤ rows |
| Warehouse.CellOf | src/components/visualization/models/warehouse.tsx:81-82 | Rack i's cell has column below cols, and row × cols + column = i |
| Warehouse.CellIndexRoundTrip | src/components/visualization/models/warehouse.tsx:81-82 | Index to cell and cell to index are inverse, so distinct racks get distinct cells |
| Warehouse.CellInGrid | src/components/visualization/models/warehouse.tsx:80-82 | Every rack index below the rack count lands inside the rows × cols grid |
| Warehouse.CellPositionsSeparate | src/components/visualization/models/warehouse.tsx:86-90 | Distinct cells get distinct positions, neighbours 2.5 apart, all within half the grid's extent of the origin |
| Warehouse.SceneOf | src/components/visualization/models/warehouse.tsx:67-205 | The scene has one rack per rack count, rackCount − 1 links with the performance overlay, and a row of indicators per grid row with the thermal overlay |
| Warehouse.WarehouseOf | src/components/visualization/models/warehouse.tsx:67-75 | The selected preset has racks; the view lays out that preset's racks on the grid its rack count gives, with that preset's totals scaled by the load |
| Warehouse.RacksOccupyDistinctCells | src/components/visualization/models/warehouse.tsx:80-97 | Rack i sits at its own grid cell; no two racks share a position; every rack gets the preset's model and count, the load and the 15 kW default budget |
| Warehouse.LinksChainConsecutiveRacks | src/components/visualization/models/warehouse.tsx:183-193 | Link i joins rack i to rack i + 1 and is drawn at the midpoint of the two racks, 0.5 up |
| Warehouse.CoolingCoversGrid | src/components/visualization/models/warehouse.tsx:160-168 | There are rows × cols indicators, at least one per rack, and each rack sits directly below its cell's indicator |
| Warehouse.OverlaysOff | src/components/visualization/models/warehouse.tsx:148-183 | Without the overlays there are no cooling indicators and no links |
| Warehouse.LoadScalesTotals | src/components/visualization/models/warehouse.tsx:74-75 | Current power and compute are the totals scaled by the same load: within the totals for a load in [0, 1], equal to them at full load |
| WarehousePresets.PresetPowerFollowsTdp | src/components/visualization/models/warehouse.tsx:20-51 | Each preset's total power in kW is rack count × GPU count × its model's tdp ÷ 1000, as the comments state |
| WarehousePresets.PresetComputeAgainstComment | src/components/visualization/models/warehouse.tsx:28-48 | The compute totals against their comments: Vision Forge exact, DeepSeek rounded, Colossus 0.38 below 12 × 8 × 1.98 |
| WarehousePresets.PresetGrids | src/components/visualization/models/warehouse.tsx:70-71 | 12 racks get a 4 × 3 grid, 8 racks 3 × 3 (one spare cooling indicator), 16 racks 4 × 4 |
| WarehousePresets.DefaultWarehouse | src/components/visualization/models/warehouse.tsx:60-75 | With its default props (selectedConfig 0, no overlays, load 0.5) the component lays out 12 racks on a 4 × 3 grid, with no links or indicators, 33.6 kW and 94.85 PFLOPS |
| Vectors.Lerp | src/components/visualization/vector-space.tsx:73 | Interpolation gives the start at 0 and the end at 1, and is constant when start and end agree |
| VectorSpace.PlaceCamera | src/components/visualization/vector-space.tsx:39-45 | A registered view places the camera at the view, looking at its target; an unknown one changes nothing |
| VectorSpace.SelectView | src/components/visualization/vector-space.tsx:48-61 | An unknown view changes nothing; a known one starts a transition now, from the camera's position and the point 100 ahead, to the view; the camera does not move |
| VectorSpace.Progress | src/components/visualization/vector-space.tsx:68-69 | Progress never exceeds 1, is 1 iff the duration has elapsed, is otherwise the elapsed share, and is negative before the start |
| VectorSpace.Frame | src/components/visualization/vector-space.tsx:64-84 | An idle frame changes nothing; a running one puts the camera at the eased pose and ends the transition iff elapsed ≥ duration |
| VectorSpace.InitialIsIdle | src/components/visualization/vector-space.tsx:29-36 | The initial record is idle and any number of frames leave it and the camera unchanged |
| VectorSpace.RunFramesActive | src/components/visualization/vector-space.tsx:64-84 | Over a run of frames only the animation record's flag changes (the camera moves), and it stays set iff every frame came before the duration elapsed |
| VectorSpace.TransitionSettles | src/components/visualization/vector-space.tsx:68-83 | After a frame at or past the duration the transition is over, the camera rests at the ease(1) pose (the view, if ease(1) = 1), and later frames change nothing |
| VectorSpace.StillRunningBeforeDuration | src/components/visualization/vector-space.tsx:81-83 | A running transition stays active on a frame iff the duration has not elapsed |
| VectorSpace.FrameOverwritesCamera | src/components/visualization/vector-space.tsx:73-78 | A frame's camera pose does not depend on the pose before it |
| VectorSpace.RestartFromCurrentPose | src/components/visualization/vector-space.tsx:55-57 | Reselecting mid-transition starts from the interpolated position, at the new time |
| VectorSpace.MountKeepsPosition | src/components/visualization/vector-space.tsx:38-61 | Mounting on a known view starts a transition whose position stays at the view on every frame |
| VectorSpace.Mount | src/components/visualization/vector-space.tsx:38-61 | Mounting on a known view puts the camera at the view and starts a transition, now, whose start and end positions are both the view's; on an unknown view the camera and the idle record are left alone |

## Left out

- IEEE-754 doubles. All arithmetic is exact, with `real` and `nat`. The model does not cover `parseFloat` rounding, `Math.sqrt` and `Math.ceil` on doubles, or rounding in the positions and the progress.
- NumericExtract.FractionValue: it is defined digit by digit as `0.d1…dk`, by Horner's rule from the front. Its equality with `d1…dk / 10^k` is not proved.
- NumericExtract.ExtractDecimal: its own contract states only that the reading is non-negative. What it reads is stated by the lemmas in the table above.
- `toFixed` formatting, text labels, colours other than the warning colour, meshes, materials, opacities and the cluster caption group. These are rendering only.
- The visual fields of `GPUSpec` are not modelled: dimensions, heat-sink, PCB and shroud, fan colours. Neither are its descriptive texts (cooling solution, inference speed, training capability) or the presets' description and workload texts. These are display data and no computation reads them.
- Warehouse.GridOf requires at least one rack. With 0 racks, JavaScript computes `0 / 0` columns; all presets have racks.
- ServerRack.RackProps: the GPU model is one of the three table keys, and the GPU count is a natural. In JavaScript `GPUModels` is indexed by any string, so an unknown name leaves the spec undefined and the render throws when it reads the tdp. A `number` count may also be fractional or negative, and the power and total formulas use it as given.
- VectorSpace.SelectView: the view registry is modelled as own-key membership of a map, and so are PlaceCamera and Mount. In JavaScript the guard is the truthiness of `views[currentView]` on a plain object. A name inherited from `Object.prototype`, such as `"constructor"` or `"toString"`, passes that guard, and both effects then throw reading `view.position`. The view-change effect throws only after it has overwritten the start time, start position and start target.
- Warehouse.WarehouseOf requires a valid preset index. An index out of range reads `undefined` in JavaScript.
- ServerRack.Utilization requires a positive power budget. A zero budget gives Infinity or NaN in JavaScript.
- VectorSpace.Frame requires a positive duration. In JavaScript a zero duration gives progress 1 whenever elapsed > 0, so the transition ends on the first frame, and NaN progress (and a NaN camera pose) when elapsed = 0.
- The easing curve (`easeInOutCubic`) is not part of this model. It is an arbitrary function parameter, and nothing is assumed about its values.
- Camera orientation. `getWorldDirection` is an input, and `camera.lookAt` is modelled by recording the look-at point.
- React effect scheduling and the dependency lists. The effects and the frame callback are explicit functions. Mount runs the placement effect and then the view-change effect.
- The GPU component's frame loop (fan spin, temperature smoothing), the idle-compute particles, the texture-generation script, tabs, navigation and pages. None of these are part of the modelled core.
- The "build your own server" page. Its source is a placeholder.
