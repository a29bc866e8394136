/** The warehouse view: the three preset supercomputer configurations, the near-square
    grid the racks of the selected configuration are laid out on, the racks' positions,
    the chain of network links between consecutive racks, the cooling indicators over
    every grid cell, and the cluster's power and compute scaled by the load. */
module Warehouse {
  import opened Vectors
  import opened GpuModels
  import opened ServerRack

  /** A preset; its description and workload blurb are display text and not modelled. */
  datatype SupercomputerConfig = SupercomputerConfig(
    name: string,
    gpuModel: ModelKey,
    gpuCount: nat,
    rackCount: nat,
    totalPower: real,   // kW
    totalCompute: real) // PFLOPS

  /** The presets, in the order the selector indexes them. */
  function Configs(): seq<SupercomputerConfig> {
    [Colossus(), DeepSeek(), VisionForge()]
  }

  // The comments on the presets' totals give them as rack count x GPU count x per-GPU figure.
  function Colossus(): SupercomputerConfig {
    SupercomputerConfig("Colossus AI-1", H100, 8, 12, 67.2, 189.7)
  }

  function DeepSeek(): SupercomputerConfig {
    SupercomputerConfig("DeepSeek Cluster", A100, 8, 8, 25.6, 20.0)
  }

  function VisionForge(): SupercomputerConfig {
    SupercomputerConfig("Vision Forge", MI300X, 4, 16, 48.0, 102.4)
  }

  /** The component's default props: the first preset, no overlays, half load. */
  const DefaultSelectedConfig: nat := 0
  const DefaultLoad: real := 0.5

  /** Distance between neighbouring grid cells along either axis. */
  const CellSpacing: real := 2.5

  // ---------------------------------------------------------------------------
  // Integer rounding on naturals (the JavaScript rounds doubles)

  /** `r` is the ceiling of the square root of `n`: its square reaches `n` and the square
      of its predecessor does not. */
  ghost predicate IsCeilSqrt(n: nat, r: nat) {
    r * r >= n && (r == 0 || (r - 1) * (r - 1) < n)
  }

  /** `Math.ceil(Math.sqrt(n))` on a natural number. */
  function CeilSqrt(n: nat): (r: nat)
    ensures IsCeilSqrt(n, r)
  {
    CeilSqrtFrom(n, 0)
  }

  /** Searches upward from a candidate `r` whose predecessor's square is still below `n`. */
  function CeilSqrtFrom(n: nat, r: nat): (s: nat)
    requires r == 0 || (r - 1) * (r - 1) < n
    ensures IsCeilSqrt(n, s)
    ensures r <= s
    decreases n - r
  {
    if r * r >= n then r
    else
      assert r < n by {
        if r > 0 { assert r <= r * r; }
      }
      CeilSqrtFrom(n, r + 1)
  }

  /** The ceiling of the square root is the least natural whose square reaches `n`. */
  lemma CeilSqrtIsLeast(n: nat, r: nat)
    requires r * r >= n
    ensures CeilSqrt(n) <= r
  {
    var s := CeilSqrt(n);
    if s > r {
      assert r <= s - 1;
      MulMonotone(r, s - 1);
    }
  }

  lemma MulMonotone(a: nat, b: nat)
    requires a <= b
    ensures a * a <= b * b
  {
    assert a * a <= a * b;
  }

  /** `Math.ceil(a / b)` on naturals. */
  function CeilDiv(a: nat, b: nat): (q: nat)
    requires b > 0
    ensures q * b >= a
    ensures q == 0 || (q - 1) * b < a
  {
    if a % b == 0 then a / b else a / b + 1
  }

  /** The rounded-up quotient is the least `q` with `q * b >= a`. */
  lemma CeilDivIsLeast(a: nat, b: nat, q: nat)
    requires b > 0 && q * b >= a
    ensures CeilDiv(a, b) <= q
  {
  }

  // ---------------------------------------------------------------------------
  // The grid

  datatype Grid = Grid(rows: nat, cols: nat)

  /** The grid for `rackCount` racks: as many rows as the rounded-up square root, and
      as many columns as it takes to seat every rack in that many rows. */
  function GridOf(rackCount: nat): (g: Grid)
    requires rackCount >= 1
    ensures g.rows >= 1 && g.cols >= 1
    ensures IsCeilSqrt(rackCount, g.rows)
    ensures g.rows * g.cols >= rackCount
    ensures (g.cols - 1) * g.rows < rackCount
    ensures g.cols <= g.rows
  {
    var rows := CeilSqrt(rackCount);
    var cols := CeilDiv(rackCount, rows);
    CeilDivIsLeast(rackCount, rows, rows);
    Grid(rows, cols)
  }

  /** Row and column of a cell; row `r` is laid out along x, column `c` along z. */
  datatype Cell = Cell(row: nat, col: nat)

  /** The cell of rack `index`: the racks fill the grid row by row. */
  function CellOf(index: nat, cols: nat): (c: Cell)
    requires cols > 0
    ensures c.row * cols + c.col == index
    ensures c.col < cols
  {
    Cell(index / cols, index % cols)
  }

  /** Row-major numbering of a cell, the inverse of `CellOf`. */
  function IndexOf(c: Cell, cols: nat): nat {
    c.row * cols + c.col
  }

  /** `CellOf` and `IndexOf` are inverse to each other on the cells of a `cols`-wide grid. */
  lemma CellIndexRoundTrip(index: nat, c: Cell, cols: nat)
    requires cols > 0 && c.col < cols
    ensures IndexOf(CellOf(index, cols), cols) == index
    ensures CellOf(IndexOf(c, cols), cols) == c
  {
    DivModUnique(c.row, c.col, cols);
  }

  lemma DivModUnique(q: nat, r: nat, d: nat)
    requires r < d
    ensures (q * d + r) / d == q && (q * d + r) % d == r
  {
    var n := q * d + r;
    var q', r' := n / d, n % d;
    assert n == q' * d + r';
    if q' < q {
      MulRightMonotone(q' + 1, q, d);
      assert false;
    } else if q' > q {
      MulRightMonotone(q + 1, q', d);
      assert false;
    }
  }

  lemma MulRightMonotone(a: nat, b: nat, d: nat)
    requires a <= b
    ensures a * d <= b * d
  {
  }

  /** Every rack index below the rack count lands inside the grid. */
  lemma CellInGrid(rackCount: nat, index: nat)
    requires rackCount >= 1 && index < rackCount
    ensures CellOf(index, GridOf(rackCount).cols).row < GridOf(rackCount).rows
    ensures CellOf(index, GridOf(rackCount).cols).col < GridOf(rackCount).cols
  {
    var g := GridOf(rackCount);
    var c := CellOf(index, g.cols);
    if c.row >= g.rows {
      MulRightMonotone(g.rows, c.row, g.cols);
      assert false;
    }
  }

  /** No two racks share a cell. */
  lemma CellOfInjective(i: nat, j: nat, cols: nat)
    requires cols > 0
    ensures CellOf(i, cols) == CellOf(j, cols) ==> i == j
  {
  }

  /** Where the centre of a cell is placed: rows along x, columns along z, 2.5 apart,
      shifted by half the grid so that the grid straddles the origin. */
  function CellPosition(c: Cell, g: Grid, height: real): Vec3 {
    Vec3((c.row as real - g.rows as real / 2.0) * CellSpacing,
         height,
         (c.col as real - g.cols as real / 2.0) * CellSpacing)
  }

  /** Distinct cells are placed at distinct points, cells of neighbouring rows or columns
      exactly one spacing apart, and every cell of the grid within half the grid's extent
      of the origin. */
  lemma CellPositionsSeparate(a: Cell, b: Cell, g: Grid, h: real)
    ensures a != b ==> CellPosition(a, g, h) != CellPosition(b, g, h)
    ensures CellPosition(Cell(a.row + 1, a.col), g, h).x - CellPosition(a, g, h).x == CellSpacing
    ensures CellPosition(Cell(a.row, a.col + 1), g, h).z - CellPosition(a, g, h).z == CellSpacing
    ensures a.row < g.rows ==>
      -(g.rows as real) * CellSpacing / 2.0 <= CellPosition(a, g, h).x < g.rows as real * CellSpacing / 2.0
    ensures a.col < g.cols ==>
      -(g.cols as real) * CellSpacing / 2.0 <= CellPosition(a, g, h).z < g.cols as real * CellSpacing / 2.0
  {
  }

  // ---------------------------------------------------------------------------
  // The scene

  /** A rack as the view places it: its position and the props it passes on. The view
      passes no power budget, so every rack keeps the default one. */
  datatype PlacedRack = PlacedRack(position: Vec3, props: RackProps)

  /** A network link from rack `from` to rack `to`, drawn at `position`. */
  datatype Link = Link(from: nat, to: nat, position: Vec3)

  datatype Scene = Scene(
    grid: Grid,
    racks: seq<PlacedRack>,
    cooling: seq<seq<Vec3>>,
    links: seq<Link>,
    currentPower: real,
    currentCompute: real)

  function RackAt(index: nat, config: SupercomputerConfig, g: Grid, load: real): PlacedRack
    requires g.cols > 0
  {
    PlacedRack(CellPosition(CellOf(index, g.cols), g, 0.0),
               RackProps(config.gpuModel, config.gpuCount, load, DefaultProps.powerCapacity))
  }

  /** The link between rack `i` and rack `i + 1`, drawn halfway between their cells. */
  function LinkAt(i: nat, g: Grid): Link
    requires g.cols > 0
  {
    var s := CellOf(i, g.cols);
    var e := CellOf(i + 1, g.cols);
    Link(i, i + 1,
      Vec3(((s.row + e.row) as real / 2.0 - g.rows as real / 2.0) * CellSpacing,
           0.5,
           ((s.col + e.col) as real / 2.0 - g.cols as real / 2.0) * CellSpacing))
  }

  /** One cooling indicator over every cell of the grid, grouped by row. */
  function CoolingIndicators(g: Grid): seq<seq<Vec3>> {
    seq(g.rows, r requires 0 <= r => seq(g.cols, c requires 0 <= c => CellPosition(Cell(r, c), g, 3.0)))
  }

  /** The warehouse for `config` at `load`; cooling indicators only with the thermal
      overlay, links only with the performance overlay. */
  function SceneOf(config: SupercomputerConfig, showThermal: bool, showPerformance: bool, load: real): (s: Scene)
    requires config.rackCount >= 1
    ensures s.grid == GridOf(config.rackCount)
    ensures |s.racks| == config.rackCount
    ensures |s.links| == if showPerformance then config.rackCount - 1 else 0
    ensures |s.cooling| == if showThermal then s.grid.rows else 0
  {
    var g := GridOf(config.rackCount);
    Scene(
      g,
      seq(config.rackCount, i requires 0 <= i => RackAt(i, config, g, load)),
      if showThermal then CoolingIndicators(g) else [],
      if showPerformance then seq(config.rackCount - 1, i requires 0 <= i => LinkAt(i, g)) else [],
      config.totalPower * load,
      config.totalCompute * load)
  }

  /** The warehouse for preset `selected`: that preset's racks on the grid its rack count
      gives, and that preset's totals scaled by the load. */
  function WarehouseOf(selected: nat, showThermal: bool, showPerformance: bool, load: real): (s: Scene)
    requires selected < |Configs()|
    ensures Configs()[selected].rackCount >= 1
    ensures s.grid == GridOf(Configs()[selected].rackCount)
    ensures |s.racks| == Configs()[selected].rackCount
    ensures s.currentPower == Configs()[selected].totalPower * load
    ensures s.currentCompute == Configs()[selected].totalCompute * load
  {
    PresetHasRacks(selected);
    SceneOf(Configs()[selected], showThermal, showPerformance, load)
  }

  lemma PresetHasRacks(selected: nat)
    requires selected < |Configs()|
    ensures Configs()[selected].rackCount >= 1
  {
  }

  /** Every rack sits on its own cell of the grid, row by row, so no two racks are placed
      at the same point; all racks carry the configuration's model and GPU count, the
      view's load and the default power budget. */
  lemma RacksOccupyDistinctCells(config: SupercomputerConfig, showThermal: bool, showPerformance: bool, load: real, i: nat, j: nat)
    requires config.rackCount >= 1
    requires i < config.rackCount && j < config.rackCount
    ensures var s := SceneOf(config, showThermal, showPerformance, load);
      var c := CellOf(i, s.grid.cols);
      c.row < s.grid.rows && c.col < s.grid.cols
      && IndexOf(c, s.grid.cols) == i
      && s.racks[i].position == CellPosition(c, s.grid, 0.0)
      && s.racks[i].props == RackProps(config.gpuModel, config.gpuCount, load, 15000.0)
    ensures var s := SceneOf(config, showThermal, showPerformance, load);
      i != j ==> s.racks[i].position != s.racks[j].position
  {
    var g := GridOf(config.rackCount);
    CellInGrid(config.rackCount, i);
    CellIndexRoundTrip(i, CellOf(i, g.cols), g.cols);
    CellOfInjective(i, j, g.cols);
    CellPositionsSeparate(CellOf(i, g.cols), CellOf(j, g.cols), g, 0.0);
  }

  /** Link `i` joins rack `i` to rack `i + 1`, both racks of the scene, and is drawn at
      the midpoint of the two racks' positions, 0.5 above the floor. */
  lemma LinksChainConsecutiveRacks(config: SupercomputerConfig, showThermal: bool, load: real, i: nat)
    requires config.rackCount >= 1 && i < config.rackCount - 1
    ensures var s := SceneOf(config, showThermal, true, load);
      var l := s.links[i];
      l.from == i && l.to == i + 1 && l.to < |s.racks|
      && l.position.x == (s.racks[i].position.x + s.racks[i + 1].position.x) / 2.0
      && l.position.z == (s.racks[i].position.z + s.racks[i + 1].position.z) / 2.0
      && l.position.y == 0.5
  {
  }

  /** Total number of indicators over all rows. */
  function Count(rows: seq<seq<Vec3>>): nat {
    if |rows| == 0 then 0 else Count(rows[..|rows| - 1]) + |rows[|rows| - 1]|
  }

  lemma {:induction false} CountOfUniformRows(rows: seq<seq<Vec3>>, width: nat)
    requires forall r :: 0 <= r < |rows| ==> |rows[r]| == width
    ensures Count(rows) == |rows| * width
  {
    if |rows| > 0 {
      CountOfUniformRows(rows[..|rows| - 1], width);
    }
  }

  /** With the thermal overlay there is one cooling indicator per grid cell, `rows * cols`
      in all and so at least one per rack; each rack sits directly below the indicator of
      its own cell, 3 above the floor. */
  lemma CoolingCoversGrid(config: SupercomputerConfig, showPerformance: bool, load: real, i: nat)
    requires config.rackCount >= 1 && i < config.rackCount
    ensures var s := SceneOf(config, true, showPerformance, load);
      Count(s.cooling) == s.grid.rows * s.grid.cols >= config.rackCount
    ensures var s := SceneOf(config, true, showPerformance, load);
      var c := CellOf(i, s.grid.cols);
      c.row < |s.cooling| && c.col < |s.cooling[c.row]|
      && s.cooling[c.row][c.col] == s.racks[i].position.(y := 3.0)
  {
    var g := GridOf(config.rackCount);
    CountOfUniformRows(CoolingIndicators(g), g.cols);
    CellInGrid(config.rackCount, i);
  }

  /** Without the overlays there are neither cooling indicators nor links. */
  lemma OverlaysOff(config: SupercomputerConfig, load: real)
    requires config.rackCount >= 1
    ensures Count(SceneOf(config, false, false, load).cooling) == 0
    ensures SceneOf(config, false, false, load).links == []
  {
  }

  /** The current power and compute are the totals scaled by the load: never negative
      and never above the totals while the load is a fraction in [0, 1] and the totals
      are non-negative, equal to the totals at full load. */
  lemma LoadScalesTotals(config: SupercomputerConfig, showThermal: bool, showPerformance: bool, load: real)
    requires config.rackCount >= 1
    requires config.totalPower >= 0.0 && config.totalCompute >= 0.0
    ensures var s := SceneOf(config, showThermal, showPerformance, load);
      0.0 <= load <= 1.0 ==>
        0.0 <= s.currentPower <= config.totalPower && 0.0 <= s.currentCompute <= config.totalCompute
    ensures var s := SceneOf(config, showThermal, showPerformance, load);
      load == 1.0 ==> s.currentPower == config.totalPower && s.currentCompute == config.totalCompute
    ensures var s := SceneOf(config, showThermal, showPerformance, load);
      s.currentPower * config.totalCompute == s.currentCompute * config.totalPower
  {
    var s := SceneOf(config, showThermal, showPerformance, load);
    var p, c := config.totalPower, config.totalCompute;
    assert s.currentPower == p * load && s.currentCompute == c * load;
    if 0.0 <= load <= 1.0 {
      ScaleWithin(p, load);
      ScaleWithin(c, load);
    }
    assert p * load * c == c * load * p;
  }

  lemma ScaleWithin(total: real, load: real)
    requires total >= 0.0 && 0.0 <= load <= 1.0
    ensures 0.0 <= total * load <= total
  {
    assert total * load <= total * 1.0;
  }
}

/** Facts about the three shipped presets. */
module WarehousePresets {
  import opened GpuModels
  import opened Warehouse

  /** Each preset's total power in kW is its rack count times its GPU count times the
      thermal design power of its model, in watts, divided by 1000. */
  lemma PresetPowerFollowsTdp(selected: nat)
    requires selected < |Configs()|
    ensures var c := Configs()[selected];
      c.totalPower * 1000.0 == (c.rackCount * c.gpuCount * Spec(c.gpuModel).power.tdp) as real
  {
    if selected == 0 {
      ColossusPower();
    } else if selected == 1 {
      DeepSeekPower();
    } else {
      VisionForgePower();
    }
  }

  lemma ColossusPower()
    ensures var c := Configs()[0];
      c.totalPower * 1000.0 == (c.rackCount * c.gpuCount * Spec(c.gpuModel).power.tdp) as real
  {
    assert Configs()[0] == Colossus();
    assert Spec(H100).power.tdp == 700;
  }

  lemma DeepSeekPower()
    ensures var c := Configs()[1];
      c.totalPower * 1000.0 == (c.rackCount * c.gpuCount * Spec(c.gpuModel).power.tdp) as real
  {
    assert Configs()[1] == DeepSeek();
    assert Spec(A100).power.tdp == 400;
  }

  lemma VisionForgePower()
    ensures var c := Configs()[2];
      c.totalPower * 1000.0 == (c.rackCount * c.gpuCount * Spec(c.gpuModel).power.tdp) as real
  {
    assert Configs()[2] == VisionForge();
    assert Spec(MI300X).power.tdp == 750;
  }

  /** The presets' compute totals against the products their comments give: the Vision
      Forge figure is exactly 16 x 4 x 1.6 PFLOPS and the DeepSeek one rounds 8 x 8 x 312
      TFLOPS = 19.968 PFLOPS, but the Colossus figure 189.7 is neither 12 x 8 x 1.98 =
      190.08 PFLOPS nor that product rounded to one decimal. */
  lemma PresetComputeAgainstComment()
    ensures VisionForge().totalCompute == 16.0 * 4.0 * 1.6
    ensures DeepSeek().totalCompute - 8.0 * 8.0 * 312.0 / 1000.0 == 0.032
    ensures Colossus().totalCompute != 12.0 * 8.0 * 1.98
    ensures 12.0 * 8.0 * 1.98 - Colossus().totalCompute == 0.38
  {
  }

  /** The presets' grids: 12 racks on 4 x 3, 8 racks on 3 x 3 (so one cooling indicator
      stands over an empty cell), 16 racks on 4 x 4. */
  lemma PresetGrids()
    ensures GridOf(12) == Grid(4, 3)
    ensures GridOf(8) == Grid(3, 3) && 3 * 3 > 8
    ensures GridOf(16) == Grid(4, 4)
  {
    CeilSqrtIsLeast(12, 4);
    CeilSqrtIsLeast(8, 3);
    CeilSqrtIsLeast(16, 4);
  }

  /** With its default props (selectedConfig 0, no overlays, load 0.5) the component lays
      out the Colossus preset's 12 racks on a 4 x 3 grid, drawing 33.6 kW for 94.85 PFLOPS. */
  lemma DefaultWarehouse()
    ensures var s := WarehouseOf(DefaultSelectedConfig, false, false, DefaultLoad);
      s.grid == Grid(4, 3) && |s.racks| == 12 && s.links == [] && s.cooling == []
      && s.currentPower == 33.6 && s.currentCompute == 94.85
  {
    assert Configs()[0] == Colossus();
    CeilSqrtIsLeast(12, 4);
  }
}
