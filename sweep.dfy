/** The generation pass: every tile of [-100, 100)² is projected, culled by
    radius, given a height from the noise field and handed to `makeHex`.
    The pass is specified row by row, in loop order, and its result is
    related to the set of tiles the cull keeps. */
module Sweep {
  import opened HexGrid
  import opened Builder
  import opened Rng
  import opened Terrain

  /** Both loop variables run over [SweepStart, SweepEnd). */
  const SweepStart: int := -100
  const SweepEnd: int := 100

  /** The height of tile (i, j), sampling `noise2D` (the simplex noise
      field, in [-1, 1]) at (0.1 i, 0.1 j). */
  function TileHeight(noise2D: (real, real) -> real, i: int, j: int): (h: real)
    ensures -1.0 <= noise2D(i as real * 0.1, j as real * 0.1) <= 1.0 ==> 0.0 <= h <= MaxHeight
  {
    HeightFor(noise2D(i as real * 0.1, j as real * 0.1))
  }

  /** One iteration of the inner loop: culled tiles leave the state alone,
      and a kept tile uses at most four draws (`VisitTileEffect`). */
  function VisitTile(s: State, i: int, j: int, noise2D: (real, real) -> real, draws: nat -> real): (r: State)
  {
    var position := TileToPosition(i, j);
    if !WithinRadius(position) then s
    else MakeHexSpec(s, TileHeight(noise2D, i, j), position, draws)
  }

  /** Row i after the inner loop has visited the columns [SweepStart, j). */
  function SweepRow(s: State, i: int, j: int, noise2D: (real, real) -> real, draws: nat -> real): (r: State)
    decreases j - SweepStart
  {
    if j <= SweepStart then s
    else VisitTile(SweepRow(s, i, j - 1, noise2D, draws), i, j - 1, noise2D, draws)
  }

  /** The state after the outer loop has finished the rows [SweepStart, i). */
  function SweepRows(s: State, i: int, noise2D: (real, real) -> real, draws: nat -> real): (r: State)
    decreases i - SweepStart
  {
    if i <= SweepStart then s
    else SweepRow(SweepRows(s, i - 1, noise2D, draws), i - 1, SweepEnd, noise2D, draws)
  }

  /** One visit: a culled tile leaves batches and draws as they were; a
      kept tile is `makeHex` at its noise height and uses at most four
      draws. */
  lemma VisitTileEffect(s: State, i: int, j: int, noise2D: (real, real) -> real, draws: nat -> real)
    ensures var r := VisitTile(s, i, j, noise2D, draws);
      && (!Kept(i, j) ==> r == s)
      && (Kept(i, j) ==> r == MakeHexSpec(s, TileHeight(noise2D, i, j), TileToPosition(i, j), draws))
      && s.cursor <= r.cursor <= s.cursor + 4
  {
  }

  /** The inner loop never rewinds the draw stream and uses at most four
      draws per column visited. */
  lemma {:induction false} SweepRowDraws(s: State, i: int, j: int, noise2D: (real, real) -> real, draws: nat -> real)
    requires SweepStart <= j
    ensures s.cursor <= SweepRow(s, i, j, noise2D, draws).cursor <= s.cursor + 4 * (j - SweepStart)
    decreases j - SweepStart
  {
    if j > SweepStart {
      SweepRowDraws(s, i, j - 1, noise2D, draws);
      VisitTileEffect(SweepRow(s, i, j - 1, noise2D, draws), i, j - 1, noise2D, draws);
    }
  }

  /** The outer loop never rewinds the draw stream and uses at most four
      draws per tile of the finished rows. */
  lemma {:induction false} SweepRowsDraws(s: State, i: int, noise2D: (real, real) -> real, draws: nat -> real)
    requires SweepStart <= i
    ensures s.cursor <= SweepRows(s, i, noise2D, draws).cursor <= s.cursor + 800 * (i - SweepStart)
    decreases i - SweepStart
  {
    if i > SweepStart {
      SweepRowsDraws(s, i - 1, noise2D, draws);
      SweepRowDraws(SweepRows(s, i - 1, noise2D, draws), i - 1, SweepEnd, noise2D, draws);
    }
  }

  /** Whether tile (i, j) is kept and, when a material is given, has it. */
  predicate Counted(noise2D: (real, real) -> real, m: Option<Material>, i: int, j: int)
  {
    Kept(i, j) && (m.None? || Classify(TileHeight(noise2D, i, j)) == m.value)
  }

  /** Counted tiles of row i in the columns [SweepStart, j). */
  function RowCount(noise2D: (real, real) -> real, m: Option<Material>, i: int, j: int): nat
    decreases j - SweepStart
  {
    if j <= SweepStart then 0
    else RowCount(noise2D, m, i, j - 1) + (if Counted(noise2D, m, i, j - 1) then 1 else 0)
  }

  /** Counted tiles of the rows [SweepStart, i). */
  function GridCount(noise2D: (real, real) -> real, m: Option<Material>, i: int): nat
    decreases i - SweepStart
  {
    if i <= SweepStart then 0
    else GridCount(noise2D, m, i - 1) + RowCount(noise2D, m, i - 1, SweepEnd)
  }

  /** Prisms of the batch of `m`, or of all batches when no material is given. */
  function PrismsOf(b: Batches, m: Option<Material>): nat
  {
    if m.None? then PrismTotal(b) else PrismCount(b.Get(m.value))
  }

  /** The tiles of the sweep range within the cull radius. */
  ghost function KeptTiles(): set<(int, int)>
  {
    set i, j | SweepStart <= i < SweepEnd && SweepStart <= j < SweepEnd && Kept(i, j) :: (i, j)
  }

  /** The kept tiles whose height puts them in band `m`. */
  ghost function TilesOf(noise2D: (real, real) -> real, m: Material): set<(int, int)>
  {
    set i, j | SweepStart <= i < SweepEnd && SweepStart <= j < SweepEnd && Kept(i, j)
      && Classify(TileHeight(noise2D, i, j)) == m :: (i, j)
  }

  /** Every kept tile has exactly one band: the five band sets cover the
      kept tiles and are pairwise disjoint. */
  lemma BandsPartitionKeptTiles(noise2D: (real, real) -> real)
    ensures forall t :: t in KeptTiles() ==> t in TilesOf(noise2D, Classify(TileHeight(noise2D, t.0, t.1)))
    ensures forall m, t :: t in TilesOf(noise2D, m) ==> t in KeptTiles()
    ensures forall m1, m2 :: m1 != m2 ==> TilesOf(noise2D, m1) * TilesOf(noise2D, m2) == {}
  {
  }

  ghost function RowSet(noise2D: (real, real) -> real, m: Option<Material>, i: int, j: int): set<(int, int)>
  {
    set b | SweepStart <= b < j && Counted(noise2D, m, i, b) :: (i, b)
  }

  ghost function GridSet(noise2D: (real, real) -> real, m: Option<Material>, i: int): set<(int, int)>
  {
    set a, b | SweepStart <= a < i && SweepStart <= b < SweepEnd && Counted(noise2D, m, a, b) :: (a, b)
  }

  lemma {:induction false} RowCountIsSize(noise2D: (real, real) -> real, m: Option<Material>, i: int, j: int)
    requires SweepStart <= j
    ensures |RowSet(noise2D, m, i, j)| == RowCount(noise2D, m, i, j)
    decreases j - SweepStart
  {
    if j == SweepStart {
      assert RowSet(noise2D, m, i, j) == {};
    } else {
      RowCountIsSize(noise2D, m, i, j - 1);
      RowSetStep(noise2D, m, i, j);
    }
  }

  /** Column `j - 1` joins the row's set exactly when it is counted, and it
      was not in the set before. */
  lemma RowSetStep(noise2D: (real, real) -> real, m: Option<Material>, i: int, j: int)
    requires SweepStart < j
    ensures (i, j - 1) !in RowSet(noise2D, m, i, j - 1)
    ensures RowSet(noise2D, m, i, j)
      == RowSet(noise2D, m, i, j - 1) + (if Counted(noise2D, m, i, j - 1) then {(i, j - 1)} else {})
  {
  }

  /** The rows [SweepStart, i) are the rows before i - 1, plus row i - 1. */
  lemma GridSetSplit(noise2D: (real, real) -> real, m: Option<Material>, i: int)
    requires SweepStart < i
    ensures GridSet(noise2D, m, i) == GridSet(noise2D, m, i - 1) + RowSet(noise2D, m, i - 1, SweepEnd)
    ensures GridSet(noise2D, m, i - 1) * RowSet(noise2D, m, i - 1, SweepEnd) == {}
  {
    var all, prev, row := GridSet(noise2D, m, i), GridSet(noise2D, m, i - 1), RowSet(noise2D, m, i - 1, SweepEnd);
    forall t | t in all ensures t in prev || t in row {
      if t.0 < i - 1 { assert t in prev; } else { assert t in row; }
    }
    forall t | t in prev + row ensures t in all {
      if t in prev { assert t.0 < i - 1; } else { assert t.0 == i - 1; }
    }
    forall t | t in prev ensures t !in row {
      assert t.0 < i - 1;
    }
  }

  /** One more row adds its counted tiles to the grid's. */
  lemma GridCountStep(noise2D: (real, real) -> real, m: Option<Material>, i: int)
    requires SweepStart < i
    requires |GridSet(noise2D, m, i - 1)| == GridCount(noise2D, m, i - 1)
    ensures |GridSet(noise2D, m, i)| == GridCount(noise2D, m, i)
  {
    RowCountIsSize(noise2D, m, i - 1, SweepEnd);
    GridSetSplit(noise2D, m, i);
    var prev, row := GridSet(noise2D, m, i - 1), RowSet(noise2D, m, i - 1, SweepEnd);
    assert |prev + row| == |prev| + |row|;
  }

  lemma {:induction false} GridCountIsSize(noise2D: (real, real) -> real, m: Option<Material>, i: int)
    requires SweepStart <= i
    ensures |GridSet(noise2D, m, i)| == GridCount(noise2D, m, i)
    decreases i - SweepStart
  {
    if i == SweepStart {
      assert GridSet(noise2D, m, i) == {};
    } else {
      GridCountIsSize(noise2D, m, i - 1);
      GridCountStep(noise2D, m, i);
    }
  }

  /** Visiting row i adds one prism per kept tile of the row, each to the
      batch of its band. */
  lemma {:induction false} SweepRowPrisms(s: State, i: int, j: int, noise2D: (real, real) -> real, draws: nat -> real, m: Option<Material>)
    requires SweepStart <= j
    ensures PrismsOf(SweepRow(s, i, j, noise2D, draws).batches, m) == PrismsOf(s.batches, m) + RowCount(noise2D, m, i, j)
    decreases j - SweepStart
  {
    if j > SweepStart {
      var before := SweepRow(s, i, j - 1, noise2D, draws);
      SweepRowPrisms(s, i, j - 1, noise2D, draws, m);
      var position := TileToPosition(i, j - 1);
      if WithinRadius(position) {
        MakeHexAddsOnePrism(before, TileHeight(noise2D, i, j - 1), position, draws);
      }
    }
  }

  /** Finishing row i - 1 adds one prism per counted tile of that row. */
  lemma SweepRowsStep(s: State, i: int, noise2D: (real, real) -> real, draws: nat -> real, m: Option<Material>)
    requires SweepStart < i
    ensures PrismsOf(SweepRows(s, i, noise2D, draws).batches, m)
         == PrismsOf(SweepRows(s, i - 1, noise2D, draws).batches, m) + RowCount(noise2D, m, i - 1, SweepEnd)
  {
    SweepRowPrisms(SweepRows(s, i - 1, noise2D, draws), i - 1, SweepEnd, noise2D, draws, m);
  }

  lemma {:induction false} SweepRowsPrisms(s: State, i: int, noise2D: (real, real) -> real, draws: nat -> real, m: Option<Material>)
    requires SweepStart <= i
    ensures PrismsOf(SweepRows(s, i, noise2D, draws).batches, m) == PrismsOf(s.batches, m) + GridCount(noise2D, m, i)
    decreases i - SweepStart
  {
    if i == SweepStart {
      assert SweepRows(s, i, noise2D, draws) == s;
    } else {
      SweepRowsPrisms(s, i - 1, noise2D, draws, m);
      SweepRowsStep(s, i, noise2D, draws, m);
    }
  }

  /** Over the whole sweep, one prism is added per kept tile. */
  lemma SweepPrismTotal(s: State, noise2D: (real, real) -> real, draws: nat -> real)
    ensures PrismTotal(SweepRows(s, SweepEnd, noise2D, draws).batches) == PrismTotal(s.batches) + |KeptTiles()|
  {
    SweepRowsPrisms(s, SweepEnd, noise2D, draws, None);
    GridCountIsSize(noise2D, None, SweepEnd);
    assert GridSet(noise2D, None, SweepEnd) == KeptTiles();
  }

  /** The end-to-end count: starting from the initial batches, the pass
      leaves exactly one prism per tile of the range within distance 45 of
      the origin (distance exactly 45 included), and the batch of each band
      holds exactly one prism per kept tile of that band. */
  lemma GenerationCounts(noise2D: (real, real) -> real, draws: nat -> real)
    ensures var final := SweepRows(State(InitialBatches, 0), SweepEnd, noise2D, draws).batches;
      && PrismTotal(final) == |KeptTiles()|
      && forall m :: PrismCount(final.Get(m)) == |TilesOf(noise2D, m)|
  {
    var s0 := State(InitialBatches, 0);
    InitialBatchesHoldNoPrism();
    SweepRowsPrisms(s0, SweepEnd, noise2D, draws, None);
    GridCountIsSize(noise2D, None, SweepEnd);
    assert GridSet(noise2D, None, SweepEnd) == KeptTiles();
    forall m ensures PrismCount(SweepRows(s0, SweepEnd, noise2D, draws).batches.Get(m)) == |TilesOf(noise2D, m)| {
      SweepRowsPrisms(s0, SweepEnd, noise2D, draws, Some(m));
      GridCountIsSize(noise2D, Some(m), SweepEnd);
      assert GridSet(noise2D, Some(m), SweepEnd) == TilesOf(noise2D, m);
    }
  }

  /** The noise field stays in [-1, 1], as simplex noise does. */
  ghost predicate UnitNoise(noise2D: (real, real) -> real)
  {
    forall x, y :: -1.0 <= noise2D(x, y) <= 1.0
  }

  /** With noise in [-1, 1], every prism the pass creates stands on the
      ground with a height in [0, MAX_HEIGHT]. */
  lemma {:induction false} SweepRowGrounded(s: State, i: int, j: int, noise2D: (real, real) -> real, draws: nat -> real)
    requires SweepStart <= j && UnitNoise(noise2D) && AllGrounded(s.batches)
    ensures AllGrounded(SweepRow(s, i, j, noise2D, draws).batches)
    decreases j - SweepStart
  {
    if j > SweepStart {
      var before := SweepRow(s, i, j - 1, noise2D, draws);
      SweepRowGrounded(s, i, j - 1, noise2D, draws);
      var position := TileToPosition(i, j - 1);
      if WithinRadius(position) {
        MakeHexKeepsGrounded(before, TileHeight(noise2D, i, j - 1), position, draws);
      }
    }
  }

  lemma {:induction false} SweepRowsGrounded(s: State, i: int, noise2D: (real, real) -> real, draws: nat -> real)
    requires SweepStart <= i && UnitNoise(noise2D) && AllGrounded(s.batches)
    ensures AllGrounded(SweepRows(s, i, noise2D, draws).batches)
    decreases i - SweepStart
  {
    if i > SweepStart {
      SweepRowsGrounded(s, i - 1, noise2D, draws);
      SweepRowGrounded(SweepRows(s, i - 1, noise2D, draws), i - 1, SweepEnd, noise2D, draws);
    }
  }

  /** The body of the inner loop: cull tile (i, j), or call `makeHex` with
      the height its noise sample gives. */
  method GenerateTile(world: World, rng: Random, noise2D: (real, real) -> real, i: int, j: int)
    modifies world, rng
    ensures State(world.Contents(), rng.index) == VisitTile(old(State(world.Contents(), rng.index)), i, j, noise2D, rng.draws)
  {
    var position := TileToPosition(i, j);
    if WithinRadius(position) {
      var noise := (noise2D(i as real * 0.1, j as real * 0.1) + 1.0) * 0.5;
      assert noise * MaxHeight == TileHeight(noise2D, i, j);
      world.MakeHex(noise * MaxHeight, position, rng);
    }
  }

  /** The generation loop, calling `makeHex` on `world` for every kept tile. */
  method Generate(world: World, rng: Random, noise2D: (real, real) -> real)
    modifies world, rng
    ensures State(world.Contents(), rng.index)
         == SweepRows(State(old(world.Contents()), old(rng.index)), SweepEnd, noise2D, rng.draws)
    ensures PrismTotal(world.Contents()) == PrismTotal(old(world.Contents())) + |KeptTiles()|
  {
    ghost var s0 := State(world.Contents(), rng.index);
    for i := SweepStart to SweepEnd
      invariant State(world.Contents(), rng.index) == SweepRows(s0, i, noise2D, rng.draws)
    {
      ghost var rowStart := State(world.Contents(), rng.index);
      for j := SweepStart to SweepEnd
        invariant State(world.Contents(), rng.index) == SweepRow(rowStart, i, j, noise2D, rng.draws)
      {
        GenerateTile(world, rng, noise2D, i, j);
      }
    }
    SweepPrismTotal(s0, noise2D, rng.draws);
  }
}
