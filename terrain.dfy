/** Height banding and batch routing of the terrain: each tile's prism goes
    to the batch of its material, and a rock or a tree may be added to a
    batch of its own. */
module Terrain {
  import opened HexGrid
  import opened Builder
  import opened Rng

  const MaxHeight: real := 10.0
  const StoneHeight: real := MaxHeight * 0.8
  const DirtHeight: real := MaxHeight * 0.7
  const GrassHeight: real := MaxHeight * 0.5
  const SandHeight: real := MaxHeight * 0.3
  /** Declared alongside the others; no comparison uses it. */
  const Dirt2Height: real := MaxHeight * 0.0
  /** A decoration is placed when its draw exceeds this (probability 0.2). */
  const DecorationRoll: real := 0.8

  /** The five materials, each with one batch. `Dirt2` is the lowest band. */
  datatype Material = Stone | Dirt | Grass | Sand | Dirt2

  /** The material of a tile of the given height: the first threshold it
      strictly exceeds, from the top. A height equal to a threshold falls to
      the band below. */
  function Classify(height: real): (m: Material)
    ensures m == Stone <==> height > 8.0
    ensures m == Dirt <==> 7.0 < height <= 8.0
    ensures m == Grass <==> 5.0 < height <= 7.0
    ensures m == Sand <==> 3.0 < height <= 5.0
    ensures m == Dirt2 <==> height <= 3.0
  {
    if height > StoneHeight then Stone
    else if height > DirtHeight then Dirt
    else if height > GrassHeight then Grass
    else if height > SandHeight then Sand
    else Dirt2
  }

  /** Bands in ascending order of height. */
  function Rank(m: Material): nat
  {
    match m
    case Dirt2 => 0
    case Sand => 1
    case Grass => 2
    case Dirt => 3
    case Stone => 4
  }

  /** A higher tile never gets a lower band. */
  lemma ClassifyMonotone(h1: real, h2: real)
    requires h1 <= h2
    ensures Rank(Classify(h1)) <= Rank(Classify(h2))
  {
  }

  /** Threshold values fall to the band below; the extremes of the height
      range are stone and dirt2. */
  lemma ClassifyBoundaries()
    ensures Classify(8.0) == Dirt && Classify(7.0) == Grass
    ensures Classify(5.0) == Sand && Classify(3.0) == Dirt2
    ensures Classify(MaxHeight) == Stone && Classify(0.0) == Dirt2
  {
  }

  /** The tile height for a noise sample: `(noise + 1) * 0.5 * MAX_HEIGHT`,
      mapping the noise range [-1, 1] onto [0, MAX_HEIGHT] monotonically. */
  function HeightFor(noise: real): (h: real)
    ensures -1.0 <= noise <= 1.0 ==> 0.0 <= h <= MaxHeight
    ensures noise == -1.0 ==> h == 0.0
    ensures noise == 1.0 ==> h == MaxHeight
  {
    (noise + 1.0) * 0.5 * MaxHeight
  }

  lemma HeightForMonotone(n1: real, n2: real)
    requires n1 < n2
    ensures HeightFor(n1) < HeightFor(n2)
  {
  }

  /** The five module-level accumulators. */
  datatype Batches = Batches(stone: Geometry, dirt: Geometry, dirt2: Geometry, sand: Geometry, grass: Geometry)
  {
    function Get(m: Material): Geometry
    {
      match m
      case Stone => stone
      case Dirt => dirt
      case Dirt2 => dirt2
      case Sand => sand
      case Grass => grass
    }
  }

  /** Each accumulator starts as an empty-sized box, `BoxBufferGeometry(0,0,0)`. */
  const InitialBatches: Batches :=
    var seed := [Box(0.0, 0.0, 0.0, Origin)];
    Batches(seed, seed, seed, seed, seed)

  /** Prisms over all five batches. */
  function PrismTotal(b: Batches): nat
  {
    PrismCount(b.stone) + PrismCount(b.dirt) + PrismCount(b.dirt2) + PrismCount(b.sand) + PrismCount(b.grass)
  }

  lemma InitialBatchesHoldNoPrism()
    ensures forall m :: PrismCount(InitialBatches.Get(m)) == 0
    ensures PrismTotal(InitialBatches) == 0
  {
    var seed := [Box(0.0, 0.0, 0.0, Origin)];
    assert PrismCount(seed) == 0 by { assert seed[1..] == []; }
  }

  /** The batches together with the index of the next random draw. */
  datatype State = State(batches: Batches, cursor: nat)

  /** The batch a tile's decoration goes to, if its material has one: rocks
      from stone and sand tiles go to stone, trees from dirt tiles to grass. */
  function DecorationTarget(m: Material): Option<Material>
  {
    match m
    case Stone => Some(Stone)
    case Sand => Some(Stone)
    case Dirt => Some(Grass)
    case Grass => None
    case Dirt2 => None
  }

  datatype Option<T> = None | Some(value: T)

  /** `makeHex(height, position)`: merges the tile's prism into its band's
      batch and, for stone, dirt and sand, rolls once for a decoration and
      draws its parameters when the roll exceeds 0.8. Each merge of two
      geometries is written as their concatenation (see `MergePair`). */
  function MakeHexSpec(s: State, height: real, position: Vec2, draws: nat -> real): (r: State)
    ensures s.cursor <= r.cursor <= s.cursor + 4
  {
    var b, k := s.batches, s.cursor;
    var geo := HexGeometry(height, position);
    if height > StoneHeight then
      var b1 := b.(stone := b.stone + geo);
      if draws(k) > DecorationRoll then State(b1.(stone := b1.stone + RockAt(height, position, draws, k)), k + 4)
      else State(b1, k + 1)
    else if height > DirtHeight then
      var b1 := b.(dirt := b.dirt + geo);
      if draws(k) > DecorationRoll then State(b1.(grass := b1.grass + Tree(height, position, draws(k + 1))), k + 2)
      else State(b1, k + 1)
    else if height > GrassHeight then
      State(b.(grass := b.grass + geo), k)
    else if height > SandHeight then
      var b1 := b.(sand := b.sand + geo);
      if draws(k) > DecorationRoll then State(b1.(stone := b1.stone + RockAt(height, position, draws, k)), k + 4)
      else State(b1, k + 1)
    else
      State(b.(dirt2 := b.dirt2 + geo), k)
  }

  /** The rock a stone or sand tile may get, from the draws after its roll:
      one sphere resting at the tile top, whose radius is in [0.1, 0.4) when
      its draw is a unit draw. */
  function RockAt(height: real, position: Vec2, draws: nat -> real, k: nat): (g: Geometry)
    ensures |g| == 1 && g[0].Sphere? && g[0].center.y == height
    ensures 0.0 <= draws(k + 3) < 1.0 ==> 0.1 <= g[0].radius < 0.4
  {
    Rock(height, position, draws(k + 1), draws(k + 2), draws(k + 3))
  }

  /** What one call does, by the tile's material: the prism is appended to
      that material's batch; stone and sand tiles roll once and on a roll
      above 0.8 append a rock to the STONE batch (three more draws); dirt
      tiles roll once and on a roll above 0.8 append a tree to the GRASS
      batch (one more draw); grass and dirt2 tiles draw nothing. Every other
      batch is left as it was. */
  lemma MakeHexByMaterial(s: State, height: real, position: Vec2, draws: nat -> real)
    ensures var r, b, k := MakeHexSpec(s, height, position, draws), s.batches, s.cursor;
      var hex, roll := HexGeometry(height, position), draws(k) > DecorationRoll;
      && (Classify(height) == Stone ==>
            r == State(b.(stone := b.stone + hex + (if roll then RockAt(height, position, draws, k) else [])),
                       if roll then k + 4 else k + 1))
      && (Classify(height) == Dirt ==>
            r == State(b.(dirt := b.dirt + hex, grass := b.grass + (if roll then Tree(height, position, draws(k + 1)) else [])),
                       if roll then k + 2 else k + 1))
      && (Classify(height) == Grass ==> r == State(b.(grass := b.grass + hex), k))
      && (Classify(height) == Sand ==>
            r == State(b.(sand := b.sand + hex, stone := b.stone + (if roll then RockAt(height, position, draws, k) else [])),
                       if roll then k + 4 else k + 1))
      && (Classify(height) == Dirt2 ==> r == State(b.(dirt2 := b.dirt2 + hex), k))
  {
    assert s.batches.stone + HexGeometry(height, position) + [] == s.batches.stone + HexGeometry(height, position);
  }

  /** Every batch keeps its old contents as a prefix, and the tile's own
      batch continues with exactly its prism. */
  lemma MakeHexAppends(s: State, height: real, position: Vec2, draws: nat -> real)
    ensures var r, m := MakeHexSpec(s, height, position, draws), Classify(height);
      && (forall m' :: s.batches.Get(m') <= r.batches.Get(m'))
      && s.batches.Get(m) + HexGeometry(height, position) <= r.batches.Get(m)
  {
    MakeHexByMaterial(s, height, position, draws);
  }

  /** Only the tile's own batch and its decoration's batch can change. */
  lemma MakeHexLeavesOthers(s: State, height: real, position: Vec2, draws: nat -> real)
    ensures var r, m := MakeHexSpec(s, height, position, draws), Classify(height);
      forall m' :: m' != m && DecorationTarget(m) != Some(m') ==> r.batches.Get(m') == s.batches.Get(m')
  {
    MakeHexByMaterial(s, height, position, draws);
  }

  /** The tile adds exactly one prism, to the batch of its material, and
      none to any other batch (decorations are not prisms). */
  lemma MakeHexAddsOnePrism(s: State, height: real, position: Vec2, draws: nat -> real)
    ensures var r, m := MakeHexSpec(s, height, position, draws), Classify(height);
      && (forall m' :: PrismCount(r.batches.Get(m')) == PrismCount(s.batches.Get(m')) + (if m' == m then 1 else 0))
      && PrismTotal(r.batches) == PrismTotal(s.batches) + 1
  {
    var r, b, k := MakeHexSpec(s, height, position, draws), s.batches, s.cursor;
    var hex, roll := HexGeometry(height, position), draws(k) > DecorationRoll;
    MakeHexByMaterial(s, height, position, draws);
    match Classify(height)
    case Stone =>
      var deco := if roll then RockAt(height, position, draws, k) else [];
      PrismCountAppend(b.stone, hex);
      PrismCountAppend(b.stone + hex, deco);
    case Dirt =>
      var deco := if roll then Tree(height, position, draws(k + 1)) else [];
      PrismCountAppend(b.dirt, hex);
      PrismCountAppend(b.grass, deco);
    case Grass =>
      PrismCountAppend(b.grass, hex);
    case Sand =>
      var deco := if roll then RockAt(height, position, draws, k) else [];
      PrismCountAppend(b.sand, hex);
      PrismCountAppend(b.stone, deco);
    case Dirt2 =>
      PrismCountAppend(b.dirt2, hex);
  }

  /** Every prism in a geometry stands on the ground and is at most
      MAX_HEIGHT tall. */
  ghost predicate Grounded(g: Geometry)
  {
    forall k :: 0 <= k < |g| && IsHexPrism(g[k]) ==> 0.0 <= g[k].height <= MaxHeight && Bottom(g[k]) == 0.0
  }

  ghost predicate AllGrounded(b: Batches)
  {
    forall m :: Grounded(b.Get(m))
  }

  /** A tile whose height is in [0, MAX_HEIGHT] keeps every prism of every
      batch grounded and within the height range. */
  lemma MakeHexKeepsGrounded(s: State, height: real, position: Vec2, draws: nat -> real)
    requires 0.0 <= height <= MaxHeight
    requires AllGrounded(s.batches)
    ensures AllGrounded(MakeHexSpec(s, height, position, draws).batches)
  {
    var r, b, k := MakeHexSpec(s, height, position, draws), s.batches, s.cursor;
    var hex := HexGeometry(height, position);
    MakeHexByMaterial(s, height, position, draws);
    forall m ensures Grounded(r.batches.Get(m)) {
      GroundedAppend(b.Get(m), hex);
      GroundedAppend(b.Get(m), RockAt(height, position, draws, k));
      GroundedAppend(b.Get(m) + hex, RockAt(height, position, draws, k));
      GroundedAppend(b.Get(m), Tree(height, position, draws(k + 1)));
      GroundedAppend(b.Get(m), []);
    }
  }

  lemma GroundedAppend(a: Geometry, c: Geometry)
    requires Grounded(a) && Grounded(c)
    ensures Grounded(a + c)
  {
    forall k | 0 <= k < |a + c| && IsHexPrism((a + c)[k])
      ensures 0.0 <= (a + c)[k].height <= MaxHeight && Bottom((a + c)[k]) == 0.0
    {
      if k < |a| { assert (a + c)[k] == a[k]; } else { assert (a + c)[k] == c[k - |a|]; }
    }
  }

  /** The module-level batches, reassigned by each `makeHex` call. */
  class World {
    var stoneGeo: Geometry
    var dirtGeo: Geometry
    var dirt2Geo: Geometry
    var sandGeo: Geometry
    var grassGeo: Geometry

    function Contents(): Batches
      reads this
    {
      Batches(stoneGeo, dirtGeo, dirt2Geo, sandGeo, grassGeo)
    }

    constructor ()
      ensures Contents() == InitialBatches
    {
      var seed := [Box(0.0, 0.0, 0.0, Origin)];
      stoneGeo, dirtGeo, dirt2Geo, sandGeo, grassGeo := seed, seed, seed, seed, seed;
    }

    /** `if (Math.random() > 0.8) stoneGeo = mergeBufferGeometries([stoneGeo,
        stone(height, position)])`: one roll, then the rock's three draws. */
    method MaybeAddRock(height: real, position: Vec2, rng: Random)
      modifies this, rng
      ensures var k := old(rng.index);
        if rng.draws(k) > DecorationRoll then
          stoneGeo == old(stoneGeo) + RockAt(height, position, rng.draws, k) && rng.index == k + 4
        else
          stoneGeo == old(stoneGeo) && rng.index == k + 1
      ensures dirtGeo == old(dirtGeo) && dirt2Geo == old(dirt2Geo) && sandGeo == old(sandGeo) && grassGeo == old(grassGeo)
    {
      var roll := rng.Next();
      if roll > DecorationRoll {
        var px := rng.Next();
        var pz := rng.Next();
        var radius := rng.Next();
        var rock := Rock(height, position, px, pz, radius);
        MergePair(stoneGeo, rock);
        stoneGeo := Merge([stoneGeo, rock]);
      }
    }

    /** `if (Math.random() > 0.8) grassGeo = mergeBufferGeometries([grassGeo,
        tree(height, position)])`: one roll, then the tree's draw. */
    method MaybeAddTree(height: real, position: Vec2, rng: Random)
      modifies this, rng
      ensures var k := old(rng.index);
        if rng.draws(k) > DecorationRoll then
          grassGeo == old(grassGeo) + Tree(height, position, rng.draws(k + 1)) && rng.index == k + 2
        else
          grassGeo == old(grassGeo) && rng.index == k + 1
      ensures stoneGeo == old(stoneGeo) && dirtGeo == old(dirtGeo) && dirt2Geo == old(dirt2Geo) && sandGeo == old(sandGeo)
    {
      var roll := rng.Next();
      if roll > DecorationRoll {
        var draw := rng.Next();
        var tree := Tree(height, position, draw);
        MergePair(grassGeo, tree);
        grassGeo := Merge([grassGeo, tree]);
      }
    }

    /** `makeHex(height, position)`, drawing from `rng` as `Math.random()`. */
    method MakeHex(height: real, position: Vec2, rng: Random)
      modifies this, rng
      ensures State(Contents(), rng.index) == MakeHexSpec(State(old(Contents()), old(rng.index)), height, position, rng.draws)
    {
      var geo := HexGeometry(height, position);
      if height > StoneHeight {
        MergePair(stoneGeo, geo);
        stoneGeo := Merge([stoneGeo, geo]);
        MaybeAddRock(height, position, rng);
      } else if height > DirtHeight {
        MergePair(dirtGeo, geo);
        dirtGeo := Merge([dirtGeo, geo]);
        MaybeAddTree(height, position, rng);
      } else if height > GrassHeight {
        MergePair(grassGeo, geo);
        grassGeo := Merge([grassGeo, geo]);
      } else if height > SandHeight {
        MergePair(sandGeo, geo);
        sandGeo := Merge([sandGeo, geo]);
        MaybeAddRock(height, position, rng);
      } else {
        assert Classify(height) == Dirt2;
        MergePair(dirt2Geo, geo);
        dirt2Geo := Merge([dirt2Geo, geo]);
      }
    }
  }
}
