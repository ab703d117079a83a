/** The cloud layer: a random number of three-puff clusters, each placed at
    a random point of a box above the island and turned about the vertical
    axis. */
module Clouds {
  import opened Builder
  import opened Rng

  /** A cluster as placed before its turn, and the draw that sets the turn.
      The turn (by `turn * 2π`) is about the world's vertical axis and comes
      after the cluster is moved, so it swings the cluster around the
      origin and keeps every height. */
  datatype Cloud = Cloud(puffs: Geometry, turn: real)

  /** `Math.floor(p * 10 + 10)`, where `p` is `Math.pow(Math.random(), 0.45)`.
      For `p` in [0, 1) the layer has between 10 and 19 clusters. */
  function CloudCount(p: real): (n: int)
    ensures 0.0 <= p < 1.0 ==> 10 <= n <= 19
  {
    (p * 10.0 + 10.0).Floor
  }

  /** One puff: a sphere of the given radius, shifted `dx` along the row and
      lifted by 0.3 times its draw. */
  function Puff(radius: real, dx: real, lift: real): Geometry
  {
    Translate([Sphere(radius, 7, 7, Origin)], Vec3(dx, lift * 0.3, 0.0))
  }

  /** Where a cluster is moved: x and z in [-35, 35), y in [8, 16). */
  function CloudOffset(tx: real, ty: real, tz: real): Vec3
  {
    Vec3(tx * 70.0 - 35.0, ty * 8.0 + 8.0, tz * 70.0 - 35.0)
  }

  /** A puff sphere where the cluster body leaves it: shifted `dx` along the
      row, lifted by 0.3 times its draw, then moved by the cluster offset. */
  function PuffAt(radius: real, dx: real, lift: real, offset: Vec3): Primitive
  {
    Sphere(radius, 7, 7, Vec3(dx + offset.x, lift * 0.3 + offset.y, offset.z))
  }

  /** The cluster built from the seven draws starting at `k`, in the order
      the loop body makes them: three lifts, the three offsets, the turn. */
  function CloudAt(draws: nat -> real, k: nat): Cloud
  {
    var offset := CloudOffset(draws(k + 3), draws(k + 4), draws(k + 5));
    Cloud([PuffAt(1.2, -1.85, draws(k), offset), PuffAt(1.5, 0.0, draws(k + 1), offset), PuffAt(0.9, 1.85, draws(k + 2), offset)],
          draws(k + 6))
  }

  /** Whatever the draws, a cluster is a row of three spheres of radii 1.2,
      1.5 and 0.9, 1.85 apart along x at one shared z, turned by its last
      draw. */
  lemma CloudAtShape(draws: nat -> real, k: nat)
    ensures var c := CloudAt(draws, k);
      && |c.puffs| == 3 && c.puffs[0].Sphere? && c.puffs[1].Sphere? && c.puffs[2].Sphere?
      && c.puffs[0].radius == 1.2 && c.puffs[1].radius == 1.5 && c.puffs[2].radius == 0.9
      && c.puffs[1].center.x - c.puffs[0].center.x == 1.85 && c.puffs[2].center.x - c.puffs[1].center.x == 1.85
      && c.puffs[0].center.z == c.puffs[1].center.z == c.puffs[2].center.z
      && c.turn == draws(k + 6)
  {
  }

  /** The first `n` clusters built from the draws starting at `k`. */
  function CloudsFrom(draws: nat -> real, k: nat, n: nat): (cs: seq<Cloud>)
    ensures |cs| == n
    decreases n
  {
    if n == 0 then [] else [CloudAt(draws, k)] + CloudsFrom(draws, k + 7, n - 1)
  }

  /** Cluster c of the layer is built from the seven draws at k + 7c: each
      cluster consumes exactly seven draws. */
  lemma {:induction false} CloudsFromAt(draws: nat -> real, k: nat, n: nat, c: nat)
    requires c < n
    ensures CloudsFrom(draws, k, n)[c] == CloudAt(draws, k + 7 * c)
    decreases c
  {
    if c > 0 {
      CloudsFromAt(draws, k + 7, n - 1, c - 1);
      assert k + 7 + 7 * (c - 1) == k + 7 * c;
    }
  }

  /** A cluster lies in the band the generator intends. */
  ghost predicate WellPlaced(c: Cloud)
  {
    && |c.puffs| == 3
    && c.puffs[0].Sphere? && c.puffs[0].radius == 1.2
    && c.puffs[1].Sphere? && c.puffs[1].radius == 1.5
    && c.puffs[2].Sphere? && c.puffs[2].radius == 0.9
    && (forall p :: 0 <= p < 3 ==> 8.0 <= c.puffs[p].center.y < 16.3)
    && (forall p :: 0 <= p < 3 ==> -36.85 <= c.puffs[p].center.x < 36.85 && -35.0 <= c.puffs[p].center.z < 35.0)
    && 0.0 <= c.turn < 1.0
  }

  /** A cluster is three spheres of radii 1.2, 1.5 and 0.9 whose centres
      lie at heights in [8, 16.3) (a turn about the vertical axis keeps
      heights), inside the box |x| < 36.85, |z| < 35 before the turn. */
  lemma CloudShape(draws: nat -> real, k: nat)
    requires forall d :: k <= d < k + 7 ==> 0.0 <= draws(d) < 1.0
    ensures WellPlaced(CloudAt(draws, k))
  {
    assert 0.0 <= draws(k) < 1.0 && 0.0 <= draws(k + 1) < 1.0 && 0.0 <= draws(k + 2) < 1.0;
    assert 0.0 <= draws(k + 3) < 1.0 && 0.0 <= draws(k + 4) < 1.0 && 0.0 <= draws(k + 5) < 1.0;
    assert 0.0 <= draws(k + 6) < 1.0;
  }

  /** Every cluster of the layer is well placed. */
  lemma {:induction false} CloudsWellPlaced(draws: nat -> real, k: nat, n: nat)
    requires UnitDraws(draws)
    ensures forall c :: 0 <= c < n ==> WellPlaced(CloudsFrom(draws, k, n)[c])
  {
    forall c | 0 <= c < n ensures WellPlaced(CloudsFrom(draws, k, n)[c]) {
      CloudsFromAt(draws, k, n, c);
      CloudShape(draws, k + 7 * c);
    }
  }

  /** Merging the three puffs and translating the merged geometry leaves
      each puff, in order, where `PuffAt` places it. */
  lemma PuffsPlaced(lift1: real, lift2: real, lift3: real, offset: Vec3)
    ensures Translate(Merge([Puff(1.2, -1.85, lift1), Puff(1.5, 0.0, lift2), Puff(0.9, 1.85, lift3)]), offset)
         == [PuffAt(1.2, -1.85, lift1, offset), PuffAt(1.5, 0.0, lift2, offset), PuffAt(0.9, 1.85, lift3, offset)]
  {
    var p1, p2, p3 := Puff(1.2, -1.85, lift1), Puff(1.5, 0.0, lift2), Puff(0.9, 1.85, lift3);
    MergeTriple(p1, p2, p3);
    var g := Translate(p1 + p2 + p3, offset);
    assert g[0] == PuffAt(1.2, -1.85, lift1, offset);
    assert g[1] == PuffAt(1.5, 0.0, lift2, offset);
    assert g[2] == PuffAt(0.9, 1.85, lift3, offset);
  }

  /** The body of the cluster loop: three puffs merged, moved, then turned. */
  method MakeCloud(rng: Random) returns (cloud: Cloud)
    modifies rng
    ensures cloud == CloudAt(rng.draws, old(rng.index)) && rng.index == old(rng.index) + 7
  {
    var lift1 := rng.Next();
    var lift2 := rng.Next();
    var lift3 := rng.Next();
    var cloudGeo := Merge([Puff(1.2, -1.85, lift1), Puff(1.5, 0.0, lift2), Puff(0.9, 1.85, lift3)]);
    var tx := rng.Next();
    var ty := rng.Next();
    var tz := rng.Next();
    PuffsPlaced(lift1, lift2, lift3, CloudOffset(tx, ty, tz));
    cloudGeo := Translate(cloudGeo, CloudOffset(tx, ty, tz));
    var turn := rng.Next();
    cloud := Cloud(cloudGeo, turn);
  }

  /** The cluster loop: `n` clusters, seven draws each, in draw order. */
  method MakeCloudLayer(rng: Random, n: nat) returns (clouds: seq<Cloud>)
    modifies rng
    ensures clouds == CloudsFrom(rng.draws, old(rng.index), n)
    ensures rng.index == old(rng.index) + 7 * n
  {
    ghost var start := rng.index;
    clouds := [];
    var i: nat := 0;
    while i < n
      invariant i <= n
      invariant clouds + CloudsFrom(rng.draws, rng.index, n - i) == CloudsFrom(rng.draws, start, n)
      invariant rng.index == start + 7 * i
    {
      ghost var rest := CloudsFrom(rng.draws, rng.index + 7, n - i - 1);
      var cloud := MakeCloud(rng);
      assert clouds + [cloud] + rest == CloudsFrom(rng.draws, start, n);
      clouds := clouds + [cloud];
      i := i + 1;
    }
  }

  /** `clouds()`: draws the cluster count (through `pow045`, standing for
      `x => Math.pow(x, 0.45)`), then builds that many clusters. */
  method MakeClouds(rng: Random, pow045: real -> real) returns (clouds: seq<Cloud>)
    modifies rng
    ensures var start, count := old(rng.index) + 1, CloudCount(pow045(rng.draws(old(rng.index))));
      && clouds == CloudsFrom(rng.draws, start, if count > 0 then count else 0)
      && rng.index == start + 7 * |clouds|
  {
    var u := rng.Next();
    var count := CloudCount(pow045(u));
    clouds := MakeCloudLayer(rng, if count > 0 then count else 0);
  }
}
