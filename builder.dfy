/** Geometry as the terrain generator sees it: primitive solids placed in
    world space, geometries as sequences of them, merging as concatenation,
    and the factories for a tile's prism, a rock and a tree. */
module Builder {
  import opened HexGrid

  datatype Vec3 = Vec3(x: real, y: real, z: real)

  const Origin := Vec3(0.0, 0.0, 0.0)

  function Add(a: Vec3, b: Vec3): Vec3
  {
    Vec3(a.x + b.x, a.y + b.y, a.z + b.z)
  }

  /** A primitive solid with the parameters its constructor was given and
      the world position of its centre (all primitives are created centred
      at the origin and then translated). */
  datatype Primitive =
    | Box(width: real, height: real, depth: real, center: Vec3)
    | Cylinder(radiusTop: real, radiusBottom: real, height: real, radialSegments: nat, center: Vec3)
    | Sphere(radius: real, widthSegments: nat, heightSegments: nat, center: Vec3)

  /** A (possibly merged) geometry: its primitives in buffer order. */
  type Geometry = seq<Primitive>

  /** Vertical extent of a cylinder or cone: bottom and top y. */
  function Bottom(p: Primitive): real requires p.Cylinder? { p.center.y - p.height / 2.0 }
  function Top(p: Primitive): real requires p.Cylinder? { p.center.y + p.height / 2.0 }

  function TranslatePrimitive(p: Primitive, d: Vec3): (q: Primitive)
    ensures q.center == Add(p.center, d)
  {
    p.(center := Add(p.center, d))
  }

  lemma TranslatePrimitiveTwice(p: Primitive, d1: Vec3, d2: Vec3)
    ensures TranslatePrimitive(TranslatePrimitive(p, d1), d2) == TranslatePrimitive(p, Add(d1, d2))
  {
    assert Add(Add(p.center, d1), d2) == Add(p.center, Add(d1, d2));
  }

  /** `geometry.translate(dx, dy, dz)`: moves every primitive by `d` and
      keeps their order and shapes. */
  function Translate(g: Geometry, d: Vec3): (r: Geometry)
    ensures |r| == |g|
    ensures forall k :: 0 <= k < |g| ==> r[k] == TranslatePrimitive(g[k], d)
  {
    if g == [] then [] else [TranslatePrimitive(g[0], d)] + Translate(g[1..], d)
  }

  /** Two translations are one translation by the sum. */
  lemma TranslateTwice(g: Geometry, d1: Vec3, d2: Vec3)
    ensures Translate(Translate(g, d1), d2) == Translate(g, Add(d1, d2))
  {
    var once, twice := Translate(g, Add(d1, d2)), Translate(Translate(g, d1), d2);
    forall k | 0 <= k < |g| ensures twice[k] == once[k] {
      TranslatePrimitiveTwice(g[k], d1, d2);
    }
  }

  /** `mergeBufferGeometries(gs)`: the inputs' buffers one after another. */
  function Merge(gs: seq<Geometry>): (g: Geometry)
    ensures gs == [] ==> g == []
    ensures |gs| == 1 ==> g == gs[0]
  {
    if gs == [] then [] else gs[0] + Merge(gs[1..])
  }

  /** Merging is associative: merging two lists of geometries equals merging
      each and concatenating the results. */
  lemma {:induction false} MergeAppend(xs: seq<Geometry>, ys: seq<Geometry>)
    ensures Merge(xs + ys) == Merge(xs) + Merge(ys)
  {
    if xs == [] {
      assert xs + ys == ys;
    } else {
      assert (xs + ys)[1..] == xs[1..] + ys;
      MergeAppend(xs[1..], ys);
    }
  }

  /** Merging two geometries appends the second to the first. */
  lemma MergePair(a: Geometry, b: Geometry)
    ensures Merge([a, b]) == a + b
  {
    assert [a, b][1..] == [b];
  }

  /** Merging three geometries appends them in order. */
  lemma MergeTriple(a: Geometry, b: Geometry, c: Geometry)
    ensures Merge([a, b, c]) == a + b + c
  {
    assert [a, b, c][1..] == [b, c];
    MergePair(b, c);
  }

  /** A hexagonal prism: a six-sided cylinder. Tree cones have three sides
      and rocks are spheres, so they are never counted as prisms. */
  predicate IsHexPrism(p: Primitive)
  {
    p.Cylinder? && p.radialSegments == 6
  }

  /** Number of hexagonal prisms in a geometry. */
  function PrismCount(g: Geometry): nat
  {
    if g == [] then 0 else (if IsHexPrism(g[0]) then 1 else 0) + PrismCount(g[1..])
  }

  /** Prisms of a concatenation are the prisms of its parts. */
  lemma {:induction false} PrismCountAppend(a: Geometry, b: Geometry)
    ensures PrismCount(a + b) == PrismCount(a) + PrismCount(b)
  {
    if a == [] {
      assert a + b == b;
    } else {
      assert (a + b)[1..] == a[1..] + b;
      PrismCountAppend(a[1..], b);
    }
  }

  /** A geometry without a six-sided cylinder holds no prism. */
  lemma {:induction false} NoPrisms(g: Geometry)
    requires forall k :: 0 <= k < |g| ==> !IsHexPrism(g[k])
    ensures PrismCount(g) == 0
  {
    if g != [] {
      NoPrisms(g[1..]);
    }
  }

  /** `hexGeometry(height, position)`: a unit-radius six-sided prism of the
      given height, standing on the ground (y = 0) with its top at y =
      height, above the tile's position. */
  function HexGeometry(height: real, position: Vec2): (g: Geometry)
    ensures |g| == 1 && IsHexPrism(g[0]) && PrismCount(g) == 1
    ensures g[0].radiusTop == 1.0 && g[0].radiusBottom == 1.0 && g[0].height == height
    ensures Bottom(g[0]) == 0.0 && Top(g[0]) == height
    ensures g[0].center.x == position.x && g[0].center.z == position.y
  {
    Translate([Cylinder(1.0, 1.0, height, 6, Origin)], Vec3(position.x, height * 0.5, position.y))
  }

  /** `stone(height, position)` given its three draws of `Math.random()`,
      in call order: the x jitter, the z jitter and the radius. */
  function Rock(height: real, position: Vec2, px: real, pz: real, radius: real): (g: Geometry)
    ensures |g| == 1 && g[0].Sphere? && PrismCount(g) == 0
  {
    Translate([Sphere(radius * 0.3 + 0.1, 7, 7, Origin)], Vec3(position.x + px * 0.4, height, position.y + pz * 0.4))
  }

  /** A rock is a small sphere resting at tile-top height, jittered by less
      than 0.4 toward +x and +z, with a radius in [0.1, 0.4). */
  lemma RockPlacement(height: real, position: Vec2, px: real, pz: real, radius: real)
    requires 0.0 <= px < 1.0 && 0.0 <= pz < 1.0 && 0.0 <= radius < 1.0
    ensures var rock := Rock(height, position, px, pz, radius)[0];
      && 0.1 <= rock.radius < 0.4
      && rock.center.y == height
      && 0.0 <= rock.center.x - position.x < 0.4
      && 0.0 <= rock.center.z - position.y < 0.4
  {
  }

  /** Radii of a tree's three cones, bottom to top. */
  const TreeRadii: seq<real> := [1.5, 1.15, 0.8]
  /** Height of each cone's centre above the tile top, in tree heights. */
  const TreeLevels: seq<real> := [0.0, 0.6, 1.25]

  /** A three-sided cone of the tree, centred `level` tree heights above the
      point one unit over the tile top. */
  function Cone(height: real, position: Vec2, treeHeight: real, k: nat): (g: Geometry)
    requires k < 3
    ensures |g| == 1 && g[0].Cylinder? && g[0].radialSegments == 3
    ensures g[0].radiusTop == 0.0 && g[0].radiusBottom == TreeRadii[k] && g[0].height == treeHeight
    ensures g[0].center == Vec3(position.x, height + treeHeight * TreeLevels[k] + 1.0, position.y)
  {
    Translate([Cylinder(0.0, TreeRadii[k], treeHeight, 3, Origin)],
              Vec3(position.x, height + treeHeight * TreeLevels[k] + 1.0, position.y))
  }

  /** `tree(height, position)` given its draw of `Math.random()`: three
      stacked cones merged into one geometry. */
  function Tree(height: real, position: Vec2, draw: real): (g: Geometry)
    ensures |g| == 3 && PrismCount(g) == 0
    ensures forall k :: 0 <= k < 3 ==> g[k].Cylinder? && g[k].radialSegments == 3 && g[k].radiusTop == 0.0
  {
    var treeHeight := draw * 1.0 + 1.25;
    var c0, c1, c2 := Cone(height, position, treeHeight, 0), Cone(height, position, treeHeight, 1), Cone(height, position, treeHeight, 2);
    MergeTriple(c0, c1, c2);
    NoPrisms(c0 + c1 + c2);
    Merge([c0, c1, c2])
  }

  /** A tree is a conifer of three cones above the tile centre: radii 1.5,
      1.15, 0.8 shrinking upward, one shared height t in [1.25, 2.25), centres
      at height + 1, height + 0.6 t + 1 and height + 1.25 t + 1, so rising
      strictly, and each cone's base below the previous cone's tip so
      the cones overlap. The lowest base sits less than 0.125 below and at
      most 0.375 above the tile top. */
  lemma TreeShape(height: real, position: Vec2, draw: real)
    requires 0.0 <= draw < 1.0
    ensures var g := Tree(height, position, draw);
      && g[0].radiusBottom == 1.5 && g[1].radiusBottom == 1.15 && g[2].radiusBottom == 0.8
      && g[0].height == g[1].height == g[2].height
      && 1.25 <= g[0].height < 2.25
      && (forall k :: 0 <= k < 3 ==> g[k].center.x == position.x && g[k].center.z == position.y)
      && g[0].center.y < g[1].center.y < g[2].center.y
      && g[0].center.y == height + 1.0
      && g[1].center.y == height + 0.6 * g[0].height + 1.0
      && g[2].center.y == height + 1.25 * g[0].height + 1.0
      && Bottom(g[1]) < Top(g[0]) && Bottom(g[2]) < Top(g[1])
      && height - 0.125 < Bottom(g[0]) <= height + 0.375
  {
    var t := draw * 1.0 + 1.25;
    var c0, c1, c2 := Cone(height, position, t, 0), Cone(height, position, t, 1), Cone(height, position, t, 2);
    MergeTriple(c0, c1, c2);
  }
}
