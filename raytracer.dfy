/**
 * The CPU side of the ray tracer (public/posts/ray-tracing-in-a-weekend/index.js):
 * the scene that `CoreProgram.createRandomScene` builds, and the two-texture
 * ping-pong with its sample counter that `CoreProgram.prototype.update` and
 * `render` keep. The WebGL calls themselves are not modelled; textures are
 * opaque handles.
 */
module RayTracer {
  import opened Wrappers
  import opened Shader

  function Vec3(x: real, y: real, z: real): Value
  {
    Arr([Num(x), Num(y), Num(z)])
  }

  lemma Vec3Literal(x: real, y: real, z: real)
    ensures Literal(Vec3(x, y, z))
  {
    var items := [Num(x), Num(y), Num(z)];
    assert forall k :: 0 <= k < 3 ==> Literal(items[k]);
  }

  function Diffuse(albedo: Value): Material
  {
    Material(Lambertian, Some(albedo), None, None)
  }

  /** `glassMaterial` (index.js:265-268), shared by every glass sphere. */
  const GlassMaterial: Material := Material(Dielectric, None, None, Some(Num(1.5)))

  /** The ground sphere (index.js:256-263). */
  const Ground: Sphere := Sphere(Vec3(0.0, -1000.0, 0.0), Num(1000.0), Diffuse(Vec3(0.5, 0.5, 0.5)))

  /** The three large spheres added after the grid (index.js:326-349). */
  const FeatureSpheres: seq<Sphere> := [
    Sphere(Vec3(0.0, 1.0, 0.0), Num(1.0), GlassMaterial),
    Sphere(Vec3(-4.0, 1.0, 0.0), Num(1.0), Diffuse(Vec3(0.4, 0.2, 0.1))),
    Sphere(Vec3(4.0, 1.0, 0.0), Num(1.0), Material(Metal, Some(Vec3(0.7, 0.6, 0.5)), Some(Num(0.0)), None))
  ]

  /** The number of grid cells the loops visit: a in [-6, 6), b in {-6, -4, ..., 4}. */
  const GridCells: nat := 72

  /**
   * `Math.sqrt(x*x + y*y + z*z) > 0.9` with y = 0: the centre is more than
   * 0.9 away from (4, 0.2, 0). Both sides are non-negative, so the test is
   * stated on squares.
   */
  predicate FarFromMetal(x: real, z: real)
  {
    (x - 4.0) * (x - 4.0) + z * z > 0.81
  }

  /** The material chosen for a small sphere by the draw `choose_mat` (index.js:284-321). */
  predicate MaterialFits(m: Material, chooseMat: real)
  {
    if chooseMat < 0.8 then m.kind == Lambertian && m.albedo.Some? && m.fuzz.None? && m.indexOfRefraction.None?
    else if chooseMat < 0.95 then m.kind == Metal && m.albedo.Some? && m.fuzz.Some? && m.indexOfRefraction.None?
    else m == GlassMaterial
  }

  /** A sphere of the grid: radius 0.2, resting at height 0.2, away from the metal feature sphere. */
  predicate SmallSphere(s: Sphere)
  {
    s.r == Num(0.2) && s.center.Arr? && |s.center.items| == 3 &&
    s.center.items[0].Num? && s.center.items[1] == Num(0.2) && s.center.items[2].Num? &&
    FarFromMetal(s.center.items[0].x, s.center.items[2].x) &&
    (s.material.kind == Dielectric ==> s.material == GlassMaterial) &&
    SphereLiteral(s)
  }

  /** `CoreProgram.world`, which `createRandomScene` replaces. */
  class Scene {
    var depth: nat
    var materials: seq<Material>
    var spheres: seq<Sphere>

    function World(): World
      reads this
    {
      Shader.World(depth, materials, spheres)
    }

    /** The first statements of `createRandomScene` (index.js:248-253): the world reset to no materials, no spheres and depth 50. */
    constructor ()
      ensures depth == 50 && materials == [] && spheres == []
    {
      depth := 50;
      materials := [];
      spheres := [];
    }

    /**
     * `random(k)` is the value of the k-th call of `Math.random()`;
     * `random_uniform()` maps it to 2 r - 1.
     */
    static function Uniform(random: nat -> real, k: nat): real
    {
      2.0 * random(k) - 1.0
    }

    /**
     * One iteration of the inner loop of `createRandomScene` (index.js:277-322)
     * for cell (a, b), whose first draw is call number `calls`: a sphere is
     * pushed exactly when its centre is far from the metal feature sphere, and
     * its material follows the first draw.
     */
    method PlaceSphere(a: int, b: int, random: nat -> real, calls: nat) returns (next: nat)
      modifies this
      ensures depth == old(depth) && materials == old(materials)
      ensures next >= calls + 3
      ensures var x, z := a as real + 0.8 * Uniform(random, calls + 1), b as real + 0.9 * Uniform(random, calls + 2);
        if FarFromMetal(x, z) then
          |spheres| == |old(spheres)| + 1 && spheres[..|old(spheres)|] == old(spheres) &&
          var s := spheres[|old(spheres)|];
          s.center == Vec3(x, 0.2, z) && SmallSphere(s) && MaterialFits(s.material, Uniform(random, calls))
        else spheres == old(spheres)
    {
      next := calls;
      var chooseMat := Uniform(random, next);
      next := next + 1;
      var cx := a as real + 0.8 * Uniform(random, next);
      next := next + 1;
      var cz := b as real + 0.9 * Uniform(random, next);
      next := next + 1;
      var center := Vec3(cx, 0.2, cz);
      Vec3Literal(cx, 0.2, cz);
      var x, y, z := cx - 4.0, 0.2 - 0.2, cz - 0.0;
      if x * x + y * y + z * z > 0.81 {
        if chooseMat < 0.8 {
          var albedo := Vec3(Uniform(random, next), Uniform(random, next + 1), Uniform(random, next + 2));
          Vec3Literal(Uniform(random, next), Uniform(random, next + 1), Uniform(random, next + 2));
          next := next + 3;
          // `materials.push()` with no argument appends nothing.
          materials := materials + [];
          spheres := spheres + [Sphere(center, Num(0.2), Diffuse(albedo))];
        } else if chooseMat < 0.95 {
          var albedo := Vec3(random(next) / 2.0 + 0.5, random(next + 1) / 2.0 + 0.5, random(next + 2) / 2.0 + 0.5);
          var fuzz := random(next + 3) / 2.0;
          Vec3Literal(random(next) / 2.0 + 0.5, random(next + 1) / 2.0 + 0.5, random(next + 2) / 2.0 + 0.5);
          next := next + 4;
          materials := materials + [];
          spheres := spheres + [Sphere(center, Num(0.2), Material(Metal, Some(albedo), Some(Num(fuzz)), None))];
        } else {
          spheres := spheres + [Sphere(center, Num(0.2), GlassMaterial)];
        }
      }
    }

    /**
     * `CoreProgram.createRandomScene()` (index.js:247-349): depth 50, no
     * materials, the ground sphere first, then at most one small sphere per
     * grid cell, then the three feature spheres.
     */
    method CreateRandomScene(random: nat -> real)
      modifies this
      ensures depth == 50 && materials == []
      ensures 4 <= |spheres| <= 4 + GridCells
      ensures spheres[0] == Ground
      ensures spheres[|spheres| - 3..] == FeatureSpheres
      ensures forall k :: 1 <= k < |spheres| - 3 ==> SmallSphere(spheres[k])
      ensures forall k :: 0 <= k < |spheres| ==> SphereLiteral(spheres[k])
    {
      depth, materials, spheres := 50, [], [];
      spheres := spheres + [Ground];
      var calls := 0;
      var a := -6;
      while a < 6
        invariant -6 <= a <= 6
        invariant depth == 50 && materials == []
        invariant 1 <= |spheres| <= 1 + 6 * (a + 6) && spheres[0] == Ground
        invariant forall k :: 1 <= k < |spheres| ==> SmallSphere(spheres[k])
      {
        var b := -6;
        ghost var j := 0;
        while b < 6
          invariant b == -6 + 2 * j && 0 <= j <= 6
          invariant depth == 50 && materials == []
          invariant 1 <= |spheres| <= 1 + 6 * (a + 6) + j && spheres[0] == Ground
          invariant forall k :: 1 <= k < |spheres| ==> SmallSphere(spheres[k])
        {
          calls := PlaceSphere(a, b, random, calls);
          b, j := b + 2, j + 1;
        }
        a := a + 1;
      }
      assert forall k :: 0 <= k < |FeatureSpheres| ==> SphereLiteral(FeatureSpheres[k]);
      spheres := spheres + FeatureSpheres;
    }
  }

  /** A random scene always populates the shader template: no value in it makes `glslValue` throw. */
  lemma RandomScenePopulates(shader: string, w: World, fmt: real -> string)
    requires forall k :: 0 <= k < |w.spheres| ==> SphereLiteral(w.spheres[k])
    ensures PopulateTemplate(shader, w, fmt).Ok?
  {
    forall k | 0 <= k < |w.spheres| ensures Declaration(w.spheres[k], k, fmt).Ok? {
      DeclarationSucceeds(w.spheres[k], k, fmt);
    }
    PopulateFails(shader, w, fmt);
  }

  /** The weight `samples / (samples + 1)` given to the accumulated image (index.js:417). */
  function SampleRatio(samples: nat): (r: real)
    ensures 0.0 <= r < 1.0
    ensures samples == 0 <==> r == 0.0
  {
    samples as real / (samples as real + 1.0)
  }

  /** Later samples give the accumulated image more weight. */
  lemma SampleRatioGrows(m: nat, n: nat)
    requires m < n
    ensures SampleRatio(m) < SampleRatio(n)
  {
    RatioGrows(m as real, n as real);
  }

  lemma RatioGrows(x: real, y: real)
    requires 0.0 <= x < y
    ensures x / (x + 1.0) < y / (y + 1.0)
  {
    var d := (x + 1.0) * (y + 1.0);
    assert d > 0.0;
    assert x / (x + 1.0) == x * (y + 1.0) / d;
    assert y / (y + 1.0) == y * (x + 1.0) / d;
    assert x * (y + 1.0) < y * (x + 1.0);
  }

  /** A WebGL texture, as an opaque handle. */
  type Texture = nat

  /**
   * `CoreProgram` (index.js:110-152, 401-444): two textures, the first read
   * and displayed, the second rendered into, and the number of samples
   * accumulated so far.
   */
  class CoreProgram {
    var textures: seq<Texture>
    var samples: nat

    predicate Valid()
      reads this
    {
      |textures| == 2 && textures[0] != textures[1]
    }

    /** The constructor creates two textures and starts with no samples (index.js:125-145). */
    constructor (first: Texture, second: Texture)
      requires first != second
      ensures Valid() && textures == [first, second] && samples == 0
    {
      textures := [first, second];
      samples := 0;
    }

    /**
     * `update` (index.js:401-426): render from `textures[0]` into
     * `textures[1]` with weight `samples / (samples + 1)`, then reverse the
     * two and count the sample.
     */
    method Update() returns (source: Texture, target: Texture, ratio: real)
      requires Valid()
      modifies this
      ensures Valid()
      ensures source == old(textures[0]) && target == old(textures[1]) && source != target
      ensures ratio == SampleRatio(old(samples))
      ensures textures == [old(textures[1]), old(textures[0])]
      ensures samples == old(samples) + 1
    {
      source, target := textures[0], textures[1];
      ratio := samples as real / (samples as real + 1.0);
      textures := [textures[1], textures[0]];
      samples := samples + 1;
    }

    /** `render` (index.js:427-444) displays `textures[0]`. */
    method Render() returns (shown: Texture)
      requires Valid()
      ensures shown == textures[0]
    {
      shown := textures[0];
    }

    /**
     * One frame of `draw` (index.js:449-451): update, then render. The
     * texture displayed is the one just rendered into, never the one read.
     */
    method Frame() returns (written: Texture, shown: Texture)
      requires Valid()
      modifies this
      ensures Valid() && shown == written && written == old(textures[1])
      ensures textures == [old(textures[1]), old(textures[0])] && samples == old(samples) + 1
    {
      var source, ratio;
      source, written, ratio := Update();
      shown := Render();
    }
  }
}
