/**
 * The fragment-shader specialiser of the ray tracer
 * (public/posts/ray-tracing-in-a-weekend/index.js): `glslValue`, which
 * turns a scene value into a GLSL literal, `createMaterial`, and
 * `CoreProgram.populateTemplate`, which writes one constant declaration and
 * one hit test per sphere into the shader template.
 *
 * Numbers are printed with `toFixed(8)`; the model takes that formatter as
 * the parameter `fmt` and assumes nothing of it except where a lemma says so.
 */
module Shader {
  import opened Wrappers
  import Decimal
  import opened Strings

  /** A JavaScript value handed to `glslValue`: a string, a number, an array, or anything else. */
  datatype Value = Str(s: string) | Num(x: real) | Arr(items: seq<Value>) | Other(typeName: string)

  /** `typeof x`, as the error message prints it. */
  function TypeOf(v: Value): string
  {
    match v
    case Str(_) => "string"
    case Num(_) => "number"
    case Arr(_) => "object"
    case Other(t) => t
  }

  function UnknownValue(v: Value): string
  {
    "Unknown glslValue: " + TypeOf(v)
  }

  /**
   * `glslValue(x)` (index.js:12-29): strings pass through, numbers go through
   * the formatter, a non-empty array of n elements becomes `vecn(...)` of its
   * elements' literals joined by commas, and anything else throws.
   */
  function GlslValue(v: Value, fmt: real -> string): (r: Result<string>)
    decreases v, 1
  {
    match v
    case Str(s) => Ok(s)
    case Num(x) => Ok(fmt(x))
    case Arr(items) =>
      if |items| == 0 then Err(UnknownValue(v))
      else
        var parts :- GlslList(items, fmt);
        Ok("vec" + Decimal.NatToString(|items|) + "(" + Join(",", parts) + ")")
    case Other(_) => Err(UnknownValue(v))
  }

  /**
   * `x.map(glslValue)`: the literals of the elements in order; the first
   * element that throws decides the error.
   */
  function GlslList(items: seq<Value>, fmt: real -> string): (r: Result<seq<string>>)
    decreases items, 0
    ensures r.Ok? <==> forall k :: 0 <= k < |items| ==> GlslValue(items[k], fmt).Ok?
    ensures r.Ok? ==>
      |r.value| == |items| && forall k :: 0 <= k < |items| ==> r.value[k] == GlslValue(items[k], fmt).value
    ensures r.Err? ==>
      exists k :: 0 <= k < |items| && GlslValue(items[k], fmt) == Err(r.message) &&
        forall j :: 0 <= j < k ==> GlslValue(items[j], fmt).Ok?
  {
    if |items| == 0 then Ok([])
    else
      var head :- GlslValue(items[0], fmt);
      var tail :- GlslList(items[1..], fmt);
      Ok([head] + tail)
  }

  /** Values `glslValue` accepts: strings, numbers and non-empty arrays of such values. */
  predicate Literal(v: Value)
  {
    match v
    case Str(_) => true
    case Num(_) => true
    case Arr(items) => |items| > 0 && forall k :: 0 <= k < |items| ==> Literal(items[k])
    case Other(_) => false
  }

  /** `glslValue` returns instead of throwing exactly on the values `Literal` describes. */
  lemma {:induction false} GlslValueSucceeds(v: Value, fmt: real -> string)
    ensures GlslValue(v, fmt).Ok? <==> Literal(v)
    decreases v
  {
    match v
    case Str(_) =>
    case Num(_) =>
    case Other(_) =>
    case Arr(items) =>
      forall k | 0 <= k < |items| {
        GlslValueSucceeds(items[k], fmt);
      }
  }

  /** A value whose strings hold no character `c`. */
  predicate Avoids(v: Value, c: char)
  {
    match v
    case Str(s) => c !in s
    case Num(_) => true
    case Arr(items) => forall k :: 0 <= k < |items| ==> Avoids(items[k], c)
    case Other(_) => true
  }

  lemma {:induction false} JoinAvoids(sep: string, parts: seq<string>, c: char)
    requires c !in sep && forall k :: 0 <= k < |parts| ==> c !in parts[k]
    ensures c !in Join(sep, parts)
    decreases |parts|
  {
    if |parts| > 1 {
      JoinAvoids(sep, parts[1..], c);
    }
  }

  /**
   * A character the declarations never print of themselves: not a digit, a
   * lower-case letter, or one of `_ (),;=`. A newline and `$` are such.
   */
  predicate Foreign(c: char)
  {
    !Decimal.IsDigit(c) && !('a' <= c <= 'z') && c != '_' && c != ' ' && c != '(' && c != ')' &&
    c != ',' && c != ';' && c != '='
  }

  /**
   * A literal contains a character `c` only if a string inside the value or
   * the number formatter put it there: the `vec`, digit, parenthesis and
   * comma characters of the array form are the only others.
   */
  lemma {:induction false} GlslValueAvoids(v: Value, fmt: real -> string, c: char)
    requires Avoids(v, c) && Foreign(c)
    requires forall x :: c !in fmt(x)
    requires GlslValue(v, fmt).Ok?
    ensures c !in GlslValue(v, fmt).value
    decreases v
  {
    match v
    case Str(_) =>
    case Num(_) =>
    case Other(_) =>
    case Arr(items) =>
      var parts := GlslList(items, fmt).value;
      forall k | 0 <= k < |parts| ensures c !in parts[k] {
        GlslValueAvoids(items[k], fmt, c);
      }
      JoinAvoids(",", parts, c);
      var n := Decimal.NatToString(|items|);
      assert forall k :: 0 <= k < |n| ==> Decimal.IsDigit(n[k]);
      assert c !in n;
      assert GlslValue(v, fmt).value == "vec" + n + "(" + Join(",", parts) + ")";
  }

  /** `MaterialType` (index.js:4-8). */
  datatype MaterialType = Lambertian | Metal | Dielectric

  function TypeCode(t: MaterialType): (code: nat)
    ensures code < 3
  {
    match t
    case Lambertian => 0
    case Metal => 1
    case Dielectric => 2
  }

  /** A material record; a field the record does not have (or holds `null`) is `None`. */
  datatype Material = Material(kind: MaterialType, albedo: Option<Value>, fuzz: Option<Value>, indexOfRefraction: Option<Value>)

  /** `a ?? d`. */
  function OrElse(a: Option<Value>, d: Value): (r: Value)
    ensures a.Some? ==> r == a.value
    ensures a.None? ==> r == d
  {
    if a.Some? then a.value else d
  }

  const DefaultAlbedo: Value := Arr([Num(0.0), Num(0.0), Num(0.0)])
  const DefaultFuzz: Value := Num(1.0)
  const DefaultIndexOfRefraction: Value := Num(0.0)

  /**
   * `createMaterial(material)` (index.js:213-219): `material(type, albedo,
   * fuzz, ior)` with the missing fields replaced by their defaults.
   */
  function CreateMaterial(m: Material, fmt: real -> string): (r: Result<string>)
  {
    var albedo :- GlslValue(OrElse(m.albedo, DefaultAlbedo), fmt);
    var fuzz :- GlslValue(OrElse(m.fuzz, DefaultFuzz), fmt);
    var ior :- GlslValue(OrElse(m.indexOfRefraction, DefaultIndexOfRefraction), fmt);
    Ok("material(" + Decimal.NatToString(TypeCode(m.kind)) + ", " + albedo + ", " + fuzz + ", " + ior + ")")
  }

  /** The record with every missing field written out as its default. */
  function WithDefaults(m: Material): (d: Material)
    ensures d.kind == m.kind && d.albedo.Some? && d.fuzz.Some? && d.indexOfRefraction.Some?
  {
    Material(m.kind, Some(OrElse(m.albedo, DefaultAlbedo)), Some(OrElse(m.fuzz, DefaultFuzz)),
      Some(OrElse(m.indexOfRefraction, DefaultIndexOfRefraction)))
  }

  /** A missing field means the same as its default written out. */
  lemma MissingIsDefault(m: Material, fmt: real -> string)
    ensures CreateMaterial(m, fmt) == CreateMaterial(WithDefaults(m), fmt)
  {
  }

  /** `createMaterial` throws exactly when a field it prints is not a literal. */
  lemma CreateMaterialSucceeds(m: Material, fmt: real -> string)
    ensures CreateMaterial(m, fmt).Ok? <==>
      Literal(OrElse(m.albedo, DefaultAlbedo)) && Literal(OrElse(m.fuzz, DefaultFuzz)) &&
      Literal(OrElse(m.indexOfRefraction, DefaultIndexOfRefraction))
  {
    GlslValueSucceeds(OrElse(m.albedo, DefaultAlbedo), fmt);
    GlslValueSucceeds(OrElse(m.fuzz, DefaultFuzz), fmt);
    GlslValueSucceeds(OrElse(m.indexOfRefraction, DefaultIndexOfRefraction), fmt);
  }

  /**
   * `??` only replaces a missing fuzz: an explicit fuzz of 0 is printed as 0,
   * not as the default 1, whenever the formatter tells 0 and 1 apart.
   */
  lemma ZeroFuzzKept(m: Material, fmt: real -> string)
    requires m.fuzz == Some(Num(0.0)) && fmt(0.0) != fmt(1.0)
    requires CreateMaterial(m, fmt).Ok?
    ensures CreateMaterial(m.(fuzz := None), fmt).Ok?
    ensures CreateMaterial(m, fmt) != CreateMaterial(m.(fuzz := None), fmt)
  {
    var albedo := GlslValue(OrElse(m.albedo, DefaultAlbedo), fmt).value;
    var ior := GlslValue(OrElse(m.indexOfRefraction, DefaultIndexOfRefraction), fmt).value;
    var a := "material(" + Decimal.NatToString(TypeCode(m.kind)) + ", " + albedo + ", ";
    var b := ", " + ior + ")";
    assert CreateMaterial(m, fmt).value == a + fmt(0.0) + b;
    assert CreateMaterial(m.(fuzz := None), fmt).value == a + fmt(1.0) + b;
    assert (a + fmt(0.0) + b)[|a|..|a| + |fmt(0.0)|] == fmt(0.0);
  }

  /** A sphere of the scene: its centre, radius and material. */
  datatype Sphere = Sphere(center: Value, r: Value, material: Material)

  /** The declared name of sphere i (index.js:224, 230). */
  function SphereName(i: nat): string
  {
    "sphere_" + Decimal.NatToString(i)
  }

  /** Distinct spheres are declared under distinct names. */
  lemma SphereNamesDistinct(i: nat, j: nat)
    requires i != j
    ensures SphereName(i) != SphereName(j)
  {
    Decimal.NatToStringInjective(i, j);
    assert SphereName(i)[7..] == Decimal.NatToString(i);
    assert SphereName(j)[7..] == Decimal.NatToString(j);
  }

  function DeclarationHead(i: nat): string
  {
    "const sphere " + SphereName(i) + " = sphere("
  }

  /** The declaration of sphere `s` at index i (index.js:223-226). */
  function Declaration(s: Sphere, i: nat, fmt: real -> string): (r: Result<string>)
    ensures r.Ok? ==> DeclarationHead(i) <= r.value
  {
    var center :- GlslValue(s.center, fmt);
    var radius :- GlslValue(s.r, fmt);
    var material :- CreateMaterial(s.material, fmt);
    Ok(DeclarationHead(i) + center + ", " + radius + ", " + material + ");")
  }

  /** A sphere all of whose printed values are literals. */
  predicate SphereLiteral(s: Sphere)
  {
    Literal(s.center) && Literal(s.r) && Literal(OrElse(s.material.albedo, DefaultAlbedo)) &&
    Literal(OrElse(s.material.fuzz, DefaultFuzz)) && Literal(OrElse(s.material.indexOfRefraction, DefaultIndexOfRefraction))
  }

  /** A declaration throws exactly when a value it prints is not a literal. */
  lemma DeclarationSucceeds(s: Sphere, i: nat, fmt: real -> string)
    ensures Declaration(s, i, fmt).Ok? <==> SphereLiteral(s)
  {
    GlslValueSucceeds(s.center, fmt);
    GlslValueSucceeds(s.r, fmt);
    CreateMaterialSucceeds(s.material, fmt);
  }

  /** The declarations of `spheres`, the first of which has index `start`, in order. */
  function Declarations(spheres: seq<Sphere>, start: nat, fmt: real -> string): (r: Result<seq<string>>)
    decreases |spheres|
    ensures r.Ok? ==>
      |r.value| == |spheres| && forall k :: 0 <= k < |spheres| ==> Declaration(spheres[k], start + k, fmt) == Ok(r.value[k])
  {
    if |spheres| == 0 then Ok([])
    else
      var head :- Declaration(spheres[0], start, fmt);
      var tail :- Declarations(spheres[1..], start + 1, fmt);
      Ok([head] + tail)
  }

  /** `sphereDefinitions` (index.js:222-227): the declarations joined by newlines. */
  function SphereDefinitions(spheres: seq<Sphere>, fmt: real -> string): Result<string>
  {
    var decls :- Declarations(spheres, 0, fmt);
    Ok(Join("\n", decls))
  }

  /** Every value a sphere's declaration prints. */
  predicate SphereAvoids(s: Sphere, c: char)
  {
    Avoids(s.center, c) && Avoids(s.r, c) &&
    Avoids(OrElse(s.material.albedo, DefaultAlbedo), c) &&
    Avoids(OrElse(s.material.fuzz, DefaultFuzz), c) &&
    Avoids(OrElse(s.material.indexOfRefraction, DefaultIndexOfRefraction), c)
  }

  lemma NatAvoids(n: nat, c: char)
    requires !Decimal.IsDigit(c)
    ensures c !in Decimal.NatToString(n)
  {
    var d := Decimal.NatToString(n);
    assert forall k :: 0 <= k < |d| ==> Decimal.IsDigit(d[k]);
  }

  lemma MaterialAvoids(m: Material, fmt: real -> string, c: char)
    requires Foreign(c)
    requires Avoids(OrElse(m.albedo, DefaultAlbedo), c) && Avoids(OrElse(m.fuzz, DefaultFuzz), c)
    requires Avoids(OrElse(m.indexOfRefraction, DefaultIndexOfRefraction), c)
    requires forall x :: c !in fmt(x)
    requires CreateMaterial(m, fmt).Ok?
    ensures c !in CreateMaterial(m, fmt).value
  {
    GlslValueAvoids(OrElse(m.albedo, DefaultAlbedo), fmt, c);
    GlslValueAvoids(OrElse(m.fuzz, DefaultFuzz), fmt, c);
    GlslValueAvoids(OrElse(m.indexOfRefraction, DefaultIndexOfRefraction), fmt, c);
    NatAvoids(TypeCode(m.kind), c);
  }

  /** A declaration holds a foreign character only if a value it prints, or the formatter, does. */
  lemma DeclarationAvoids(s: Sphere, i: nat, fmt: real -> string, c: char)
    requires Foreign(c) && SphereAvoids(s, c) && forall x :: c !in fmt(x)
    requires Declaration(s, i, fmt).Ok?
    ensures c !in Declaration(s, i, fmt).value
  {
    var center := GlslValue(s.center, fmt).value;
    var radius := GlslValue(s.r, fmt).value;
    var material := CreateMaterial(s.material, fmt).value;
    assert Declaration(s, i, fmt).value == DeclarationHead(i) + center + ", " + radius + ", " + material + ");";
    GlslValueAvoids(s.center, fmt, c);
    GlslValueAvoids(s.r, fmt, c);
    MaterialAvoids(s.material, fmt, c);
    HeadAvoids(i, c);
  }

  lemma HeadAvoids(i: nat, c: char)
    requires Foreign(c)
    ensures c !in DeclarationHead(i)
  {
    NatAvoids(i, c);
  }

  /** The definitions hold a foreign character only if a value they print, or the formatter, does. */
  lemma DefinitionsAvoid(spheres: seq<Sphere>, fmt: real -> string, c: char)
    requires Foreign(c) && c != '\n'
    requires forall k :: 0 <= k < |spheres| ==> SphereAvoids(spheres[k], c)
    requires forall x :: c !in fmt(x)
    requires SphereDefinitions(spheres, fmt).Ok?
    ensures c !in SphereDefinitions(spheres, fmt).value
  {
    var decls := Declarations(spheres, 0, fmt).value;
    forall k | 0 <= k < |decls| ensures c !in decls[k] {
      DeclarationAvoids(spheres[k], k, fmt, c);
    }
    JoinAvoids("\n", decls, c);
  }

  /**
   * For k spheres the definitions are k lines, line i declaring `sphere_i`
   * for the i-th sphere, provided no printed string or number holds a
   * newline.
   */
  lemma DefinitionsAreLines(spheres: seq<Sphere>, fmt: real -> string)
    requires |spheres| >= 1
    requires forall k :: 0 <= k < |spheres| ==> SphereAvoids(spheres[k], '\n')
    requires forall x :: '\n' !in fmt(x)
    requires SphereDefinitions(spheres, fmt).Ok?
    ensures var lines := Split(SphereDefinitions(spheres, fmt).value, "\n");
      |lines| == |spheres| &&
      forall i :: 0 <= i < |spheres| ==> Declaration(spheres[i], i, fmt) == Ok(lines[i]) && DeclarationHead(i) <= lines[i]
  {
    var decls := Declarations(spheres, 0, fmt).value;
    forall k | 0 <= k < |decls| ensures '\n' !in decls[k] {
      DeclarationAvoids(spheres[k], k, fmt, '\n');
    }
    SplitJoin(decls, '\n');
  }

  /** The hit test of sphere i (index.js:229-236); the template's line continuation drops the newline after the brace. */
  function HitBlock(i: nat): string
  {
    HitHead + SphereName(i) + HitTail
  }

  const HitHead: string := "\n  if (sphere_hit("
  const HitTail: string :=
    ", r, t_min, closest_so_far, rec)) {\n" + "    hit_anything = true;\n" + "    closest_so_far = rec.t;\n" + "  }    "

  /** The hit tests of spheres 0 to k - 1, in order. */
  function HitBlocks(k: nat): (r: seq<string>)
    ensures |r| == k && forall i :: 0 <= i < k ==> r[i] == HitBlock(i)
  {
    seq(k, i requires 0 <= i => HitBlock(i))
  }

  /** `sphereBody` for k spheres (index.js:228-238): the hit tests joined by newlines. */
  function HitBody(k: nat): string
  {
    Join("\n", HitBlocks(k))
  }

  /** One more sphere appends its hit test, after a newline, to the existing ones: the tests follow scene order. */
  lemma HitBodyAppend(k: nat)
    requires k >= 1
    ensures HitBody(k + 1) == HitBody(k) + "\n" + HitBlock(k)
  {
    assert HitBlocks(k + 1) == HitBlocks(k) + [HitBlock(k)];
    JoinSnoc("\n", HitBlocks(k), HitBlock(k));
  }

  /** The hit body of k spheres holds the hit test of every sphere below k. */
  lemma HitBodyTestsEverySphere(k: nat, i: nat)
    requires i < k
    ensures Occurs(HitBlock(i), HitBody(k))
  {
    JoinHoldsParts("\n", HitBlocks(k), i);
  }

  /** The hit body holds no `$`. */
  lemma HitBodyAvoidsDollar(k: nat)
    ensures '$' !in HitBody(k)
  {
    var blocks := HitBlocks(k);
    forall i | 0 <= i < k ensures '$' !in blocks[i] {
      HitBlockAvoidsDollar(i);
    }
    JoinAvoids("\n", blocks, '$');
  }

  lemma HitBlockAvoidsDollar(i: nat)
    ensures '$' !in HitBlock(i)
  {
    NatAvoids(i, '$');
    HitHeadAvoidsDollar();
    HitTailAvoidsDollar();
  }

  lemma HitHeadAvoidsDollar()
    ensures '$' !in HitHead
  {
  }

  lemma HitTailAvoidsDollar()
    ensures '$' !in HitTail
  {
    CallAvoidsDollar();
    UpdatesAvoidDollar();
  }

  lemma CallAvoidsDollar()
    ensures '$' !in ", r, t_min, closest_so_far, rec)) {\n"
  {
  }

  lemma UpdatesAvoidDollar()
    ensures '$' !in "    hit_anything = true;\n" && '$' !in "    closest_so_far = rec.t;\n"
  {
  }

  /** `CoreProgram.world`: the ray depth, the material list and the spheres. */
  datatype World = World(depth: nat, materials: seq<Material>, spheres: seq<Sphere>)

  /** A placeholder of the shader template; `replaceAll` needs it non-empty. */
  type Slot = s: string | |s| > 0 witness "{{}}"

  const DepthSlot: Slot := "{{DEPTH}}"
  const MaterialsSlot: Slot := "{{NUM_MATERIALS}}"
  const DefinitionsSlot: Slot := "{{hit_world_definitions}}"
  const BodySlot: Slot := "{{hit_world_body}}"

  /**
   * `CoreProgram.populateTemplate(shader)` (index.js:211-245): build the
   * definitions and the hit body, then replace every occurrence of the four
   * placeholders, in this order.
   */
  function PopulateTemplate(shader: string, world: World, fmt: real -> string): (r: Result<string>)
  {
    var definitions :- SphereDefinitions(world.spheres, fmt);
    var body := HitBody(|world.spheres|);
    var s1 := ReplaceAll(shader, DepthSlot, Decimal.NatToString(world.depth));
    var s2 := ReplaceAll(s1, MaterialsSlot, Decimal.NatToString(|world.materials|));
    var s3 := ReplaceAll(s2, DefinitionsSlot, definitions);
    Ok(ReplaceAll(s3, BodySlot, body))
  }

  /** Populating throws exactly when some sphere's declaration throws. */
  lemma PopulateFails(shader: string, world: World, fmt: real -> string)
    ensures PopulateTemplate(shader, world, fmt).Err? <==>
      exists k :: 0 <= k < |world.spheres| && Declaration(world.spheres[k], k, fmt).Err?
  {
    DeclarationsFail(world.spheres, 0, fmt);
  }

  lemma {:induction false} DeclarationsFail(spheres: seq<Sphere>, start: nat, fmt: real -> string)
    ensures Declarations(spheres, start, fmt).Err? <==>
      exists k :: 0 <= k < |spheres| && Declaration(spheres[k], start + k, fmt).Err?
    decreases |spheres|
  {
    if |spheres| > 0 {
      DeclarationsFail(spheres[1..], start + 1, fmt);
      if Declaration(spheres[0], start, fmt).Ok? && Declarations(spheres[1..], start + 1, fmt).Err? {
        var k :| 0 <= k < |spheres| - 1 && Declaration(spheres[1..][k], start + 1 + k, fmt).Err?;
        assert Declaration(spheres[k + 1], start + (k + 1), fmt).Err?;
      }
      if exists k :: 0 <= k < |spheres| && Declaration(spheres[k], start + k, fmt).Err? {
        var k :| 0 <= k < |spheres| && Declaration(spheres[k], start + k, fmt).Err?;
        if k > 0 {
          assert Declaration(spheres[1..][k - 1], start + 1 + (k - 1), fmt).Err?;
        }
      }
    }
  }

  /** A template with none of the placeholders comes back unchanged. */
  lemma PopulateWithoutPlaceholders(shader: string, world: World, fmt: real -> string)
    requires !Occurs(DepthSlot, shader) && !Occurs(MaterialsSlot, shader)
    requires !Occurs(DefinitionsSlot, shader) && !Occurs(BodySlot, shader)
    requires SphereDefinitions(world.spheres, fmt).Ok?
    ensures PopulateTemplate(shader, world, fmt) == Ok(shader)
  {
    var defs := SphereDefinitions(world.spheres, fmt).value;
    ReplaceAllWithoutPattern(shader, DepthSlot, Decimal.NatToString(world.depth));
    ReplaceAllWithoutPattern(shader, MaterialsSlot, Decimal.NatToString(|world.materials|));
    ReplaceAllWithoutPattern(shader, DefinitionsSlot, defs);
    ReplaceAllWithoutPattern(shader, BodySlot, HitBody(|world.spheres|));
  }

  /**
   * Each of the four steps of populating replaces every occurrence of its
   * placeholder: its input is some pieces, none holding the placeholder,
   * joined by the placeholder, and its output is the same pieces joined by
   * the replacement. `replaceAll` expands `$` patterns in a replacement, so
   * this holds when no string of the scene and no formatted number holds a
   * `$`; the decimal counts and the hit body never do. A world without
   * materials puts 0 in for the count.
   */
  lemma PopulateReplacesEveryOccurrence(shader: string, world: World, fmt: real -> string)
    requires SphereDefinitions(world.spheres, fmt).Ok?
    requires forall k :: 0 <= k < |world.spheres| ==> SphereAvoids(world.spheres[k], '$')
    requires forall x :: '$' !in fmt(x)
    ensures var s1 := ReplaceAll(shader, DepthSlot, Decimal.NatToString(world.depth));
      var s2 := ReplaceAll(s1, MaterialsSlot, Decimal.NatToString(|world.materials|));
      var s3 := ReplaceAll(s2, DefinitionsSlot, SphereDefinitions(world.spheres, fmt).value);
      Replaces(shader, DepthSlot, Decimal.NatToString(world.depth), s1) &&
      Replaces(s1, MaterialsSlot, Decimal.NatToString(|world.materials|), s2) &&
      Replaces(s2, DefinitionsSlot, SphereDefinitions(world.spheres, fmt).value, s3) &&
      var s4 := ReplaceAll(s3, BodySlot, HitBody(|world.spheres|));
      Replaces(s3, BodySlot, HitBody(|world.spheres|), s4) && PopulateTemplate(shader, world, fmt) == Ok(s4)
    ensures |world.materials| == 0 ==> Decimal.NatToString(|world.materials|) == "0"
  {
    var s1 := ReplaceAll(shader, DepthSlot, Decimal.NatToString(world.depth));
    var s2 := ReplaceAll(s1, MaterialsSlot, Decimal.NatToString(|world.materials|));
    var s3 := ReplaceAll(s2, DefinitionsSlot, SphereDefinitions(world.spheres, fmt).value);
    NatAvoids(world.depth, '$');
    NatAvoids(|world.materials|, '$');
    DefinitionsAvoid(world.spheres, fmt, '$');
    HitBodyAvoidsDollar(|world.spheres|);
    ReplaceAllReplaces(shader, DepthSlot, Decimal.NatToString(world.depth));
    ReplaceAllReplaces(s1, MaterialsSlot, Decimal.NatToString(|world.materials|));
    ReplaceAllReplaces(s2, DefinitionsSlot, SphereDefinitions(world.spheres, fmt).value);
    ReplaceAllReplaces(s3, BodySlot, HitBody(|world.spheres|));
  }
}
