/**
 * public/posts/data-oriented-design/_private/one.c: one pass over the array
 * of `struct node { int value; bool include; }` read from `one_data`,
 * adding up the values and counting the nodes whose `include` is set.
 *
 * A C `int` is the newtype `int32`; its arithmetic is checked, so a signed
 * overflow, which C leaves undefined, is ruled out by the precondition.
 */
module FilterSum {
  import NodeGen

  newtype int32 = x: int | -0x8000_0000 <= x < 0x8000_0000
  newtype int64 = x: int | -0x8000_0000_0000_0000 <= x < 0x8000_0000_0000_0000

  /** `struct node` of one.c (one.c:4-7). */
  datatype CNode = CNode(value: int32, included: bool)

  /**
   * An integer constant of the initialiser converted to the `int` field
   * `value`. Out of range, C leaves the result implementation-defined; GCC
   * and Clang reduce it modulo 2^32, so 2147483648 becomes -2147483648.
   */
  function ToInt32(v: int): (r: int32)
    ensures (r as int - v) % 0x1_0000_0000 == 0
    ensures NodeGen.Int32(v) ==> r as int == v
  {
    ((v + 0x8000_0000) % 0x1_0000_0000 - 0x8000_0000) as int32
  }

  /** The C compiler reading `{ a, b }` of `one_data`: `a` converted to `int`, `b` to `bool`. */
  function ToCNode(x: NodeGen.Node): (c: CNode)
    ensures NodeGen.Int32(x.value) ==> c.value as int == x.value
    ensures c.included <==> x.flag != 0
  {
    CNode(ToInt32(x.value), x.flag != 0)
  }

  /** The array `nodes` as initialised from the lines of `one_data`. */
  function CNodes(xs: seq<NodeGen.Node>): (ns: seq<CNode>)
    ensures |ns| == |xs| && forall k :: 0 <= k < |xs| ==> ns[k] == ToCNode(xs[k])
  {
    seq(|xs|, k requires 0 <= k < |xs| => ToCNode(xs[k]))
  }

  /** The sum of the values of the included nodes, as an unbounded integer. */
  function IncludedSum(ns: seq<CNode>): int
  {
    if ns == [] then 0
    else IncludedSum(ns[..|ns| - 1]) + (if ns[|ns| - 1].included then ns[|ns| - 1].value as int else 0)
  }

  /** The number of included nodes. */
  function IncludedCount(ns: seq<CNode>): (c: nat)
    ensures c <= |ns|
  {
    if ns == [] then 0
    else IncludedCount(ns[..|ns| - 1]) + (if ns[|ns| - 1].included then 1 else 0)
  }

  /** At no step of the loop does `sum` leave the range of a C `int`. */
  ghost predicate SumsFit(ns: seq<CNode>)
  {
    forall k :: 0 <= k <= |ns| ==> NodeGen.Int32(IncludedSum(ns[..k]))
  }

  /** Sum and count split over a concatenation. */
  lemma {:induction false} IncludedConcat(a: seq<CNode>, b: seq<CNode>)
    ensures IncludedSum(a + b) == IncludedSum(a) + IncludedSum(b)
    ensures IncludedCount(a + b) == IncludedCount(a) + IncludedCount(b)
    decreases |b|
  {
    if b == [] {
      assert a + b == a;
    } else {
      var init := b[..|b| - 1];
      assert (a + b)[..|a + b| - 1] == a + init;
      assert (a + b)[|a + b| - 1] == b[|b| - 1];
      IncludedConcat(a, init);
    }
  }

  /** A node whose `include` is false, wherever it stands, changes neither `sum` nor `count`. */
  lemma ExcludedIgnored(a: seq<CNode>, x: CNode, b: seq<CNode>)
    requires !x.included
    ensures IncludedSum(a + [x] + b) == IncludedSum(a + b)
    ensures IncludedCount(a + [x] + b) == IncludedCount(a + b)
  {
    IncludedConcat(a + [x], b);
    IncludedConcat(a, [x]);
    IncludedConcat(a, b);
    assert [x][..0] == [];
  }

  /** An included node adds its value to `sum` and one to `count`. */
  lemma IncludedCounted(a: seq<CNode>, x: CNode, b: seq<CNode>)
    requires x.included
    ensures IncludedSum(a + [x] + b) == IncludedSum(a + b) + x.value as int
    ensures IncludedCount(a + [x] + b) == IncludedCount(a + b) + 1
  {
    IncludedConcat(a + [x], b);
    IncludedConcat(a, [x]);
    IncludedConcat(a, b);
    assert [x][..0] == [];
  }

  /** Each included node adds at most one `int` to the sum. */
  lemma {:induction false} IncludedSumBound(ns: seq<CNode>)
    ensures -0x8000_0000 * IncludedCount(ns) <= IncludedSum(ns) <= 0x7fff_ffff * IncludedCount(ns)
  {
    if ns != [] {
      IncludedSumBound(ns[..|ns| - 1]);
    }
  }

  /**
   * `main` of one.c (one.c:11-21): `count` is the number of included nodes
   * and `sum` the sum of their values. `int i` bounds the array, and the
   * partial sums must stay in range, since `sum` is an `int`.
   */
  method FilteredSum(nodes: array<CNode>) returns (sum: int32, count: int32)
    requires nodes.Length < 0x8000_0000
    requires SumsFit(nodes[..])
    ensures sum as int == IncludedSum(nodes[..]) && count as int == IncludedCount(nodes[..])
    ensures 0 <= count as int <= nodes.Length
  {
    sum, count := 0, 0;
    var i: int32 := 0;
    while i < nodes.Length as int32
      invariant 0 <= i as int <= nodes.Length
      invariant sum as int == IncludedSum(nodes[..i]) && count as int == IncludedCount(nodes[..i])
    {
      var curr := nodes[i];
      assert nodes[..i + 1][..i] == nodes[..i];
      if curr.included {
        assert NodeGen.Int32(IncludedSum(nodes[..i + 1]));
        sum := sum + curr.value;
        count := count + 1;
      }
      i := i + 1;
    }
    assert nodes[..i] == nodes[..];
  }

  /**
   * The same loop with a 64-bit `sum`: for arrays up to 2^20 nodes (NUM_NODES)
   * no partial sum can overflow, so no condition on the values is needed.
   */
  method FilteredSumWide(nodes: array<CNode>) returns (sum: int64, count: int32)
    requires nodes.Length <= NodeGen.Nodes
    ensures sum as int == IncludedSum(nodes[..]) && count as int == IncludedCount(nodes[..])
    ensures 0 <= count as int <= nodes.Length
  {
    sum, count := 0, 0;
    var i: int32 := 0;
    while i < nodes.Length as int32
      invariant 0 <= i as int <= nodes.Length
      invariant sum as int == IncludedSum(nodes[..i]) && count as int == IncludedCount(nodes[..i])
    {
      var curr := nodes[i];
      assert nodes[..i + 1][..i] == nodes[..i];
      if curr.included {
        IncludedSumBound(nodes[..i + 1]);
        sum := sum + curr.value as int64;
        count := count + 1;
      }
      i := i + 1;
    }
    assert nodes[..i] == nodes[..];
  }

  /**
   * Two included nodes of value INT_MAX, values the generator can draw,
   * already overflow the 32-bit `sum`; the 64-bit one holds their sum.
   */
  lemma SumCanOverflow()
    ensures var ns := [CNode(0x7fff_ffff, true), CNode(0x7fff_ffff, true)];
      !SumsFit(ns) && IncludedSum(ns) == 0xffff_fffe && NodeGen.ValueDrawnAsWritten(0x7fff_ffff)
  {
    var ns := [CNode(0x7fff_ffff, true), CNode(0x7fff_ffff, true)];
    assert ns[..2] == ns && ns[..1] == [ns[0]] && [ns[0]][..0] == [];
    assert IncludedSum([ns[0]]) == 0x7fff_ffff;
  }

  /**
   * The upper end of `randint(-(1<<31), 1<<31)` can be drawn; `one_data`
   * then lists 2147483648, and the C program reads -2147483648 in its place,
   * so an included node of that value adds -2^31 instead of 2^31 to `sum`.
   */
  lemma AsWrittenTopValueWraps()
    ensures NodeGen.ValueDrawnAsWritten(2147483648) && !NodeGen.Int32(2147483648)
    ensures var ns := CNodes([NodeGen.Node(2147483648, 1)]);
      ns[0].value == -2147483648 && IncludedSum(ns) == -2147483648 && IncludedSum(ns) != 2147483648
  {
    var ns := CNodes([NodeGen.Node(2147483648, 1)]);
    assert ns[..0] == [];
  }

  /**
   * With the values drawn from the range of a C `int`, the range evidently
   * intended, the array `nodes` holds exactly the values and flags generated.
   */
  lemma GeneratedValuesKept(valueDraw: nat -> int, flagDraw: nat -> int)
    requires forall i: nat :: i < NodeGen.Nodes ==> -0x8000_0000 <= valueDraw(i) < 0x8000_0000 && NodeGen.FlagDrawn(flagDraw(i))
    ensures var ns := CNodes(NodeGen.Generate(valueDraw, flagDraw));
      |ns| == NodeGen.Nodes &&
      forall k :: 0 <= k < |ns| ==> ns[k].value as int == valueDraw(k) && (ns[k].included <==> flagDraw(k) == 1)
  {
    var xs := NodeGen.Generate(valueDraw, flagDraw);
    assert forall k :: 0 <= k < |xs| ==> NodeGen.Int32(xs[k].value);
  }
}
