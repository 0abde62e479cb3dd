/**
 * public/posts/data-oriented-design/_private/two.c: the sum over the array
 * `included_nodes` of `two_data`, which holds only the values of the nodes
 * whose flag is set, and its length NUM_INCLUDED_NODES as the count.
 *
 * Then the point of the pair of programs: fed from one run of the
 * generator, one.c and two.c report the same count and the same sum, and
 * the one overflows exactly when the other does.
 */
module PackedSum {
  import opened NodeGen
  import opened FilterSum

  /** The sum of a sequence of C `int`s, as an unbounded integer. */
  function Sum(vs: seq<int32>): int
  {
    if vs == [] then 0 else Sum(vs[..|vs| - 1]) + vs[|vs| - 1] as int
  }

  /** The array `included_nodes` as initialised from the lines of `two_data`: the values alone. */
  function Packed(xs: seq<Node>): (vs: seq<int32>)
    ensures |vs| == |xs| && forall k :: 0 <= k < |xs| ==> vs[k] == ToInt32(xs[k].value)
  {
    seq(|xs|, k requires 0 <= k < |xs| => ToInt32(xs[k].value))
  }

  /** At no step of the loop does `sum` leave the range of a C `int`. */
  ghost predicate SumsFit(vs: seq<int32>)
  {
    forall k :: 0 <= k <= |vs| ==> Int32(Sum(vs[..k]))
  }

  /** Each value adds at most one `int` to the sum. */
  lemma {:induction false} SumBound(vs: seq<int32>)
    ensures -0x8000_0000 * |vs| <= Sum(vs) <= 0x7fff_ffff * |vs|
  {
    if vs != [] {
      SumBound(vs[..|vs| - 1]);
    }
  }

  /**
   * `main` of two.c (two.c:10-17): every index is visited once, in order, so
   * `sum` is the sum of the array, and the count reported is its length.
   */
  method SumIncluded(included: array<int32>) returns (sum: int32, count: int32)
    requires included.Length < 0x8000_0000
    requires SumsFit(included[..])
    ensures sum as int == Sum(included[..]) && count as int == included.Length
  {
    sum := 0;
    var i: int32 := 0;
    while i < included.Length as int32
      invariant 0 <= i as int <= included.Length
      invariant sum as int == Sum(included[..i])
    {
      assert included[..i + 1][..i] == included[..i];
      assert Int32(Sum(included[..i + 1]));
      sum := sum + included[i];
      i := i + 1;
    }
    assert included[..i] == included[..];
    count := included.Length as int32;
  }

  /** The same loop with a 64-bit `sum`, which cannot overflow for up to 2^20 nodes. */
  method SumIncludedWide(included: array<int32>) returns (sum: int64, count: int32)
    requires included.Length <= Nodes
    ensures sum as int == Sum(included[..]) && count as int == included.Length
  {
    sum := 0;
    var i: int32 := 0;
    while i < included.Length as int32
      invariant 0 <= i as int <= included.Length
      invariant sum as int == Sum(included[..i])
    {
      assert included[..i + 1][..i] == included[..i];
      SumBound(included[..i + 1]);
      sum := sum + included[i] as int64;
      i := i + 1;
    }
    assert included[..i] == included[..];
    count := included.Length as int32;
  }

  /** The nodes of a generator run: flags 0 or 1, whatever the values. */
  ghost predicate WellFormed(xs: seq<Node>)
  {
    forall k :: 0 <= k < |xs| ==> FlagDrawn(xs[k].flag)
  }

  /** The last included node of `xs`, if any, is the last element of `Packed(Included(xs))`. */
  lemma PackedSnoc(init: seq<Node>, x: Node)
    requires WellFormed(init + [x])
    ensures WellFormed(init)
    ensures x.flag == 1 ==> Packed(Included(init + [x])) == Packed(Included(init)) + [ToInt32(x.value)]
    ensures x.flag != 1 ==> Packed(Included(init + [x])) == Packed(Included(init))
  {
    var xs := init + [x];
    assert xs[..|xs| - 1] == init;
    assert forall k :: 0 <= k < |init| ==> init[k] == xs[k];
    assert x == xs[|init|];
  }

  /** one.c's sum and count after one more node of `one_data`. */
  lemma CNodesSnoc(init: seq<Node>, x: Node)
    ensures CNodes(init + [x])[..|init|] == CNodes(init)
    ensures IncludedSum(CNodes(init + [x])) == IncludedSum(CNodes(init)) + (if x.flag != 0 then ToInt32(x.value) as int else 0)
    ensures IncludedCount(CNodes(init + [x])) == IncludedCount(CNodes(init)) + (if x.flag != 0 then 1 else 0)
  {
    var ns := CNodes(init + [x]);
    assert ns[..|ns| - 1] == CNodes(init);
  }

  /** two.c's sum after one more value of `two_data`. */
  lemma SumSnoc(vs: seq<int32>, v: int32)
    ensures Sum(vs + [v]) == Sum(vs) + v as int
  {
    assert (vs + [v])[..|vs|] == vs;
  }

  /**
   * Both programs report the same result: one.c's sum and count over
   * `one_data` are two.c's sum over `two_data` and its NUM_INCLUDED_NODES.
   */
  lemma {:induction false} SameReport(xs: seq<Node>)
    requires WellFormed(xs)
    ensures IncludedSum(CNodes(xs)) == Sum(Packed(Included(xs)))
    ensures IncludedCount(CNodes(xs)) == |Included(xs)|
  {
    if xs != [] {
      var init, x := xs[..|xs| - 1], xs[|xs| - 1];
      assert xs == init + [x];
      PackedSnoc(init, x);
      SameReport(init);
      CNodesSnoc(init, x);
      if x.flag == 1 {
        SumSnoc(Packed(Included(init)), ToInt32(x.value));
      }
    }
  }

  /** The 32-bit `sum` of one.c stays in range at every step exactly when that of two.c does. */
  lemma {:induction false} SameOverflow(xs: seq<Node>)
    requires WellFormed(xs)
    ensures FilterSum.SumsFit(CNodes(xs)) <==> SumsFit(Packed(Included(xs)))
  {
    if xs == [] {
      assert CNodes(xs)[..0] == [] && Packed(Included(xs))[..0] == [];
    } else {
      var init, x := xs[..|xs| - 1], xs[|xs| - 1];
      assert xs == init + [x];
      PackedSnoc(init, x);
      SameOverflow(init);
      SameReport(xs);
      CNodesSnoc(init, x);
      var ns, vs := CNodes(xs), Packed(Included(xs));
      OneFitsSnoc(ns);
      assert ns[..|ns| - 1] == CNodes(init);
      if x.flag == 1 {
        assert vs[..|vs| - 1] == Packed(Included(init));
        TwoFitsSnoc(vs);
      } else {
        assert CNodes(init)[..|init|] == CNodes(init);
      }
    }
  }

  lemma OneFitsSnoc(ns: seq<CNode>)
    requires ns != []
    ensures FilterSum.SumsFit(ns) <==> FilterSum.SumsFit(ns[..|ns| - 1]) && Int32(IncludedSum(ns))
  {
    var init := ns[..|ns| - 1];
    if FilterSum.SumsFit(ns) {
      forall k | 0 <= k <= |init| ensures Int32(IncludedSum(init[..k])) {
        assert init[..k] == ns[..k];
      }
      assert ns[..|ns|] == ns;
    }
    if FilterSum.SumsFit(init) && Int32(IncludedSum(ns)) {
      forall k | 0 <= k <= |ns| ensures Int32(IncludedSum(ns[..k])) {
        if k == |ns| {
          assert ns[..k] == ns;
        } else {
          assert init[..k] == ns[..k];
        }
      }
    }
  }

  lemma TwoFitsSnoc(vs: seq<int32>)
    requires vs != []
    ensures SumsFit(vs) <==> SumsFit(vs[..|vs| - 1]) && Int32(Sum(vs))
  {
    var init := vs[..|vs| - 1];
    if SumsFit(vs) {
      forall k | 0 <= k <= |init| ensures Int32(Sum(init[..k])) {
        assert init[..k] == vs[..k];
      }
      assert vs[..|vs|] == vs;
    }
    if SumsFit(init) && Int32(Sum(vs)) {
      forall k | 0 <= k <= |vs| ensures Int32(Sum(vs[..k])) {
        if k == |vs| {
          assert vs[..k] == vs;
        } else {
          assert init[..k] == vs[..k];
        }
      }
    }
  }

  /**
   * For a generator run the two programs agree, 2147483648 included: both
   * initialisers convert the same constant to `int` in the same way.
   */
  lemma GeneratedSameReport(valueDraw: nat -> int, flagDraw: nat -> int)
    requires forall i: nat :: i < Nodes ==> ValueDrawnAsWritten(valueDraw(i)) && FlagDrawn(flagDraw(i))
    ensures var xs := Generate(valueDraw, flagDraw);
      WellFormed(xs) &&
      IncludedSum(CNodes(xs)) == Sum(Packed(Included(xs))) && IncludedCount(CNodes(xs)) == |Included(xs)| &&
      (FilterSum.SumsFit(CNodes(xs)) <==> SumsFit(Packed(Included(xs))))
  {
    var xs := Generate(valueDraw, flagDraw);
    SameReport(xs);
    SameOverflow(xs);
  }
}
