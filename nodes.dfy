/**
 * The data generator of public/posts/data-oriented-design/_private/gen.py:
 * 2^20 random `(value, flag)` pairs, written as the C initialiser `one_data`,
 * and split by flag into the included and excluded lists of `two_data`.
 *
 * The random draws are parameters: `valueDraw(i)` and `flagDraw(i)` are the
 * results of the two `random.randint` calls for pair i.
 */
module NodeGen {
  import opened Decimal
  import opened Strings

  /** `NODES = 1 << 20` (gen.py:5). */
  const Nodes: nat := 1048576

  /** A generated pair `(a, b)`: a value and its flag. */
  datatype Node = Node(value: int, flag: int)

  /** The range of a C `int`, to which the values are written in `one_data` and `two_data`. */
  predicate Int32(x: int)
  {
    -2147483648 <= x <= 2147483647
  }

  /** `random.randint(-(1<<31), 1<<31)` as written (gen.py:9): both ends included. */
  predicate ValueDrawnAsWritten(v: int)
  {
    -2147483648 <= v <= 2147483648
  }

  /** `random.randint(0, 1)`. */
  predicate FlagDrawn(b: int)
  {
    0 <= b <= 1
  }

  /**
   * `xs = [(randint(...), randint(0, 1)) for _ in range(NODES)]` (gen.py:9):
   * NODES pairs, pair i made of the i-th value draw and the i-th flag draw.
   */
  function Generate(valueDraw: nat -> int, flagDraw: nat -> int): (xs: seq<Node>)
    requires forall i: nat :: i < Nodes ==> ValueDrawnAsWritten(valueDraw(i)) && FlagDrawn(flagDraw(i))
    ensures |xs| == Nodes
    ensures forall k :: 0 <= k < |xs| ==> ValueDrawnAsWritten(xs[k].value) && FlagDrawn(xs[k].flag)
    ensures forall k :: 0 <= k < |xs| ==> xs[k] == Node(valueDraw(k), flagDraw(k))
  {
    var xs := seq(Nodes, i requires 0 <= i => Node(valueDraw(i), flagDraw(i)));
    assert forall k :: 0 <= k < |xs| ==> xs[k] == Node(valueDraw(k), flagDraw(k));
    assert forall k :: 0 <= k < |xs| ==> ValueDrawnAsWritten(valueDraw(k)) && FlagDrawn(flagDraw(k));
    xs
  }

  /** `[x for x in xs if x[1] == 1]` (gen.py:19). */
  function Included(xs: seq<Node>): (r: seq<Node>)
    ensures |r| <= |xs| && forall y :: y in r ==> y in xs
    ensures forall k :: 0 <= k < |r| ==> r[k].flag == 1
  {
    if xs == [] then []
    else Included(xs[..|xs| - 1]) + (if xs[|xs| - 1].flag == 1 then [xs[|xs| - 1]] else [])
  }

  /** `[x for x in xs if x[1] == 0]` (gen.py:26). */
  function Excluded(xs: seq<Node>): (r: seq<Node>)
    ensures |r| <= |xs| && forall y :: y in r ==> y in xs
    ensures forall k :: 0 <= k < |r| ==> r[k].flag == 0
  {
    if xs == [] then []
    else Excluded(xs[..|xs| - 1]) + (if xs[|xs| - 1].flag == 0 then [xs[|xs| - 1]] else [])
  }

  /** Filtering keeps order: the filter of a concatenation is the concatenation of the filters. */
  lemma {:induction false} FilterConcat(a: seq<Node>, b: seq<Node>)
    ensures Included(a + b) == Included(a) + Included(b)
    ensures Excluded(a + b) == Excluded(a) + Excluded(b)
    decreases |b|
  {
    if b == [] {
      assert a + b == a;
    } else {
      var init := b[..|b| - 1];
      assert (a + b)[..|a + b| - 1] == a + init;
      assert (a + b)[|a + b| - 1] == b[|b| - 1];
      FilterConcat(a, init);
    }
  }

  /** A node with flag 1 is kept by the one filter and only by it; a node with flag 0 likewise by the other. */
  lemma Singleton(x: Node)
    ensures Included([x]) == (if x.flag == 1 then [x] else [])
    ensures Excluded([x]) == (if x.flag == 0 then [x] else [])
  {
    assert [x][..0] == [];
  }

  /**
   * With every flag 0 or 1 the two lists partition `xs`: their lengths add up
   * to its length, and together they hold exactly its nodes.
   */
  lemma {:induction false} Partition(xs: seq<Node>)
    requires forall k :: 0 <= k < |xs| ==> FlagDrawn(xs[k].flag)
    ensures |Included(xs)| + |Excluded(xs)| == |xs|
    ensures multiset(Included(xs) + Excluded(xs)) == multiset(xs)
  {
    if xs != [] {
      var init, x := xs[..|xs| - 1], xs[|xs| - 1];
      Partition(init);
      assert xs == init + [x];
      assert multiset(xs) == multiset(init) + multiset{x};
    }
  }

  /** For generated data, `len(included) + len(excluded) == NODES`, whatever the values drawn. */
  lemma GeneratedPartition(valueDraw: nat -> int, flagDraw: nat -> int)
    requires forall i: nat :: i < Nodes ==> ValueDrawnAsWritten(valueDraw(i)) && FlagDrawn(flagDraw(i))
    ensures var xs := Generate(valueDraw, flagDraw);
      |Included(xs)| + |Excluded(xs)| == Nodes && multiset(Included(xs) + Excluded(xs)) == multiset(xs)
  {
    Partition(Generate(valueDraw, flagDraw));
  }

  // The emitted C data files.

  /** Python's `{a:6}` for an integer: right-aligned in a field of six, padded with spaces. */
  function Pad6(s: string): (r: string)
    ensures |r| == if |s| < 6 then 6 else |s|
    ensures r[|r| - |s|..] == s && forall k :: 0 <= k < |r| - |s| ==> r[k] == ' '
  {
    if |s| < 6 then seq(6 - |s|, _ => ' ') + s else s
  }

  /** `{{ {a:6}, {b} }},` without its newline (gen.py:15). */
  function OneNodeText(x: Node): string
  {
    "{ " + Pad6(IntToString(x.value)) + ", " + IntToString(x.flag) + " },"
  }

  /** `{{ {a:6} }},` without its newline (gen.py:23, 30). */
  function ValueText(x: Node): string
  {
    "{ " + Pad6(IntToString(x.value)) + " },"
  }

  /** The lines the `for` loops write for `xs`: one per node, in order, in the format `text`. */
  function NodeLines(xs: seq<Node>, text: Node -> string): (ls: seq<string>)
    ensures |ls| == |xs| && forall k :: 0 <= k < |xs| ==> ls[k] == text(xs[k])
  {
    seq(|xs|, k requires 0 <= k < |xs| => text(xs[k]))
  }

  /** The two lines before a list: the `#define` of its length `n` and the head of the array. */
  function Header(name: string, count: string, n: nat): (h: seq<string>)
    ensures |h| == 2
  {
    ["#define " + count + " " + NatToString(n), "const struct node " + name + "[" + count + "] = {"]
  }

  const OneHeader: seq<string> := Header("nodes", "NUM_NODES", Nodes)

  /** The lines of `one_data` (gen.py:11-16). */
  function OneDataLines(xs: seq<Node>): seq<string>
  {
    OneHeader + NodeLines(xs, OneNodeText) + ["};"]
  }

  function IncludedHeader(n: nat): seq<string>
  {
    Header("included_nodes", "NUM_INCLUDED_NODES", n)
  }

  function ExcludedHeader(n: nat): seq<string>
  {
    Header("excluded_nodes", "NUM_EXCLUDED_NODES", n)
  }

  /** The lines of `two_data` (gen.py:18-31): the included list, an empty line, the excluded list. */
  function TwoDataLines(inc: seq<Node>, exc: seq<Node>): seq<string>
  {
    IncludedHeader(|inc|) + NodeLines(inc, ValueText) + ["};", ""] + ExcludedHeader(|exc|) + NodeLines(exc, ValueText) + ["};"]
  }

  /** An output file opened with `open(..., "w")`: the text written to it so far. */
  class DataFile {
    var contents: string

    constructor ()
      ensures contents == ""
    {
      contents := "";
    }

    /** `f.write(s)`. */
    method Write(s: string)
      modifies this
      ensures contents == old(contents) + s
    {
      contents := contents + s;
    }

    /** A `for` loop writing one line per node of `xs` in the format `text`. */
    method WriteLines(xs: seq<Node>, text: Node -> string, ghost before: seq<string>)
      requires contents == Lines(before)
      modifies this
      ensures contents == Lines(before + NodeLines(xs, text))
    {
      ghost var lines := NodeLines(xs, text);
      var k := 0;
      assert before + lines[..0] == before;
      while k < |xs|
        invariant 0 <= k <= |xs|
        invariant contents == Lines(before + lines[..k])
      {
        ghost var done := before + lines[..k];
        WriteLine(text(xs[k]), done);
        assert done + [text(xs[k])] == before + lines[..k + 1];
        k := k + 1;
      }
      assert lines[..k] == lines;
    }

    /** Appends one line and its newline. */
    method WriteLine(line: string, ghost before: seq<string>)
      requires contents == Lines(before)
      modifies this
      ensures contents == Lines(before + [line])
    {
      assert (before + [line])[..|before|] == before;
      Write(line + "\n");
    }
  }

  /** Writes `one_data` into a freshly opened file (gen.py:11-16). */
  method EmitOne(f: DataFile, xs: seq<Node>)
    requires f.contents == ""
    modifies f
    ensures f.contents == Lines(OneDataLines(xs))
  {
    f.WriteLine(OneHeader[0], []);
    f.WriteLine(OneHeader[1], [OneHeader[0]]);
    assert [OneHeader[0]] + [OneHeader[1]] == OneHeader;
    f.WriteLines(xs, OneNodeText, OneHeader);
    f.WriteLine("};", OneHeader + NodeLines(xs, OneNodeText));
  }

  /** Writes `two_data` into a freshly opened file (gen.py:18-31). */
  method EmitTwo(f: DataFile, xs: seq<Node>)
    requires f.contents == ""
    modifies f
    ensures f.contents == Lines(TwoDataLines(Included(xs), Excluded(xs)))
  {
    var included, excluded := Included(xs), Excluded(xs);
    ghost var head, inc := IncludedHeader(|included|), NodeLines(included, ValueText);
    ghost var tail, exc := ExcludedHeader(|excluded|), NodeLines(excluded, ValueText);
    EmitList(f, included, IncludedHeader(|included|), []);
    assert [] + head == head;
    f.WriteLine("", head + inc + ["};"]);
    assert head + inc + ["};"] + [""] == head + inc + ["};", ""];
    EmitList(f, excluded, ExcludedHeader(|excluded|), head + inc + ["};", ""]);
    assert TwoDataLines(included, excluded) == head + inc + ["};", ""] + tail + exc + ["};"];
  }

  /** Writes one list of `two_data`: its header, a line per node and the closing brace. */
  method EmitList(f: DataFile, xs: seq<Node>, head: seq<string>, ghost before: seq<string>)
    requires f.contents == Lines(before) && |head| == 2
    modifies f
    ensures f.contents == Lines(before + head + NodeLines(xs, ValueText) + ["};"])
  {
    f.WriteLine(head[0], before);
    f.WriteLine(head[1], before + [head[0]]);
    assert before + [head[0]] + [head[1]] == before + head;
    f.WriteLines(xs, ValueText, before + head);
    f.WriteLine("};", before + head + NodeLines(xs, ValueText));
  }

  ghost predicate NoNewlines(ls: seq<string>)
  {
    forall k :: 0 <= k < |ls| ==> '\n' !in ls[k]
  }

  lemma NoNewlinesConcat(a: seq<string>, b: seq<string>)
    requires NoNewlines(a) && NoNewlines(b)
    ensures NoNewlines(a + b)
  {
  }

  /** A text followed by a decimal has a newline only if the text does. */
  lemma NumberLineAvoidsNewline(prefix: string, n: nat)
    requires '\n' !in prefix
    ensures '\n' !in prefix + NatToString(n)
  {
    assert !IsDigit('\n');
  }

  /** A header holds no newline when the names in it hold none. */
  lemma HeaderAvoidsNewlines(name: string, count: string, n: nat)
    requires '\n' !in name && '\n' !in count
    ensures NoNewlines(Header(name, count, n))
  {
    NumberLineAvoidsNewline("#define " + count + " ", n);
  }

  lemma OneHeaderAvoidsNewlines()
    ensures NoNewlines(OneHeader)
  {
    HeaderAvoidsNewlines("nodes", "NUM_NODES", Nodes);
  }

  lemma TwoHeadersAvoidNewlines(n: nat)
    ensures NoNewlines(IncludedHeader(n)) && NoNewlines(ExcludedHeader(n)) && NoNewlines(["};", ""])
  {
    HeaderAvoidsNewlines("included_nodes", "NUM_INCLUDED_NODES", n);
    HeaderAvoidsNewlines("excluded_nodes", "NUM_EXCLUDED_NODES", n);
  }

  /** The decimal text of an integer holds digits and at most a minus sign, never a newline. */
  lemma IntTextAvoidsNewline(i: int)
    ensures '\n' !in IntToString(i)
  {
    if i < 0 {
      NumberLineAvoidsNewline("-", -i);
    } else {
      NumberLineAvoidsNewline("", i);
      assert "" + NatToString(i) == NatToString(i);
    }
  }

  lemma Pad6AvoidsNewline(s: string)
    requires '\n' !in s
    ensures '\n' !in Pad6(s)
  {
    if |s| < 6 {
      var spaces := seq(6 - |s|, _ => ' ');
      assert Pad6(s) == spaces + s;
      assert '\n' !in spaces;
    }
  }

  lemma NodeTextsAvoidNewline(x: Node)
    ensures '\n' !in OneNodeText(x) && '\n' !in ValueText(x)
  {
    IntTextAvoidsNewline(x.value);
    IntTextAvoidsNewline(x.flag);
    Pad6AvoidsNewline(IntToString(x.value));
  }

  lemma NodeLinesAvoidNewlines(xs: seq<Node>)
    ensures NoNewlines(NodeLines(xs, OneNodeText)) && NoNewlines(NodeLines(xs, ValueText))
  {
    forall k | 0 <= k < |xs| ensures '\n' !in OneNodeText(xs[k]) && '\n' !in ValueText(xs[k]) {
      NodeTextsAvoidNewline(xs[k]);
    }
  }

  /**
   * `one_data` read line by line: the declaration of NUM_NODES as the number
   * of nodes and the array head, then one line per node in the order of `xs`,
   * then the closing brace.
   */
  lemma OneDataListsNodes(xs: seq<Node>)
    requires |xs| == Nodes
    ensures var lines := Split(Lines(OneDataLines(xs)), "\n");
      |lines| == |xs| + 4 && lines[..2] == Header("nodes", "NUM_NODES", |xs|) &&
      (forall k :: 0 <= k < |xs| ==> lines[2 + k] == OneNodeText(xs[k])) &&
      lines[|xs| + 2] == "};" && lines[|xs| + 3] == ""
  {
    var nodes := NodeLines(xs, OneNodeText);
    var ls := OneDataLines(xs);
    OneHeaderAvoidsNewlines();
    NodeLinesAvoidNewlines(xs);
    NoNewlinesConcat(OneHeader, nodes);
    NoNewlinesConcat(OneHeader + nodes, ["};"]);
    SplitLines(ls);
    assert (ls + [""])[..2] == OneHeader;
  }

  /**
   * The lines of `two_data`: NUM_INCLUDED_NODES is declared as the length of
   * the included list, whose lines follow in order, then the closing brace and
   * an empty line; NUM_EXCLUDED_NODES is declared as the length of the
   * excluded one, likewise.
   */
  lemma TwoDataListsNodes(inc: seq<Node>, exc: seq<Node>)
    ensures var lines, e := TwoDataLines(inc, exc), |inc| + 6;
      |lines| == |inc| + |exc| + 7 &&
      lines[..2] == Header("included_nodes", "NUM_INCLUDED_NODES", |inc|) &&
      lines[2..|inc| + 2] == NodeLines(inc, ValueText) && lines[|inc| + 2..e - 2] == ["};", ""] &&
      lines[e - 2..e] == Header("excluded_nodes", "NUM_EXCLUDED_NODES", |exc|) &&
      lines[e..e + |exc|] == NodeLines(exc, ValueText) && lines[e + |exc|] == "};"
  {
    TwoDataLayout(IncludedHeader(|inc|), NodeLines(inc, ValueText), ExcludedHeader(|exc|), NodeLines(exc, ValueText));
  }

  /** Read back line by line, `two_data` gives the lines written, and an empty piece after the final newline. */
  lemma TwoDataReadBack(inc: seq<Node>, exc: seq<Node>)
    ensures Split(Lines(TwoDataLines(inc, exc)), "\n") == TwoDataLines(inc, exc) + [""]
  {
    TwoDataAvoidsNewlines(inc, exc);
    SplitLines(TwoDataLines(inc, exc));
  }

  /** Where the parts of `two_data` sit among its lines. */
  lemma TwoDataLayout(head: seq<string>, a: seq<string>, tail: seq<string>, b: seq<string>)
    requires |head| == 2 && |tail| == 2
    ensures var lines, e := head + a + ["};", ""] + tail + b + ["};"], |a| + 6;
      |lines| == |a| + |b| + 7 && lines[..2] == head && lines[2..|a| + 2] == a &&
      lines[|a| + 2..e - 2] == ["};", ""] && lines[e - 2..e] == tail && lines[e..e + |b|] == b &&
      lines[e + |b|] == "};"
  {
    var lines, e := head + a + ["};", ""] + tail + b + ["};"], |a| + 6;
    assert lines[..2] == head;
    assert lines[2..|a| + 2] == a;
    assert lines[|a| + 2..e - 2] == ["};", ""];
    assert lines[e - 2..e] == tail;
    assert lines[e..e + |b|] == b;
  }

  lemma TwoDataAvoidsNewlines(inc: seq<Node>, exc: seq<Node>)
    ensures NoNewlines(TwoDataLines(inc, exc))
  {
    var head, tail := IncludedHeader(|inc|), ExcludedHeader(|exc|);
    var incLines, excLines := NodeLines(inc, ValueText), NodeLines(exc, ValueText);
    var front := head + incLines + ["};", ""];
    TwoHeadersAvoidNewlines(|inc|);
    TwoHeadersAvoidNewlines(|exc|);
    NodeLinesAvoidNewlines(inc);
    NodeLinesAvoidNewlines(exc);
    NoNewlinesConcat(head, incLines);
    NoNewlinesConcat(head + incLines, ["};", ""]);
    NoNewlinesConcat(front, tail);
    NoNewlinesConcat(front + tail, excLines);
    NoNewlinesConcat(front + tail + excLines, ["};"]);
  }
}
