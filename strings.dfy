/**
 * The JavaScript string operations the demos rely on, over `seq<char>`:
 * `Array.prototype.join`, `String.prototype.split` and
 * `String.prototype.replaceAll` with a non-empty string pattern and a string
 * replacement.
 */
module Strings {

  /** `p` occurs in `s` starting at index `i`. */
  predicate OccursAt(p: string, s: string, i: nat)
  {
    i + |p| <= |s| && s[i..i + |p|] == p
  }

  predicate Occurs(p: string, s: string)
  {
    exists i: nat | i <= |s| :: OccursAt(p, s, i)
  }

  /** `parts.join(sep)`: the parts with `sep` between neighbours. */
  function Join(sep: string, parts: seq<string>): string
  {
    if |parts| == 0 then ""
    else if |parts| == 1 then parts[0]
    else parts[0] + sep + Join(sep, parts[1..])
  }

  /**
   * `s.split(p)`: the pieces between the occurrences of `p` found by a
   * left-to-right scan that skips past each occurrence it finds.
   */
  function Split(s: string, p: string): (r: seq<string>)
    requires |p| > 0
    ensures |r| >= 1
    decreases |s|
  {
    if |s| < |p| then [s]
    else if s[..|p|] == p then [""] + Split(s[|p|..], p)
    else var t := Split(s[1..], p); [[s[0]] + t[0]] + t[1..]
  }

  /** The same scan writing the text `r`, unchanged, for each occurrence. */
  function ReplaceLiteral(s: string, p: string, r: string): string
    requires |p| > 0
    decreases |s|
  {
    if |s| < |p| then s
    else if s[..|p|] == p then r + ReplaceLiteral(s[|p|..], p, r)
    else [s[0]] + ReplaceLiteral(s[1..], p, r)
  }

  /**
   * The text a string replacement `r` stands for at one match (the abstract
   * operation GetSubstitution of the ECMAScript language specification):
   * `$$` is `$`, `$&` the match, `` $` `` the text before it and `$'` the
   * text after it. Every other `$` is kept, `$1` and `$<` among them, since a
   * string pattern has no capture groups.
   */
  function Substitution(r: string, matched: string, before: string, after: string): string
    decreases |r|
  {
    if |r| == 0 then ""
    else if r[0] == '$' && |r| >= 2 && r[1] == '$' then "$" + Substitution(r[2..], matched, before, after)
    else if r[0] == '$' && |r| >= 2 && r[1] == '&' then matched + Substitution(r[2..], matched, before, after)
    else if r[0] == '$' && |r| >= 2 && r[1] == '`' then before + Substitution(r[2..], matched, before, after)
    else if r[0] == '$' && |r| >= 2 && r[1] == '\'' then after + Substitution(r[2..], matched, before, after)
    else [r[0]] + Substitution(r[1..], matched, before, after)
  }

  /** `s.replaceAll(p, r)`: the occurrences found by the scan, each replaced by the substitution of `r`. */
  function ReplaceAll(s: string, p: string, r: string): string
    requires |p| > 0
  {
    ReplaceFrom("", s, p, r)
  }

  /** The scan of `replaceAll` over the text `t` that follows the text `before`. */
  function ReplaceFrom(before: string, t: string, p: string, r: string): string
    requires |p| > 0
    decreases |t|
  {
    if |t| < |p| then t
    else if t[..|p|] == p then Substitution(r, p, before, t[|p|..]) + ReplaceFrom(before + p, t[|p|..], p, r)
    else [t[0]] + ReplaceFrom(before + [t[0]], t[1..], p, r)
  }

  /** A replacement without `$` stands for itself. */
  lemma {:induction false} SubstitutionWithoutDollar(r: string, matched: string, before: string, after: string)
    requires '$' !in r
    ensures Substitution(r, matched, before, after) == r
    decreases |r|
  {
    if |r| > 0 {
      assert r[0] != '$';
      SubstitutionWithoutDollar(r[1..], matched, before, after);
      assert r == [r[0]] + r[1..];
    }
  }

  lemma {:induction false} ReplaceFromLiteral(before: string, t: string, p: string, r: string)
    requires |p| > 0 && '$' !in r
    ensures ReplaceFrom(before, t, p, r) == ReplaceLiteral(t, p, r)
    decreases |t|
  {
    if |t| < |p| {
    } else if t[..|p|] == p {
      ReplaceFromLiteral(before + p, t[|p|..], p, r);
      SubstitutionWithoutDollar(r, p, before, t[|p|..]);
    } else {
      ReplaceFromLiteral(before + [t[0]], t[1..], p, r);
    }
  }

  /** With a replacement holding no `$`, `replaceAll` writes the replacement as it is. */
  lemma ReplaceAllLiteral(s: string, p: string, r: string)
    requires |p| > 0 && '$' !in r
    ensures ReplaceAll(s, p, r) == ReplaceLiteral(s, p, r)
  {
    ReplaceFromLiteral("", s, p, r);
  }

  /** `$&` puts the match back: replacing `p` by `"$&"` leaves `p` in place. */
  lemma ReplaceAllKeepsMatch(p: string)
    requires |p| > 0
    ensures ReplaceAll(p, p, "$&") == p
  {
    var r := "$&";
    assert p[..|p|] == p && p[|p|..] == "";
    assert r[0] == '$' && r[1] == '&' && r[2..] == "";
    assert Substitution(r, p, "", "") == p + Substitution("", p, "", "") == p;
    assert ReplaceFrom(p, "", p, r) == "";
    assert ReplaceFrom("", p, p, r) == Substitution(r, p, "", p[|p|..]) + ReplaceFrom("" + p, p[|p|..], p, r);
  }

  /** The part of `s` before its first `c`; all of `s` when there is none. */
  function Before(s: string, c: char): string
  {
    Split(s, [c])[0]
  }

  lemma JoinConsHead(sep: string, c: string, parts: seq<string>)
    requires |parts| >= 1
    ensures Join(sep, [c + parts[0]] + parts[1..]) == c + Join(sep, parts)
  {
    if |parts| > 1 {
      assert ([c + parts[0]] + parts[1..])[1..] == parts[1..];
    }
  }

  lemma JoinCons(sep: string, a: string, parts: seq<string>)
    requires |parts| >= 1
    ensures Join(sep, [a] + parts) == a + sep + Join(sep, parts)
  {
    assert ([a] + parts)[1..] == parts;
  }

  /** Joining the pieces with the pattern gives back the string. */
  lemma {:induction false} JoinSplit(s: string, p: string)
    requires |p| > 0
    ensures Join(p, Split(s, p)) == s
    decreases |s|
  {
    if |s| < |p| {
    } else if s[..|p|] == p {
      var t := Split(s[|p|..], p);
      assert Split(s, p) == [""] + t;
      JoinSplit(s[|p|..], p);
      JoinCons(p, "", t);
      assert "" + p + s[|p|..] == s;
    } else {
      var t := Split(s[1..], p);
      assert Split(s, p) == [[s[0]] + t[0]] + t[1..];
      JoinSplit(s[1..], p);
      JoinConsHead(p, [s[0]], t);
      assert [s[0]] + s[1..] == s;
    }
  }

  /**
   * Replacing every occurrence is the same as joining the pieces
   * between occurrences with the replacement: each occurrence of `p`
   * becomes `r` and every other character is kept, in order.
   */
  lemma {:induction false} ReplaceLiteralIsSplitJoin(s: string, p: string, r: string)
    requires |p| > 0
    ensures ReplaceLiteral(s, p, r) == Join(r, Split(s, p))
    decreases |s|
  {
    if |s| < |p| {
    } else if s[..|p|] == p {
      var t := Split(s[|p|..], p);
      ReplaceLiteralIsSplitJoin(s[|p|..], p, r);
      assert ([""] + t)[1..] == t;
    } else {
      var t := Split(s[1..], p);
      ReplaceLiteralIsSplitJoin(s[1..], p, r);
      JoinConsHead(r, [s[0]], t);
    }
  }

  /** For a replacement without `$`, `replaceAll` joins the pieces between occurrences with the replacement. */
  lemma ReplaceAllIsSplitJoin(s: string, p: string, r: string)
    requires |p| > 0 && '$' !in r
    ensures ReplaceAll(s, p, r) == Join(r, Split(s, p))
  {
    ReplaceAllLiteral(s, p, r);
    ReplaceLiteralIsSplitJoin(s, p, r);
  }

  /** The first piece of a split is a prefix of the string. */
  lemma {:induction false} SplitHeadIsPrefix(s: string, p: string)
    requires |p| > 0
    ensures Split(s, p)[0] <= s
    decreases |s|
  {
    if |s| >= |p| && s[..|p|] != p {
      SplitHeadIsPrefix(s[1..], p);
      assert s == [s[0]] + s[1..];
    }
  }

  /** No piece of a split contains the pattern. */
  lemma {:induction false} SplitPiecesAvoidPattern(s: string, p: string)
    requires |p| > 0
    ensures forall k :: 0 <= k < |Split(s, p)| ==> !Occurs(p, Split(s, p)[k])
    decreases |s|
  {
    var parts := Split(s, p);
    if |s| < |p| {
      assert parts == [s];
      forall i: nat ensures !OccursAt(p, s, i) { }
    } else if s[..|p|] == p {
      var t := Split(s[|p|..], p);
      SplitPiecesAvoidPattern(s[|p|..], p);
      forall k | 0 <= k < |parts| ensures !Occurs(p, parts[k]) {
        if k == 0 {
          forall i: nat ensures !OccursAt(p, "", i) { }
        } else {
          assert parts[k] == t[k - 1];
        }
      }
    } else {
      var t := Split(s[1..], p);
      SplitPiecesAvoidPattern(s[1..], p);
      SplitHeadIsPrefix(s[1..], p);
      var head := [s[0]] + t[0];
      assert head <= s;
      forall i: nat ensures !OccursAt(p, head, i) {
        if i == 0 {
          if |head| >= |p| {
            assert head[..|p|] == s[..|p|];
          }
        } else if OccursAt(p, head, i) {
          assert head[i..i + |p|] == t[0][i - 1..i - 1 + |p|];
          assert OccursAt(p, t[0], i - 1);
        }
      }
      forall k | 0 <= k < |parts| ensures !Occurs(p, parts[k]) {
        if k > 0 {
          assert parts[k] == t[k];
        }
      }
    }
  }

  /** A string without the pattern splits into itself alone. */
  lemma {:induction false} SplitWithoutPattern(s: string, p: string)
    requires |p| > 0 && !Occurs(p, s)
    ensures Split(s, p) == [s]
    decreases |s|
  {
    if |s| >= |p| {
      assert !OccursAt(p, s, 0);
      forall i: nat ensures !OccursAt(p, s[1..], i) {
        if OccursAt(p, s[1..], i) {
          assert s[1..][i..i + |p|] == s[i + 1..i + 1 + |p|];
          assert OccursAt(p, s, i + 1);
        }
      }
      SplitWithoutPattern(s[1..], p);
      assert s == [s[0]] + s[1..];
    }
  }

  /** Appending a part appends the separator and the part. */
  lemma {:induction false} JoinSnoc(sep: string, parts: seq<string>, x: string)
    requires |parts| >= 1
    ensures Join(sep, parts + [x]) == Join(sep, parts) + sep + x
    decreases |parts|
  {
    if |parts| == 1 {
      assert parts + [x] == [parts[0], x];
    } else {
      assert (parts + [x])[1..] == parts[1..] + [x];
      JoinSnoc(sep, parts[1..], x);
    }
  }

  lemma OccursInside(p: string, a: string, b: string, c: string, i: nat)
    requires OccursAt(p, b, i)
    ensures OccursAt(p, a + b + c, |a| + i)
  {
    assert (a + b + c)[|a| + i..|a| + i + |p|] == b[i..i + |p|];
  }

  /** Every part occurs in the joined string. */
  lemma {:induction false} JoinHoldsParts(sep: string, parts: seq<string>, i: nat)
    requires i < |parts|
    ensures Occurs(parts[i], Join(sep, parts))
    decreases |parts|
  {
    if |parts| == 1 {
      assert OccursAt(parts[0], Join(sep, parts), 0);
    } else if i == 0 {
      assert OccursAt(parts[0], parts[0], 0);
      OccursInside(parts[0], "", parts[0], sep + Join(sep, parts[1..]), 0);
      assert Join(sep, parts) == "" + parts[0] + (sep + Join(sep, parts[1..]));
    } else {
      JoinHoldsParts(sep, parts[1..], i - 1);
      var rest := Join(sep, parts[1..]);
      var o: nat :| o <= |rest| && OccursAt(parts[i], rest, o);
      OccursInside(parts[i], parts[0] + sep, rest, "", o);
      assert Join(sep, parts) == parts[0] + sep + rest + "";
    }
  }

  /**
   * `t` is `s` with every occurrence of `p` replaced by `r`: the two are the
   * same pieces, none holding `p`, joined by `p` and by `r`.
   */
  ghost predicate Replaces(s: string, p: string, r: string, t: string)
  {
    exists parts: seq<string> :: Join(p, parts) == s && Join(r, parts) == t &&
      forall k :: 0 <= k < |parts| ==> !Occurs(p, parts[k])
  }

  /** With a replacement holding no `$`, `replaceAll` replaces every occurrence and nothing else. */
  lemma ReplaceAllReplaces(s: string, p: string, r: string)
    requires |p| > 0 && '$' !in r
    ensures Replaces(s, p, r, ReplaceAll(s, p, r))
  {
    var parts := Split(s, p);
    JoinSplit(s, p);
    ReplaceAllIsSplitJoin(s, p, r);
    SplitPiecesAvoidPattern(s, p);
    assert Join(p, parts) == s && Join(r, parts) == ReplaceAll(s, p, r);
  }

  /** A string without the pattern comes back unchanged, whatever the replacement. */
  lemma ReplaceAllWithoutPattern(s: string, p: string, r: string)
    requires |p| > 0 && !Occurs(p, s)
    ensures ReplaceAll(s, p, r) == s
  {
    ReplaceFromWithoutPattern("", s, p, r);
  }

  lemma {:induction false} ReplaceFromWithoutPattern(before: string, t: string, p: string, r: string)
    requires |p| > 0 && !Occurs(p, t)
    ensures ReplaceFrom(before, t, p, r) == t
    decreases |t|
  {
    if |t| >= |p| {
      assert !OccursAt(p, t, 0) && t[..|p|] == t[0..0 + |p|];
      forall j: nat | j <= |t[1..]| ensures !OccursAt(p, t[1..], j) {
        assert !OccursAt(p, t, j + 1);
        if j + |p| <= |t[1..]| {
          assert t[1..][j..j + |p|] == t[j + 1..j + 1 + |p|];
        }
      }
      ReplaceFromWithoutPattern(before + [t[0]], t[1..], p, r);
      assert t == [t[0]] + t[1..];
    }
  }

  lemma CharOccurs(c: char, s: string)
    ensures Occurs([c], s) <==> c in s
  {
    if c in s {
      var i :| 0 <= i < |s| && s[i] == c;
      assert OccursAt([c], s, i);
    }
    if Occurs([c], s) {
      var i: nat :| i <= |s| && OccursAt([c], s, i);
      assert i + 1 <= |s| && s[i..i + 1] == [c];
      assert s[i] == c;
    }
  }

  /** `a + [c] + rest` splits on `c` into `a` and the pieces of `rest` when `c` is not in `a`. */
  lemma {:induction false} SplitAfterFirst(a: string, c: char, rest: string)
    requires c !in a
    ensures Split(a + [c] + rest, [c]) == [a] + Split(rest, [c])
    decreases |a|
  {
    var s := a + [c] + rest;
    if |a| == 0 {
      assert s[..1] == [c];
      assert s[1..] == rest;
    } else {
      assert s[..1] != [c] by { assert s[..1][0] == a[0]; }
      assert s[1..] == a[1..] + [c] + rest;
      SplitAfterFirst(a[1..], c, rest);
      assert [s[0]] + a[1..] == a;
    }
  }

  /**
   * Splitting on a one-character separator undoes the join, provided no
   * part holds the separator: the joined text has exactly `|parts|`
   * pieces, each the corresponding part.
   */
  lemma {:induction false} SplitJoin(parts: seq<string>, c: char)
    requires |parts| >= 1
    requires forall k :: 0 <= k < |parts| ==> c !in parts[k]
    ensures Split(Join([c], parts), [c]) == parts
    decreases |parts|
  {
    if |parts| == 1 {
      CharOccurs(c, parts[0]);
      SplitWithoutPattern(parts[0], [c]);
    } else {
      SplitJoin(parts[1..], c);
      SplitAfterFirst(parts[0], c, Join([c], parts[1..]));
    }
  }

  /** `s.split(c)[0]`: contains no `c`, and when `s` holds a `c` it is followed by one. */
  lemma BeforeSpec(s: string, c: char)
    ensures c !in Before(s, c)
    ensures Before(s, c) <= s
    ensures c in s ==> |Before(s, c)| < |s| && s[|Before(s, c)|] == c
    ensures c !in s ==> Before(s, c) == s
  {
    SplitPiecesAvoidPattern(s, [c]);
    CharOccurs(c, Before(s, c));
    SplitHeadIsPrefix(s, [c]);
    CharOccurs(c, s);
    if c !in s {
      SplitWithoutPattern(s, [c]);
    } else {
      JoinSplit(s, [c]);
      var parts := Split(s, [c]);
      if |parts| == 1 {
        assert false;
      }
      assert s == parts[0] + [c] + Join([c], parts[1..]);
    }
  }

  /** The part before `c` of `d + [c] + t` is `d`, when `d` has no `c`. */
  lemma BeforeConcat(d: string, c: char, t: string)
    requires c !in d
    ensures Before(d + [c] + t, c) == d
  {
    SplitAfterFirst(d, c, t);
  }

  /** Lines written one after another, each followed by a newline. */
  function Lines(ls: seq<string>): string
  {
    if ls == [] then "" else Lines(ls[..|ls| - 1]) + ls[|ls| - 1] + "\n"
  }

  /** Newline-terminated lines are the lines joined by newlines, with an empty last piece. */
  lemma {:induction false} LinesJoin(ls: seq<string>)
    ensures Lines(ls) == Join("\n", ls + [""])
  {
    if ls != [] {
      var init, l := ls[..|ls| - 1], ls[|ls| - 1];
      assert ls == init + [l];
      LinesJoin(init);
      JoinSnoc("\n", init + [l], "");
      if init != [] {
        JoinSnoc("\n", init, l);
        JoinSnoc("\n", init, "");
      } else {
        assert init + [l] == [l];
      }
    }
  }

  /** Splitting newline-terminated lines on newlines gives the lines back, then an empty piece. */
  lemma SplitLines(ls: seq<string>)
    requires forall k :: 0 <= k < |ls| ==> '\n' !in ls[k]
    ensures Split(Lines(ls), "\n") == ls + [""]
  {
    var parts := ls + [""];
    assert Lines(ls) == Join("\n", parts) by {
      LinesJoin(ls);
    }
    assert Split(Join("\n", parts), "\n") == parts by {
      assert forall k :: 0 <= k < |parts| ==> '\n' !in parts[k] by {
        assert forall k :: 0 <= k < |ls| ==> parts[k] == ls[k];
        assert parts[|ls|] == "";
      }
      assert ['\n'] == "\n";
      SplitJoin(parts, '\n');
    }
  }
}
