/**
 * The static-site generator gen.c: every regular file of `./posts/` becomes
 * `./build/yyyy/mm/dd/index.html`, and the tree under `./static/` is copied
 * file by file below `./build/`, all while the global `stats` counters
 * accumulate.
 *
 * The filesystem is modelled by its effects: the directory listings that
 * `readdir` returns are `Entry` values, the `mkdirp` calls are logged in
 * order, and the files written are a map from path to contents. Each path is
 * built by `sprintf` into a `malloc`ed buffer of exactly the size the source
 * asks for; `Sprintf` demands that the text and its NUL fit, so every buffer
 * the model fills is one the C code fills without overrunning it.
 */
module SiteGen {
  import opened Decimal

  const Posts: string := "./posts/"
  const Static: string := "./static/"
  const Build: string := "./build/"

  /** `BUF_SIZE`, the chunk size of `copyFile`. */
  const BufSize: nat := 1024

  /** `sizeof(BUILD) + 21`, the buffer `write_md` builds the output path in. */
  const OutfileSize: nat := |Build| + 1 + 21

  /** `stats_t` without its start clock. */
  datatype Stats = Stats(bytesRead: int, bytesWritten: int, filesRead: int, filesWritten: int)

  /** `STATS_INIT` (gen.c:65). */
  const StatsInit: Stats := Stats(0, 0, 0, 0)

  /** `md_t`: the title, the date and the body of a post. */
  datatype Md = Md(title: string, dd: int, mm: int, yyyy: int, b: string, len: int)

  /**
   * An entry of a directory listing as `readdir` reports it: a regular file
   * with its contents, a directory with its own listing, or anything else.
   */
  datatype Entry =
    | Regular(name: string, data: string)
    | Directory(name: string, entries: seq<Entry>)
    | Other(name: string)

  /** What the generator has done so far: the counters, the `mkdirp` calls in order, the files written. */
  datatype Effects = Effects(stats: Stats, dirs: seq<string>, output: map<string, string>)

  /**
   * `sprintf(buf + at, "%s", s)`: writes `s` and a NUL from index `at` on and
   * returns the number of characters written, the NUL not counted. The text
   * and its NUL must fit in the buffer; writing past its end is undefined in C.
   */
  method Sprintf(buf: array<char>, at: nat, s: string) returns (written: nat)
    requires at + |s| + 1 <= buf.Length
    modifies buf
    ensures written == |s|
    ensures buf[..at + |s|] == old(buf[..at]) + s && buf[at + |s|] == '\0'
  {
    var k := 0;
    while k < |s|
      invariant 0 <= k <= |s|
      invariant buf[..at + k] == old(buf[..at]) + s[..k]
    {
      buf[at + k] := s[k];
      assert buf[..at + k + 1] == buf[..at + k] + [s[k]];
      k := k + 1;
    }
    buf[at + |s|] := '\0';
    assert buf[..at + |s|][..at + k] == buf[..at + k];
    written := |s|;
  }

  /**
   * The directories `write_md` creates, each one after the previous
   * (gen.c:137-140): `./build/`, then the year, month and day below it, with
   * `%d` decimals and no padding.
   */
  function PostDirs(md: Md): seq<string>
  {
    var year := Build + (IntToString(md.yyyy) + "/");
    var month := year + (IntToString(md.mm) + "/");
    [Build, year, month, month + (IntToString(md.dd) + "/")]
  }

  /** The file `write_md` opens (gen.c:141-143). */
  function PostPath(md: Md): string
  {
    PostDirs(md)[3] + "index.html"
  }

  predicate PostPathFits(md: Md)
  {
    |PostPath(md)| + 1 <= OutfileSize
  }

  /** The effect of `write_md`: its directories, the file with the body, and the counters (gen.c:134-154). */
  function WritePost(fx: Effects, md: Md): Effects
  {
    Effects(fx.stats.(bytesWritten := fx.stats.bytesWritten + md.len, filesWritten := fx.stats.filesWritten + 1),
      fx.dirs + PostDirs(md), fx.output[PostPath(md) := md.b])
  }

  /**
   * `parse_md` (gen.c:94-122) is a stub: the title is the first character
   * read, the body that character three times, and the date 24/10/2022.
   * `fgetc` on an empty file gives EOF, which the `char` truncates to 0xFF.
   */
  function ParseMd(contents: string): (md: Md)
    ensures md.len == |md.b| == 3 && md.title == md.b[..1]
    ensures (md.yyyy, md.mm, md.dd) == (2022, 10, 24)
  {
    var c := if |contents| > 0 then contents[0] else 255 as char;
    Md([c], 24, 10, 2022, [c, c, c], 3)
  }

  /** `genPost` (gen.c:156-173): parse, write, then count the file read. */
  function GenPostEffect(fx: Effects, contents: string): Effects
  {
    var written := WritePost(fx, ParseMd(contents));
    written.(stats := written.stats.(filesRead := written.stats.filesRead + 1))
  }

  /** `genPosts` (gen.c:175-197): every regular file of the listing, in listing order. */
  function GenPostsEffect(fx: Effects, entries: seq<Entry>): Effects
  {
    if entries == [] then fx
    else
      var before := GenPostsEffect(fx, entries[..|entries| - 1]);
      match entries[|entries| - 1]
      case Regular(_, data) => GenPostEffect(before, data)
      case _ => before
  }

  /** The number of regular files in a listing: the posts `genPosts` generates. */
  function PostCount(entries: seq<Entry>): (n: nat)
    ensures n <= |entries|
  {
    if entries == [] then 0
    else PostCount(entries[..|entries| - 1]) + (if entries[|entries| - 1].Regular? then 1 else 0)
  }

  /**
   * The directory branch of `recursiveCopy` skips an entry whose name starts
   * with `.` followed by `.` or by the terminating NUL (gen.c:276).
   */
  predicate IsDotEntry(name: string)
  {
    |name| >= 1 && name[0] == '.' && (|name| == 1 || name[1] == '.')
  }

  /** `copyFile` (gen.c:199-229): the file is written whole, and each counter grows by its size or by one. */
  function CopyFileEffect(fx: Effects, dst: string, data: string): Effects
  {
    Effects(
      Stats(fx.stats.bytesRead + |data|, fx.stats.bytesWritten + |data|, fx.stats.filesRead + 1, fx.stats.filesWritten + 1),
      fx.dirs, fx.output[dst := data])
  }

  /** The two `mkdirp` calls that build `./build/` and `./build/` + `dirname`, one after the other. */
  function MakeTarget(fx: Effects, dirname: string): Effects
  {
    fx.(dirs := fx.dirs + [Build, Build + dirname])
  }

  /** `recursiveCopy(dirname, n)` (gen.c:231-295): the target directory, then each entry in listing order. */
  function CopyDir(fx: Effects, dirname: string, entries: seq<Entry>): Effects
    decreases entries, 2
  {
    CopyEntries(MakeTarget(fx, dirname), dirname, entries)
  }

  function CopyEntries(fx: Effects, dirname: string, entries: seq<Entry>): Effects
    decreases entries, 1
  {
    if entries == [] then fx
    else CopyEntry(CopyEntries(fx, dirname, entries[..|entries| - 1]), dirname, entries[|entries| - 1])
  }

  /** One listing entry: a regular file is copied below `./build/`, a directory copied recursively unless skipped. */
  function CopyEntry(fx: Effects, dirname: string, e: Entry): Effects
    decreases e, 0
  {
    match e
    case Regular(name, data) => CopyFileEffect(MakeTarget(fx, dirname), Build + dirname + name, data)
    case Directory(name, entries) => if IsDotEntry(name) then fx else CopyDir(fx, SubdirPath(dirname, name), entries)
    case Other(_) => fx
  }

  // The buffers of `recursiveCopy`, sized as the source sizes them.

  /** `strlen(BUILD) + n + 1` for the target directory (gen.c:240). */
  function DstDirSize(n: nat): nat { |Build| + n + 1 }

  /** `strlen(filename) + n + 1` for the source path of a file or of a subdirectory (gen.c:252, 280). */
  function SrcSize(filename: string, n: nat): nat { |filename| + n + 1 }

  /** `strlen(BUILD) + m + 1` for the target of a file, m being the length of its source path (gen.c:259). */
  function DstSize(m: nat): nat { |Build| + m + 1 }

  /** The path of a subdirectory that `recursiveCopy` descends into (gen.c:286). */
  function SubdirPath(dirname: string, filename: string): string
  {
    dirname + filename + "/"
  }

  /**
   * The length argument of the recursive call as written (gen.c:287): the
   * count `sprintf` returns, which leaves out the NUL.
   */
  function NestedLengthAsWritten(dirname: string, filename: string): (n: nat)
    ensures n == |SubdirPath(dirname, filename)|
  {
    |dirname| + |filename| + 1
  }

  /**
   * The length argument as the top-level call passes it (gen.c:298,
   * `sizeof(STATIC)`): the path's length with its NUL. The model's recursion
   * uses this one.
   */
  function NestedLength(dirname: string, filename: string): (n: nat)
    ensures n == |SubdirPath(dirname, filename)| + 1
  {
    |dirname| + |filename| + 2
  }

  /** The global state gen.c changes, with the operations that change it. */
  class Generator {
    var stats: Stats
    var dirs: seq<string>
    var output: map<string, string>

    function State(): Effects
      reads this
    {
      Effects(stats, dirs, output)
    }

    /** A process that has created nothing yet, after `initData` (gen.c:303-305). */
    constructor ()
      ensures State() == Effects(StatsInit, [], map[])
    {
      stats := StatsInit;
      dirs := [];
      output := map[];
    }

    /** `mkdirp` (gen.c:126-132): create the directory, an existing one being no error. */
    method Mkdirp(path: string)
      modifies this
      ensures State() == old(State()).(dirs := old(dirs) + [path])
    {
      dirs := dirs + [path];
    }

    /**
     * `copyFile(src, dst)` with `data` the contents of `src`: reads and writes
     * chunks of at most `BUF_SIZE` until `fread` returns 0 (gen.c:212-228).
     */
    method CopyFile(src: string, dst: string, data: string)
      modifies this
      ensures State() == CopyFileEffect(old(State()), dst, data)
    {
      var copied := "";
      var pos := 0;
      while pos < |data|
        invariant 0 <= pos <= |data| && copied == data[..pos]
        invariant stats == old(stats).(bytesRead := old(stats.bytesRead) + pos, bytesWritten := old(stats.bytesWritten) + pos)
        invariant dirs == old(dirs) && output == old(output)
      {
        var n := if |data| - pos < BufSize then |data| - pos else BufSize;
        stats := stats.(bytesRead := stats.bytesRead + n, bytesWritten := stats.bytesWritten + n);
        assert data[..pos + n] == data[..pos] + data[pos..pos + n];
        copied := copied + data[pos..pos + n];
        pos := pos + n;
      }
      assert copied == data;
      output := output[dst := copied];
      stats := stats.(filesRead := stats.filesRead + 1, filesWritten := stats.filesWritten + 1);
    }

    /**
     * `write_md` (gen.c:134-154): builds the output path piece by piece in a
     * 30-byte buffer, creating each directory as soon as its name is
     * complete, then writes the body. The path must fit the buffer; the
     * lemmas below say when it does.
     */
    method WriteMd(md: Md)
      requires PostPathFits(md)
      modifies this
      ensures State() == WritePost(old(State()), md)
    {
      var outfile := new char[OutfileSize];
      var i := PostPathInto(outfile, md);
      output := output[outfile[..i] := md.b];
      stats := stats.(bytesWritten := stats.bytesWritten + md.len, filesWritten := stats.filesWritten + 1);
    }

    /** The path-building half of `write_md` (gen.c:135-141). */
    method PostPathInto(outfile: array<char>, md: Md) returns (i: nat)
      requires outfile.Length == OutfileSize && PostPathFits(md)
      modifies this, outfile
      ensures i < outfile.Length && outfile[..i] == PostPath(md) && outfile[i] == '\0'
      ensures State() == old(State()).(dirs := old(dirs) + PostDirs(md))
    {
      ghost var d := PostDirs(md);
      assert |PostPath(md)| == |d[3]| + 10;
      i := PostDirsInto(outfile, md);
      var w := SprintfAt(outfile, i, d[3], "index.html");
      i := i + w;
    }

    /** `./build/`, the year, the month and the day, each directory created once its name is complete (gen.c:137-140). */
    method PostDirsInto(outfile: array<char>, md: Md) returns (i: nat)
      requires |PostDirs(md)[3]| + 1 <= outfile.Length
      modifies this, outfile
      ensures i == |PostDirs(md)[3]| && outfile[..i] == PostDirs(md)[3]
      ensures State() == old(State()).(dirs := old(dirs) + PostDirs(md))
    {
      ghost var d := PostDirs(md);
      var m, dd := IntToString(md.mm) + "/", IntToString(md.dd) + "/";
      assert d[2] == d[1] + m && d[3] == d[2] + dd;
      i := YearDirInto(outfile, md);
      var w := SprintfDir(outfile, i, d[1], m);
      i := i + w;
      assert dirs == old(dirs) + d[..3] by { assert d[..3] == d[..2] + [d[2]]; }
      w := SprintfDir(outfile, i, d[2], dd);
      i := i + w;
      assert dirs == old(dirs) + d by { assert d == d[..3] + [d[3]]; }
    }

    /** The first two directories, `./build/` and the year (gen.c:137-138). */
    method YearDirInto(outfile: array<char>, md: Md) returns (i: nat)
      requires |PostDirs(md)[3]| + 1 <= outfile.Length
      modifies this, outfile
      ensures i == |PostDirs(md)[1]| && outfile[..i] == PostDirs(md)[1]
      ensures State() == old(State()).(dirs := old(dirs) + PostDirs(md)[..2])
    {
      ghost var d := PostDirs(md);
      var y := IntToString(md.yyyy) + "/";
      assert d[1] == d[0] + y;
      assert [] + Build == Build;
      i := SprintfDir(outfile, 0, [], Build);
      assert dirs == old(dirs) + d[..1];
      var w := SprintfDir(outfile, i, d[0], y);
      i := i + w;
      assert dirs == old(dirs) + d[..2] by { assert d[..2] == d[..1] + [d[1]]; }
    }

    /** `sprintf(buf + at, "%s", s)` onto the path the buffer already holds. */
    static method SprintfAt(buf: array<char>, at: nat, ghost path: string, s: string) returns (written: nat)
      requires at + |s| + 1 <= buf.Length && buf[..at] == path
      modifies buf
      ensures written == |s| && buf[..at + |s|] == path + s && buf[at + |s|] == '\0'
    {
      written := Sprintf(buf, at, s);
    }

    /**
     * `i += sprintf(buf + i, "%s", s); mkdirp(buf)`: extend the path held in
     * the buffer, then create the directory it names.
     */
    method SprintfDir(buf: array<char>, at: nat, ghost path: string, s: string) returns (written: nat)
      requires at + |s| + 1 <= buf.Length && buf[..at] == path
      modifies this, buf
      ensures written == |s| && buf[..at + |s|] == path + s
      ensures State() == old(State()).(dirs := old(dirs) + [path + s])
    {
      written := Sprintf(buf, at, s);
      Mkdirp(buf[..at + written]);
    }

    /** `genPost(filename)` with `contents` the contents of that file (gen.c:156-173). */
    method GenPost(filename: string, contents: string)
      modifies this
      ensures State() == GenPostEffect(old(State()), contents)
    {
      var md := ParseMd(contents);
      ParsedPostFits(contents);
      WriteMd(md);
      stats := stats.(filesRead := stats.filesRead + 1);
    }

    /** `genPosts` (gen.c:175-197) over the listing of `./posts/`, in `readdir` order. */
    method GenPosts(entries: seq<Entry>)
      modifies this
      ensures State() == GenPostsEffect(old(State()), entries)
    {
      var k := 0;
      while k < |entries|
        invariant 0 <= k <= |entries|
        invariant State() == GenPostsEffect(old(State()), entries[..k])
      {
        assert entries[..k + 1][..k] == entries[..k];
        if entries[k].Regular? {
          var name := entries[k].name;
          var s := new char[|Posts| + 1 + |name|];
          var w := Sprintf(s, 0, Posts + name);
          GenPost(s[..w], entries[k].data);
        }
        k := k + 1;
      }
      assert entries[..k] == entries;
    }

    /**
     * `recursiveCopy(dirname, n)` (gen.c:231-295). `n` must be at least the
     * length of `dirname` with its NUL, as it is at the top level; every
     * buffer is then large enough, and the recursive call passes the same
     * measure on.
     */
    method RecursiveCopy(dirname: string, n: nat, entries: seq<Entry>)
      requires n >= |dirname| + 1
      modifies this
      ensures State() == CopyDir(old(State()), dirname, entries)
      decreases entries
    {
      var dstDir := new char[DstDirSize(n)];
      var i := SprintfDir(dstDir, 0, [], Build);
      var w := SprintfDir(dstDir, i, Build, dirname);
      i := i + w;
      ghost var start := State();
      assert start == MakeTarget(old(State()), dirname);
      var k := 0;
      while k < |entries|
        invariant 0 <= k <= |entries|
        invariant State() == CopyEntries(start, dirname, entries[..k])
      {
        assert entries[..k + 1][..k] == entries[..k];
        CopyOne(dirname, n, entries[k]);
        k := k + 1;
      }
      assert entries[..k] == entries;
    }

    /** One iteration of the `readdir` loop of `recursiveCopy` (gen.c:247-291). */
    method CopyOne(dirname: string, n: nat, e: Entry)
      requires n >= |dirname| + 1
      modifies this
      ensures State() == CopyEntry(old(State()), dirname, e)
      decreases e
    {
      match e
      case Regular(filename, data) =>
        var src := new char[SrcSize(filename, n)];
        var m := Sprintf(src, 0, dirname + filename);
        assert src[..m] == dirname + filename;
        var dst := new char[DstSize(m)];
        var i := SprintfDir(dst, 0, [], Build);
        var w := SprintfDir(dst, i, Build, dirname);
        i := i + w;
        assert State() == MakeTarget(old(State()), dirname);
        w := Sprintf(dst, i, filename);
        i := i + w;
        assert dst[..i] == Build + dirname + filename;
        CopyFile(src[..m], dst[..i], data);
      case Directory(filename, entries) =>
        if !IsDotEntry(filename) {
          var src := new char[SrcSize(filename, n)];
          var m := Sprintf(src, 0, SubdirPath(dirname, filename));
          assert src[..m] == SubdirPath(dirname, filename);
          RecursiveCopy(src[..m], NestedLength(dirname, filename), entries);
        }
      case Other(_) =>
    }

    /** `copyStatic` (gen.c:297-299): the whole of `./static/`. */
    method CopyStatic(entries: seq<Entry>)
      modifies this
      ensures State() == CopyDir(old(State()), Static, entries)
    {
      RecursiveCopy(Static, |Static| + 1, entries);
    }

    /** `main` without the final report (gen.c:307-320): reset the counters, generate the posts, copy the static tree. */
    method Generate(posts: seq<Entry>, statics: seq<Entry>)
      modifies this
      ensures State() == CopyDir(GenPostsEffect(Effects(StatsInit, old(dirs), old(output)), posts), Static, statics)
    {
      stats := StatsInit;
      GenPosts(posts);
      CopyStatic(statics);
    }
  }

  // Output paths.

  /**
   * The directories are created shortest first, each a prefix of the next
   * and of the file finally opened, and each ends with a slash.
   */
  lemma PostDirsInOrder(md: Md)
    ensures forall k :: 0 <= k < 3 ==> PostDirs(md)[k] < PostDirs(md)[k + 1]
    ensures PostDirs(md)[3] < PostPath(md)
    ensures forall k :: 0 <= k < 4 ==> PostDirs(md)[k][|PostDirs(md)[k]| - 1] == '/'
  {
    var d := PostDirs(md);
    assert d[1][..|d[0]|] == d[0] && d[2][..|d[1]|] == d[1] && d[3][..|d[2]|] == d[2];
    assert PostPath(md)[..|d[3]|] == d[3];
  }

  /** The path has the documented shape `./build/<yyyy>/<mm>/<dd>/index.html`. */
  lemma PostPathShape(md: Md)
    ensures PostPath(md) ==
      "./build/" + IntToString(md.yyyy) + "/" + IntToString(md.mm) + "/" + IntToString(md.dd) + "/" + "index.html"
  {
    var y, m, d := IntToString(md.yyyy), IntToString(md.mm), IntToString(md.dd);
    assert Build + (y + "/") == Build + y + "/";
    assert Build + y + "/" + (m + "/") == Build + y + "/" + m + "/";
    assert Build + y + "/" + m + "/" + (d + "/") == Build + y + "/" + m + "/" + d + "/";
  }

  /** The output path is 21 characters plus the three numbers' decimals. */
  lemma PostPathLength(md: Md)
    ensures |PostPath(md)| == 21 + |IntToString(md.yyyy)| + |IntToString(md.mm)| + |IntToString(md.dd)|
  {
  }

  /** The 30-byte buffer holds the path and its NUL exactly when the three numbers take at most 8 characters. */
  lemma PostPathFitsIff(md: Md)
    ensures PostPathFits(md) <==> |IntToString(md.yyyy)| + |IntToString(md.mm)| + |IntToString(md.dd)| <= 8
  {
    PostPathLength(md);
  }

  /** A year of at most four digits and a month and day of at most two always fit. */
  lemma SmallDateFits(md: Md)
    requires 0 <= md.yyyy < 10000 && 0 <= md.mm < 100 && 0 <= md.dd < 100
    ensures PostPathFits(md)
  {
    NatToStringLength(md.yyyy, 4);
    NatToStringLength(md.mm, 2);
    NatToStringLength(md.dd, 2);
    PostPathFitsIff(md);
  }

  /** A five-digit year with a two-digit month and day needs 31 bytes, one more than the buffer has. */
  lemma FiveDigitYearOverflows()
    ensures var md := Md("t", 24, 10, 10000, "b", 1);
      |PostPath(md)| + 1 == OutfileSize + 1 && !PostPathFits(md)
  {
    var md := Md("t", 24, 10, 10000, "b", 1);
    NatToStringLength(10000, 5);
    NatToStringLengthAtLeast(10000, 4);
    PostPathLength(md);
  }

  /** Every post `parse_md` produces fits: its date is 24/10/2022. */
  lemma ParsedPostFits(contents: string)
    ensures PostPathFits(ParseMd(contents))
  {
    SmallDateFits(ParseMd(contents));
  }

  /** The buffer `genPosts` allocates holds `./posts/` + name and its NUL exactly (gen.c:186-187). */
  lemma PostsBufferExact(name: string)
    ensures |Posts| + 1 + |name| == |Posts + name| + 1
  {
  }

  // The buffers of recursiveCopy.

  /**
   * Given `n` at least the length of `dirname`, the target directory and the
   * source of a file fit, and the target of a file fits exactly
   * (gen.c:240-243, 252-268).
   */
  lemma CopyBuffersFit(dirname: string, filename: string, n: nat)
    requires n >= |dirname|
    ensures |Build + dirname| + 1 <= DstDirSize(n)
    ensures |dirname + filename| + 1 <= SrcSize(filename, n)
    ensures |Build + dirname + filename| + 1 == DstSize(|dirname + filename|)
  {
  }

  /** The source path of a subdirectory needs `n` to count the NUL as well (gen.c:280-286). */
  lemma SubdirBufferFitsIff(dirname: string, filename: string, n: nat)
    ensures |SubdirPath(dirname, filename)| + 1 <= SrcSize(filename, n) <==> n >= |dirname| + 1
  {
  }

  /** At the top level `n` is `sizeof(STATIC)`, so the subdirectory buffers of `./static/` fit (gen.c:298). */
  lemma TopLevelSubdirFits(filename: string)
    ensures |SubdirPath(Static, filename)| + 1 <= SrcSize(filename, |Static| + 1)
  {
    SubdirBufferFitsIff(Static, filename, |Static| + 1);
  }

  /**
   * As written, one level down `n` is `sprintf`'s count, and the source
   * buffer of any subdirectory there is one byte short: the NUL lands past
   * its end.
   */
  lemma AsWrittenNestedBufferShort(dirname: string, sub: string, filename: string)
    ensures var child := SubdirPath(dirname, sub);
      SrcSize(filename, NestedLengthAsWritten(dirname, sub)) == |SubdirPath(child, filename)| + 1 - 1
  {
  }

  /** The smallest case: `./static/a/` holding a directory `b` needs 14 bytes and gets 13. */
  lemma AsWrittenNestedExample()
    ensures SrcSize("b", NestedLengthAsWritten(Static, "a")) == 13
    ensures |SubdirPath(SubdirPath(Static, "a"), "b")| + 1 == 14
  {
  }

  /** With the length counting the NUL, the measure the recursion needs is kept at every level. */
  lemma NestedBufferFits(dirname: string, sub: string, filename: string)
    ensures var child := SubdirPath(dirname, sub);
      NestedLength(dirname, sub) >= |child| + 1 &&
      |SubdirPath(child, filename)| + 1 <= SrcSize(filename, NestedLength(dirname, sub))
  {
  }

  /** `.` and `..` are skipped, and so is every name beginning with `..`; other hidden names are not. */
  lemma DotEntries(name: string)
    ensures IsDotEntry(name) <==> name == "." || (|name| >= 2 && name[..2] == "..")
    ensures IsDotEntry(".") && IsDotEntry("..") && IsDotEntry("..x") && !IsDotEntry(".x")
  {
  }

  // The counters.

  /** Each post counts one file read, one file written and the three bytes of its body. */
  lemma {:induction false} PostsStats(fx: Effects, entries: seq<Entry>)
    ensures var r := GenPostsEffect(fx, entries).stats;
      r.bytesRead == fx.stats.bytesRead &&
      r.bytesWritten == fx.stats.bytesWritten + 3 * PostCount(entries) &&
      r.filesRead == fx.stats.filesRead + PostCount(entries) &&
      r.filesWritten == fx.stats.filesWritten + PostCount(entries)
  {
    if entries != [] {
      PostsStats(fx, entries[..|entries| - 1]);
    }
  }

  /**
   * What a copy does to the counters and the output: as many bytes and files
   * read as written, none of them fewer than before, the `mkdirp` log only
   * extended, and every new file below `./build/` + `dirname`.
   */
  ghost predicate CopyKeeps(fx: Effects, r: Effects, dirname: string)
  {
    r.stats.bytesRead - fx.stats.bytesRead == r.stats.bytesWritten - fx.stats.bytesWritten >= 0 &&
    r.stats.filesRead - fx.stats.filesRead == r.stats.filesWritten - fx.stats.filesWritten >= 0 &&
    fx.dirs <= r.dirs &&
    forall path :: path in r.output ==> path in fx.output || Build + dirname <= path
  }

  lemma {:induction false} CopyDirKeeps(fx: Effects, dirname: string, entries: seq<Entry>)
    ensures CopyKeeps(fx, CopyDir(fx, dirname, entries), dirname)
    decreases entries, 2
  {
    CopyEntriesKeeps(MakeTarget(fx, dirname), dirname, entries);
  }

  lemma {:induction false} CopyEntriesKeeps(fx: Effects, dirname: string, entries: seq<Entry>)
    ensures CopyKeeps(fx, CopyEntries(fx, dirname, entries), dirname)
    decreases entries, 1
  {
    if entries != [] {
      var mid := CopyEntries(fx, dirname, entries[..|entries| - 1]);
      CopyEntriesKeeps(fx, dirname, entries[..|entries| - 1]);
      CopyEntryKeeps(mid, dirname, entries[|entries| - 1]);
    }
  }

  lemma {:induction false} CopyEntryKeeps(fx: Effects, dirname: string, e: Entry)
    ensures CopyKeeps(fx, CopyEntry(fx, dirname, e), dirname)
    decreases e, 0
  {
    match e
    case Regular(name, data) =>
      assert Build + dirname <= Build + dirname + name;
    case Directory(name, entries) =>
      if !IsDotEntry(name) {
        var child := SubdirPath(dirname, name);
        CopyDirKeeps(fx, child, entries);
        assert Build + dirname <= Build + child;
      }
    case Other(_) =>
  }

  /**
   * After a whole run every file read has been written, and the bytes
   * written exceed the bytes read by the three-byte bodies of the posts,
   * whose reads `parse_md` does not count.
   */
  lemma GenerateStats(dirs: seq<string>, output: map<string, string>, posts: seq<Entry>, statics: seq<Entry>)
    ensures var r := CopyDir(GenPostsEffect(Effects(StatsInit, dirs, output), posts), Static, statics).stats;
      r.filesRead == r.filesWritten &&
      r.bytesWritten == r.bytesRead + 3 * PostCount(posts)
  {
    var fx := Effects(StatsInit, dirs, output);
    PostsStats(fx, posts);
    CopyDirKeeps(GenPostsEffect(fx, posts), Static, statics);
  }

  /** The static tree lands in `./build/./static/`, not in `./build/` itself. */
  lemma StaticCopiesUnderBuildStatic(fx: Effects, statics: seq<Entry>)
    ensures forall path :: path in CopyDir(fx, Static, statics).output ==>
      path in fx.output || "./build/./static/" <= path
  {
    CopyDirKeeps(fx, Static, statics);
  }
}
