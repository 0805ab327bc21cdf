/**
 * Rust's `Path::file_name` and `Path::join` on a Unix host, on paths that
 * are valid UTF-8.
 */
module Paths {
  import opened Wrappers

  /** A component `Path::file_name` can return: not empty, not `.` or `..`, no separator. */
  predicate IsNormalSegment(n: string) {
    n != "" && n != "." && n != ".." && '/' !in n
  }

  /** The index just after the last `/` of `p`, or 0 when `p` has none. */
  function SegmentStart(p: string): (k: nat)
    ensures k <= |p|
    ensures '/' !in p[k..]
    ensures k > 0 ==> p[k - 1] == '/'
    ensures k == 0 ==> '/' !in p
  {
    if p == [] then 0
    else if p[|p| - 1] == '/' then |p|
    else
      var k := SegmentStart(p[..|p| - 1]);
      assert p[k..] == p[..|p| - 1][k..] + [p[|p| - 1]];
      k
  }

  /**
   * `Path::new(p).file_name()`, read from the back as `Components::next_back`
   * does: trailing separators and `.` components are skipped, the last
   * remaining component is the name when it is a normal one, and there is
   * none for an empty or root path or one whose last component is `..`.
   */
  function FileName(p: string): (r: Option<string>)
    ensures r.Some? ==> IsNormalSegment(r.value)
    decreases |p|
  {
    if p == [] then None
    else if p[|p| - 1] == '/' then FileName(p[..|p| - 1])
    else
      var k := SegmentStart(p);
      var seg := p[k..];
      if seg == "." then (if k == 0 then None else FileName(p[..k - 1]))
      else if seg == ".." then None
      else Some(seg)
  }

  // ----- An independent reference: split into components, then filter -----

  /** The pieces of `s` between separators, empty ones included. */
  function Split(s: string): (r: seq<string>)
    ensures |r| > 0
  {
    if s == [] then [[]]
    else
      var rest := Split(s[1..]);
      if s[0] == '/' then [[]] + rest else [[s[0]] + rest[0]] + rest[1..]
  }

  /** The pieces that `Path::components` keeps once empty and `.` pieces are dropped. */
  function Kept(pieces: seq<string>): seq<string> {
    if pieces == [] then []
    else
      var rest := Kept(pieces[1..]);
      if pieces[0] == "" || pieces[0] == "." then rest else [pieces[0]] + rest
  }

  /** `file_name` stated on the component list: the last one, unless none or `..`. */
  function FileNameOfComponents(p: string): Option<string> {
    var c := Kept(Split(p));
    if c == [] || c[|c| - 1] == ".." then None else Some(c[|c| - 1])
  }

  lemma {:induction false} SplitNoSeparator(b: string)
    requires '/' !in b
    ensures Split(b) == [b]
  {
    if b != [] {
      SplitNoSeparator(b[1..]);
      assert [b[0]] + b[1..] == b;
    }
  }

  lemma {:induction false} SplitAtSeparator(a: string, b: string)
    requires '/' !in b
    ensures Split(a + "/" + b) == Split(a) + [b]
    decreases |a|
  {
    if a == [] {
      assert a + "/" + b == "/" + b;
      SplitNoSeparator(b);
    } else {
      assert (a + "/" + b)[1..] == a[1..] + "/" + b;
      SplitAtSeparator(a[1..], b);
    }
  }

  lemma {:induction false} KeptAppend(x: seq<string>, y: seq<string>)
    ensures Kept(x + y) == Kept(x) + Kept(y)
  {
    if x != [] {
      assert (x + y)[1..] == x[1..] + y;
      KeptAppend(x[1..], y);
    } else {
      assert x + y == y;
    }
  }

  /** A trailing separator adds only an empty piece, which is dropped. */
  lemma ComponentsOfTrailing(q: string)
    ensures FileNameOfComponents(q + "/") == FileNameOfComponents(q)
  {
    assert q + "/" == q + "/" + "";
    SplitAtSeparator(q, "");
    KeptAppend(Split(q), [""]);
  }

  /** The last piece of `a/seg` is `seg`, kept unless it is `.` or empty. */
  lemma ComponentsOfLast(a: string, seg: string)
    requires '/' !in seg
    ensures Kept(Split(a + "/" + seg)) == Kept(Split(a)) + Kept([seg])
  {
    SplitAtSeparator(a, seg);
    KeptAppend(Split(a), [seg]);
  }

  /** The backwards reading agrees with the component list on every path. */
  lemma {:induction false} FileNameMatchesComponents(p: string)
    ensures FileName(p) == FileNameOfComponents(p)
    decreases |p|
  {
    if p == [] {
    } else if p[|p| - 1] == '/' {
      var q := p[..|p| - 1];
      assert p == q + "/";
      ComponentsOfTrailing(q);
      FileNameMatchesComponents(q);
    } else {
      var k := SegmentStart(p);
      var seg := p[k..];
      if k == 0 {
        assert p == seg;
        SplitNoSeparator(p);
      } else {
        var a := p[..k - 1];
        assert p == a + "/" + seg;
        ComponentsOfLast(a, seg);
        if seg == "." {
          FileNameMatchesComponents(a);
        }
      }
    }
  }

  lemma {:induction false} SegmentStartAfterSeparator(a: string, b: string)
    requires '/' !in b
    ensures SegmentStart(a + "/" + b) == |a| + 1
    decreases |b|
  {
    var p := a + "/" + b;
    if b != [] {
      assert p[..|p| - 1] == a + "/" + b[..|b| - 1];
      SegmentStartAfterSeparator(a, b[..|b| - 1]);
    }
  }

  /** `"dir/sub/out.log"` style: a normal last component is the name, whatever precedes it. */
  lemma FileNameOfLastSegment(dir: string, n: string)
    requires IsNormalSegment(n)
    ensures FileName(n) == Some(n)
    ensures FileName(dir + "/" + n) == Some(n)
  {
    var p := dir + "/" + n;
    assert SegmentStart(n) == 0;
    SegmentStartAfterSeparator(dir, n);
    assert p[|dir| + 1..] == n;
  }

  /** A trailing separator does not change the name: `"out/"` names `out`. */
  lemma FileNameTrailingSeparator(p: string)
    ensures FileName(p + "/") == FileName(p)
  {
    assert (p + "/")[..|p + "/"| - 1] == p;
  }

  /** Root-like and `..`-terminated paths have no name. */
  lemma FileNameNone(p: string)
    ensures FileName("") == None && FileName("/") == None && FileName(".") == None && FileName("./") == None
    ensures FileName(p + "/..") == None
  {
    assert "/"[..0] == "";
    var q := p + "/..";
    assert q[|q| - 1] == '.';
    var q1 := q[..|q| - 1];
    assert q1 == p + "/.";
    assert q1[..|q1| - 1] == p + "/";
    assert SegmentStart(p + "/") == |p| + 1;
    assert SegmentStart(q1) == |p| + 1;
    assert SegmentStart(q) == |p| + 1;
    assert q[|p| + 1..] == "..";
  }

  /**
   * `dir.join(name)` (PathBuf::push): an absolute `name` replaces `dir`;
   * otherwise a separator is inserted unless `dir` is empty or already
   * ends with one.
   */
  function Join(dir: string, name: string): (r: string)
    ensures StartsWithSeparator(name) ==> r == name
    ensures !StartsWithSeparator(name) ==> |r| >= |name| && r[|r| - |name|..] == name
    ensures !StartsWithSeparator(name) ==>
      r == (if dir == [] || dir[|dir| - 1] == '/' then dir + name else dir + "/" + name)
  {
    if StartsWithSeparator(name) then name
    else if dir == [] || dir[|dir| - 1] == '/' then dir + name
    else dir + "/" + name
  }

  predicate StartsWithSeparator(s: string) {
    |s| > 0 && s[0] == '/'
  }

  /** Joining a plain file name onto a directory names that file. */
  lemma {:induction false} JoinFileName(dir: string, n: string)
    requires IsNormalSegment(n)
    ensures FileName(Join(dir, n)) == Some(n)
  {
    FileNameOfLastSegment(dir, n);
    if dir != [] && dir[|dir| - 1] == '/' {
      var d := dir[..|dir| - 1];
      assert dir + n == d + "/" + n;
      FileNameOfLastSegment(d, n);
    }
  }
}
