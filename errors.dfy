/** `ArtifactNotFound` and the errors the client's operations can end with. */
module Errors {
  import opened Text
  import opened Wrappers

  /** The domain error raised when no artifact of a build has the requested name. */
  datatype ArtifactNotFound = ArtifactNotFound(buildId: U64, artName: string)

  /** `ArtifactNotFound::new`: the error for one build number and one artifact name. */
  function New(buildId: U64, artName: string): (e: ArtifactNotFound)
    ensures e.buildId == buildId && e.artName == artName
  {
    ArtifactNotFound(buildId, artName)
  }

  /** The derived `Default`. */
  function Default(): (e: ArtifactNotFound)
    ensures e.buildId == 0 && e.artName == ""
  {
    ArtifactNotFound(0, "")
  }

  const DisplayHead := "Artifact "
  const DisplayMid := " not found in build #"
  const DebugHead := "Self : ["

  /** `Display`: the name, then the build number in decimal. */
  function Display(e: ArtifactNotFound): (s: string)
    ensures StartsWith(s, DisplayHead + e.artName + DisplayMid)
    ensures s[|DisplayHead + e.artName + DisplayMid|..] == NatToString(e.buildId)
  {
    DisplayHead + e.artName + DisplayMid + NatToString(e.buildId)
  }

  /** `Debug`: `stringify!(Self)` is the literal word `Self`, then the number and the name. */
  function Debug(e: ArtifactNotFound): (s: string)
    ensures StartsWith(s, DebugHead + NatToString(e.buildId) + ":")
    ensures s[|DebugHead + NatToString(e.buildId) + ":"|..] == e.artName + "]"
  {
    DebugHead + NatToString(e.buildId) + ":" + e.artName + "]"
  }

  // ----- Reading the two renderings back -----

  /** How many decimal digits `s` ends with. */
  function TrailingDigits(s: string): (n: nat)
    ensures n <= |s| && IsDigits(s[|s| - n..])
    ensures n < |s| ==> !IsDigit(s[|s| - n - 1])
  {
    if s == [] || !IsDigit(s[|s| - 1]) then 0
    else
      var t := s[..|s| - 1];
      var n := TrailingDigits(t);
      var w, v := s[|s| - (n + 1)..], t[|t| - n..];
      assert IsDigits(w) by {
        forall j | 0 <= j < n + 1
          ensures IsDigit(w[j])
        {
          if j < n {
            assert w[j] == v[j];
          }
        }
      }
      n + 1
  }

  /** How many decimal digits `s` starts with. */
  function LeadingDigits(s: string): (n: nat)
    ensures n <= |s| && IsDigits(s[..n])
    ensures n < |s| ==> !IsDigit(s[n])
  {
    if s == [] || !IsDigit(s[0]) then 0 else 1 + LeadingDigits(s[1..])
  }

  lemma {:induction false} TrailingDigitsOf(a: string, d: string)
    requires IsDigits(d) && a != [] && !IsDigit(a[|a| - 1])
    ensures TrailingDigits(a + d) == |d|
    decreases |d|
  {
    var s := a + d;
    if d == [] {
      assert s == a;
    } else {
      assert s[..|s| - 1] == a + d[..|d| - 1];
      TrailingDigitsOf(a, d[..|d| - 1]);
    }
  }

  lemma {:induction false} LeadingDigitsOf(d: string, t: string)
    requires IsDigits(d) && t != [] && !IsDigit(t[0])
    ensures LeadingDigits(d + t) == |d|
    decreases |d|
  {
    if d == [] {
      assert d + t == t;
    } else {
      var s := d + t;
      assert s[0] == d[0] && IsDigit(d[0]);
      assert s[1..] == d[1..] + t;
      assert IsDigits(d[1..]) by {
        forall j | 0 <= j < |d| - 1
          ensures IsDigit(d[1..][j])
        {
          assert d[1..][j] == d[j + 1];
        }
      }
      LeadingDigitsOf(d[1..], t);
    }
  }

  /** The error a `Display` text shows, if it is one. */
  function ParseDisplay(s: string): Option<ArtifactNotFound> {
    var n := TrailingDigits(s);
    var head := s[..|s| - n];
    if n > 0 && |head| >= |DisplayHead| + |DisplayMid|
       && StartsWith(head, DisplayHead) && head[|head| - |DisplayMid|..] == DisplayMid
       && DigitsValue(s[|s| - n..]) < 0x1_0000_0000_0000_0000
    then Some(ArtifactNotFound(DigitsValue(s[|s| - n..]) as U64, head[|DisplayHead|..|head| - |DisplayMid|]))
    else None
  }

  /** The error a `Debug` text shows, if it is one. */
  function ParseDebug(s: string): Option<ArtifactNotFound> {
    if |s| >= |DebugHead| + 1 && StartsWith(s, DebugHead) && s[|s| - 1] == ']' then
      var body := s[|DebugHead|..|s| - 1];
      var n := LeadingDigits(body);
      if 0 < n < |body| && body[n] == ':' && DigitsValue(body[..n]) < 0x1_0000_0000_0000_0000
      then Some(ArtifactNotFound(DigitsValue(body[..n]) as U64, body[n + 1..]))
      else None
    else None
  }

  /** The `Display` text determines the error: number and name can be read back. */
  lemma DisplayRoundTrip(e: ArtifactNotFound)
    ensures ParseDisplay(Display(e)) == Some(e)
  {
    var name := e.artName;
    var head := DisplayHead + name + DisplayMid;
    var d := NatToString(e.buildId);
    var s := head + d;
    assert s == Display(e);
    assert |head| == |DisplayHead| + |name| + |DisplayMid|;
    assert head[|head| - 1] == '#';
    TrailingDigitsOf(head, d);
    assert s[..|s| - |d|] == head;
    assert s[|s| - |d|..] == d;
    NatToStringRoundTrip(e.buildId);
    assert head[..|DisplayHead|] == DisplayHead;
    assert head[|head| - |DisplayMid|..] == DisplayMid;
    assert head[|DisplayHead|..|head| - |DisplayMid|] == name;
  }

  /** The `Debug` text determines the error as well. */
  lemma DebugRoundTrip(e: ArtifactNotFound)
    ensures ParseDebug(Debug(e)) == Some(e)
  {
    var d := NatToString(e.buildId);
    var body := d + ":" + e.artName;
    var s := DebugHead + body + "]";
    assert s == Debug(e);
    assert s[..|DebugHead|] == DebugHead;
    assert s[|DebugHead|..|s| - 1] == body;
    LeadingDigitsOf(d, ":" + e.artName);
    assert body == d + (":" + e.artName);
    assert body[..|d|] == d;
    assert body[|d|] == ':';
    assert body[|d| + 1..] == e.artName;
    NatToStringRoundTrip(e.buildId);
  }

  /** The failures an operation of the client can end with. */
  datatype Error =
    | Http(url: string)                   // the request to `url`, or reading its reply, failed
    | Decode                              // a reply was not the JSON expected
    | Io(path: string)                    // creating, writing or reading `path` failed
    | NotFound                            // `io::ErrorKind::NotFound`, raised for an unnamed workspace path
    | ArtifactMissing(missing: ArtifactNotFound)
    | ClientInit                          // the HTTP client could not be built
    | Panicked(what: string)              // `unwrap()` of an absent command-line value

  datatype Result<T> = Ok(value: T) | Err(error: Error)
}
