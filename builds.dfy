/**
 * One build's metadata as decoded from the server, the artifacts it lists,
 * and the follow-up calls a build makes through the client it is bound to.
 */
module Builds {
  import opened Wrappers
  import opened Text
  import opened Paths
  import opened Host
  import opened Errors

  /** One file a build produced, by its path relative to the build's artifact root. */
  datatype Artifact = Artifact(relativePath: string) {

    /** `Display`: the final component of the path, or the empty string when it has none. */
    function Name(): (n: string)
      ensures n == "" <==> FileName(relativePath).None?
      ensures n != "" ==> IsNormalSegment(n) && FileName(relativePath) == Some(n)
    {
      FileName(relativePath).GetOr("")
    }
  }

  /** `"dir/sub/out.log"` is displayed as `out.log`. */
  lemma NameOfNestedArtifact(dir: string, n: string)
    requires IsNormalSegment(n)
    ensures Artifact(dir + "/" + n).Name() == n
    ensures Artifact(n).Name() == n
  {
    FileNameOfLastSegment(dir, n);
  }

  /** The fields serde decodes from a build's JSON. */
  datatype BuildRecord = BuildRecord(
    number: U64,
    building: bool,
    result: string,
    artifacts: seq<Artifact>,
    timestamp: U64,
    url: string)

  /**
   * `artifacts.iter().find(|art| art.to_string() == filter)`: the position of
   * the first artifact whose displayed name is exactly `filter`.
   */
  function FindArtifact(arts: seq<Artifact>, filter: string): (r: Option<nat>)
    ensures r.Some? ==> r.value < |arts| && arts[r.value].Name() == filter
    ensures r.Some? ==> forall j :: 0 <= j < r.value ==> arts[j].Name() != filter
    ensures r.None? <==> forall j :: 0 <= j < |arts| ==> arts[j].Name() != filter
  {
    if arts == [] then None
    else if arts[0].Name() == filter then Some(0)
    else
      match FindArtifact(arts[1..], filter)
      case Some(i) => Some(i + 1)
      case None => None
  }

  /** The URL an artifact is fetched from. */
  function ArtifactUrl(buildUrl: string, art: Artifact): string {
    buildUrl + "/artifact/" + art.relativePath
  }

  /** The events `EnsureDirStep` adds for `dir` when the world is in `st`. */
  function DirEvents(st: State, dir: string): seq<Event> {
    if dir in st.dirs then [] else [CreatedDir(dir)]
  }

  /** What `Build::download_artifact` does, step by step, as a function of the world before it. */
  function DownloadArtifactSpec(b: BuildRecord, client: Option<Client>, filter: string, destDir: string,
                                altName: Option<string>, env: Env, st: State): (Result<()>, State)
  {
    if client.None? then (Ok(()), st)
    else
      var (dirOk, st1) := EnsureDirStep(env, st, destDir);
      if !dirOk then (Err(Io(destDir)), st1)
      else
        var filePath := Join(destDir, altName.GetOr(filter));
        match FindArtifact(b.artifacts, filter)
        case None => (Err(ArtifactMissing(New(b.number, filter))), st1)
        case Some(i) =>
          var url := ArtifactUrl(b.url, b.artifacts[i]);
          var (reply, st2) := SendStep(env, st1, client.value.GetRequest(url));
          match reply.Body()
          case None => (Err(Http(url)), st2)
          case Some(content) =>
            var (written, st3) := WriteStep(env, st2, filePath, content);
            if written then (Ok(()), st3) else (Err(Io(filePath)), st3)
  }

  /** Without a client a download succeeds and touches nothing. */
  lemma DownloadWithoutClient(b: BuildRecord, filter: string, destDir: string, altName: Option<string>, env: Env, st: State)
    ensures DownloadArtifactSpec(b, None, filter, destDir, altName, env, st) == (Ok(()), st)
  {
  }

  /**
   * No artifact has the requested name: the destination directory is still
   * made first, then the call fails with `ArtifactNotFound(number, filter)`
   * (or with the directory error), and no request is sent and no file written.
   */
  lemma DownloadMissing(b: BuildRecord, c: Client, filter: string, destDir: string, altName: Option<string>, env: Env, st: State)
    requires FindArtifact(b.artifacts, filter).None?
    ensures var (r, st') := DownloadArtifactSpec(b, Some(c), filter, destDir, altName, env, st);
      && st'.events == st.events + DirEvents(st, destDir)
      && st'.files == st.files
      && (r == Err(ArtifactMissing(ArtifactNotFound(b.number, filter))) || r == Err(Io(destDir)))
      && (r == Err(Io(destDir)) <==> destDir !in st.dirs && !env.mkdirOk(destDir))
  {
  }

  /**
   * The first artifact named `filter` is fetched from the build's artifact
   * URL and written to `destDir` joined with `altName`, or with `filter`
   * when there is none; the download succeeds iff the request and the write do.
   */
  lemma DownloadFound(b: BuildRecord, c: Client, filter: string, destDir: string, altName: Option<string>, env: Env, st: State)
    requires FindArtifact(b.artifacts, filter).Some?
    requires destDir in st.dirs || env.mkdirOk(destDir)
    ensures var i := FindArtifact(b.artifacts, filter).value;
      var request := c.GetRequest(b.url + "/artifact/" + b.artifacts[i].relativePath);
      var target := Join(destDir, altName.GetOr(filter));
      var (r, st') := DownloadArtifactSpec(b, Some(c), filter, destDir, altName, env, st);
      var body := env.server(request).Body();
      && b.artifacts[i].Name() == filter
      && (body.None? ==>
            r.Err? && st'.events == st.events + DirEvents(st, destDir) + [Sent(request)])
      && (body.Some? ==>
            st'.events == st.events + DirEvents(st, destDir) + [Sent(request), Wrote(target, body.value)]
            && (r.Ok? <==> env.writeOk(target))
            && (r.Ok? ==> st'.files == st.files[target := body.value]))
  {
    var i := FindArtifact(b.artifacts, filter).value;
    var request := c.GetRequest(b.url + "/artifact/" + b.artifacts[i].relativePath);
    var target := Join(destDir, altName.GetOr(filter));
    var (ok, st1) := EnsureDirStep(env, st, destDir);
    assert ok && st1.events == st.events + DirEvents(st, destDir) && st1.files == st.files;
    var st2 := SendStep(env, st1, request).1;
    assert st2.events == st1.events + [Sent(request)] && st2.files == st.files;
    if env.server(request).Body().Some? {
      var content := env.server(request).Body().value;
      var st3 := WriteStep(env, st2, target, content).1;
      assert st3.events == st2.events + [Wrote(target, content)];
      assert st.events + DirEvents(st, destDir) + [Sent(request)] + [Wrote(target, content)]
          == st.events + DirEvents(st, destDir) + [Sent(request), Wrote(target, content)];
    }
  }

  /** What `Build::cancel` does: a POST to the build's `stop` URL when a client is bound. */
  function CancelSpec(buildUrl: string, client: Option<Client>, env: Env, st: State): (Result<()>, State) {
    if client.None? then (Ok(()), st)
    else
      var url := buildUrl + "/stop";
      var (reply, st1) := SendStep(env, st, client.value.PostRequest(url, None));
      (if reply.Failed? then Err(Http(url)) else Ok(()), st1)
  }

  /**
   * Cancelling without a client changes nothing and succeeds. With one, it
   * sends exactly one POST, to the build's URL followed by `/stop`, without
   * parameters and with the client's crumb, touches no file or directory,
   * and fails only when that request cannot be sent.
   */
  lemma CancelShape(buildUrl: string, client: Option<Client>, env: Env, st: State)
    ensures var (r, st') := CancelSpec(buildUrl, client, env, st);
      && (client.None? ==> r == Ok(()) && st' == st)
      && (client.Some? ==>
            var request := st'.events[|st.events|].request;
            && st'.events == st.events + [Sent(request)]
            && request.verb == Post && request.url == buildUrl + "/stop"
            && request.json == None && request.crumb == client.value.crumb
            && st'.dirs == st.dirs && st'.files == st.files
            && (r.Err? <==> env.server(request).Failed?))
  {
    if client.Some? {
      var st' := CancelSpec(buildUrl, client, env, st).1;
      assert st'.events == st.events + [Sent(client.value.PostRequest(buildUrl + "/stop", None))];
    }
  }

  // ----- The textual rendering -----

  /** One `"\n    " + name` per artifact, in order. */
  function ArtifactLines(arts: seq<Artifact>): string {
    if arts == [] then "" else ArtifactLines(arts[..|arts| - 1]) + "\n    " + arts[|arts| - 1].Name()
  }

  /** The first line of the rendering. */
  function Header(b: BuildRecord): string {
    "Build #" + NatToString(b.number) + ":"
  }

  /** The lines between the header and the artifacts. */
  function Fields(b: BuildRecord): string {
    "\n  building : " + BoolToString(b.building)
      + "\n  result : " + b.result
      + "\n  launched at : " + NatToString(b.timestamp) + " /* TODO : readable date */"
      + "\n  build url : " + b.url
  }

  /**
   * The text `Display` writes for a build: it starts with the build number
   * and ends with the artifact lines.
   */
  function Rendering(b: BuildRecord): (s: string)
    ensures StartsWith(s, "Build #" + NatToString(b.number) + ":")
    ensures var tail := "\n  artifacts : " + ArtifactLines(b.artifacts);
      |tail| <= |s| && s[|s| - |tail|..] == tail
  {
    var head, fields := Header(b), Fields(b);
    var tail := "\n  artifacts : " + ArtifactLines(b.artifacts);
    ConcatParts(head, fields + tail);
    ConcatParts(head + fields, tail);
    assert head + fields + tail == head + (fields + tail);
    head + fields + tail
  }

  /** Appending one artifact adds its line at the end. */
  lemma ArtifactLinesSnoc(s: seq<Artifact>, x: Artifact)
    ensures ArtifactLines(s + [x]) == ArtifactLines(s) + "\n    " + x.Name()
  {
    assert (s + [x])[..|s + [x]| - 1] == s;
  }

  /** The artifact lines of two lists one after the other are the lines of each. */
  lemma {:induction false} ArtifactLinesAppend(a: seq<Artifact>, c: seq<Artifact>)
    ensures ArtifactLines(a + c) == ArtifactLines(a) + ArtifactLines(c)
    decreases |c|
  {
    if c == [] {
      assert a + c == a;
    } else {
      var c', x := c[..|c| - 1], c[|c| - 1];
      assert c == c' + [x];
      assert a + c == (a + c') + [x];
      ArtifactLinesAppend(a, c');
      ArtifactLinesSnoc(a + c', x);
      ArtifactLinesSnoc(c', x);
    }
  }

  /** The artifact lines read front to back: the first artifact's name comes first. */
  lemma ArtifactLinesFront(arts: seq<Artifact>)
    requires arts != []
    ensures ArtifactLines(arts) == "\n    " + arts[0].Name() + ArtifactLines(arts[1..])
  {
    assert arts == [arts[0]] + arts[1..];
    ArtifactLinesAppend([arts[0]], arts[1..]);
    assert [arts[0]][..0] == [];
    assert ArtifactLines([arts[0]]) == "" + "\n    " + arts[0].Name();
  }

  /** `Build`: decoded metadata plus the client it is bound to after decoding. */
  class Build {
    var number: U64
    var building: bool
    var result: string
    var artifacts: seq<Artifact>
    var timestamp: U64
    var url: string
    var client: Option<Client>

    /** The decoded fields. */
    function Record(): BuildRecord
      reads this
    {
      BuildRecord(number, building, result, artifacts, timestamp, url)
    }

    /** Decoding: the fields from the JSON, no client (`#[serde(skip)]`). */
    constructor Decoded(r: BuildRecord)
      ensures Record() == r && client == None
    {
      number, building, result, artifacts, timestamp, url := r.number, r.building, r.result, r.artifacts, r.timestamp, r.url;
      client := None;
    }

    /** `set_client`: binds the client and leaves every decoded field as it was. */
    method SetClient(c: Client)
      modifies this
      ensures client == Some(c)
      ensures Record() == old(Record())
    {
      client := Some(c);
    }

    /** `download_artifact`: fetch the artifact named `filter` into `destDir`. */
    method DownloadArtifact(filter: string, destDir: string, altName: Option<string>, world: World) returns (res: Result<()>)
      modifies world
      ensures (res, world.st) == DownloadArtifactSpec(Record(), client, filter, destDir, altName, world.env, old(world.st))
    {
      if client.None? {
        return Ok(());
      }
      var c := client.value;
      var dirOk := world.EnsureDir(destDir);
      if !dirOk {
        return Err(Io(destDir));
      }
      var filePath := Join(destDir, if altName.Some? then altName.value else filter);
      var art := FindArtifact(artifacts, filter);
      if art.None? {
        return Err(ArtifactMissing(New(number, filter)));
      }
      var artUrl := ArtifactUrl(url, artifacts[art.value]);
      var reply := world.Send(c.GetRequest(artUrl));
      if reply.Body().None? {
        return Err(Http(artUrl));
      }
      var written := world.Write(filePath, reply.Body().value);
      res := if written then Ok(()) else Err(Io(filePath));
    }

    /** `cancel`: ask the server to stop this build, when a client is bound. */
    method Cancel(world: World) returns (res: Result<()>)
      modifies world
      ensures (res, world.st) == CancelSpec(url, client, world.env, old(world.st))
    {
      res := Ok(());
      if client.Some? {
        var stopUrl := url + "/stop";
        var reply := world.Send(client.value.PostRequest(stopUrl, None));
        if reply.Failed? {
          res := Err(Http(stopUrl));
        }
      }
    }

    /** `Display`: the artifact lines are accumulated first, then the fields are written. */
    method Display() returns (s: string)
      ensures s == Rendering(Record())
    {
      var tab := "";
      for i := 0 to |artifacts|
        invariant tab == ArtifactLines(artifacts[..i])
      {
        assert artifacts[..i + 1][..i] == artifacts[..i];
        tab := tab + "\n    " + artifacts[i].Name();
      }
      assert artifacts[..|artifacts|] == artifacts;
      s := Header(Record()) + Fields(Record()) + "\n  artifacts : " + tab;
    }
  }
}
