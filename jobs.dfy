/**
 * The handle on one CI job: build selectors and the URLs built from them,
 * fetching one build or all of them, workspace snapshots, triggering and
 * cancelling builds.
 */
module Jobs {
  import opened Wrappers
  import opened Text
  import opened Paths
  import opened Host
  import opened Errors
  import opened Builds
  import Json
  import Parameters

  /** `BuildRequest`: a build number or one of the server's eight symbolic builds. */
  datatype BuildRequest =
    | Id(id: U64)
    | FirstBuild
    | LastBuild
    | LastSuccessfulBuild
    | LastUnsuccessfulBuild
    | LastCompletedBuild
    | LastFailedBuild
    | LastStableBuild
    | LastUnstableBuild
  {
    /** `Display`: the path segment naming the build in the server's URLs. */
    function ToString(): (s: string)
      ensures Id? ==> s == NatToString(id)
      ensures !Id? ==> s == AliasSegment(this) && !IsDigit(s[0])
    {
      if Id? then NatToString(id) else AliasSegment(this)
    }
  }

  /** The fixed camelCase segment of each symbolic build. */
  function AliasSegment(r: BuildRequest): (s: string)
    requires !r.Id?
    ensures |s| > 0
  {
    match r
    case FirstBuild => "firstBuild"
    case LastBuild => "lastBuild"
    case LastSuccessfulBuild => "lastSuccessfulBuild"
    case LastUnsuccessfulBuild => "lastUnsuccessfulBuild"
    case LastCompletedBuild => "lastCompletedBuild"
    case LastFailedBuild => "lastFailedBuild"
    case LastStableBuild => "lastStableBuild"
    case LastUnstableBuild => "lastUnstableBuild"
  }

  /** The selector a URL segment names, if any: the inverse of `ToString`. */
  function ParseBuildRequest(s: string): Option<BuildRequest> {
    if s == "firstBuild" then Some(FirstBuild)
    else if s == "lastBuild" then Some(LastBuild)
    else if s == "lastSuccessfulBuild" then Some(LastSuccessfulBuild)
    else if s == "lastUnsuccessfulBuild" then Some(LastUnsuccessfulBuild)
    else if s == "lastCompletedBuild" then Some(LastCompletedBuild)
    else if s == "lastFailedBuild" then Some(LastFailedBuild)
    else if s == "lastStableBuild" then Some(LastStableBuild)
    else if s == "lastUnstableBuild" then Some(LastUnstableBuild)
    else if s != [] && IsDigits(s) && DigitsValue(s) < 0x1_0000_0000_0000_0000 && NatToString(DigitsValue(s)) == s
    then Some(Id(DigitsValue(s) as U64))
    else None
  }

  /** Every selector can be read back from its segment. */
  lemma BuildRequestRoundTrip(r: BuildRequest)
    ensures ParseBuildRequest(r.ToString()) == Some(r)
  {
    if r.Id? {
      var s := NatToString(r.id);
      NatToStringRoundTrip(r.id);
      assert IsDigit(s[0]);
      assert s != "firstBuild" && s != "lastBuild" && s != "lastSuccessfulBuild" && s != "lastUnsuccessfulBuild";
      assert s != "lastCompletedBuild" && s != "lastFailedBuild" && s != "lastStableBuild" && s != "lastUnstableBuild";
    }
  }

  /** No two selectors share a segment: the eight literals are distinct and differ from every number. */
  lemma BuildRequestSegmentsDistinct(a: BuildRequest, b: BuildRequest)
    ensures a.ToString() == b.ToString() ==> a == b
  {
    BuildRequestRoundTrip(a);
    BuildRequestRoundTrip(b);
  }

  /** `japi_url!(url, suffix)`: the JSON API endpoint below `url/suffix`. */
  function JapiUrl(url: string, suffix: string): (u: string)
    ensures StartsWith(u, url + "/" + suffix)
    ensures u[|url + "/" + suffix|..] == "/api/json"
  {
    ConcatParts(url + "/" + suffix, "/api/json");
    url + "/" + suffix + "/api/json"
  }

  /** The decoders of serde_json the job relies on, as oracles; `None` on text they reject. */
  datatype Decoders = Decoders(value: string -> Option<Json.Value>, build: string -> Option<BuildRecord>)

  /**
   * Decoders as serde_json behaves: the empty text is not a JSON document, so
   * both reject it. An unreadable body is read as the empty text.
   */
  type Serde = d: Decoders | d.value("").None? && d.build("").None?
    witness Decoders((t: string) => None, (t: string) => None)

  /** `Job::new`, as a function of the world before it. */
  function NewJobSpec(url: string, jobName: string, user: string, token: string, withCrumb: bool,
                      env: Env, serde: Serde, st: State): (Result<Job>, State)
  {
    if !env.clientOk then (Err(ClientInit), st)
    else
      var client := NewClient(user, token);
      var jobUrl := url + "/job/" + jobName;
      if !withCrumb then (Ok(Job(client, jobUrl, jobName)), st)
      else
        var crumbUrl := url + "/crumbIssuer/api/json";
        var (reply, st1) := SendStep(env, st, client.GetRequest(crumbUrl));
        if reply.Failed? then (Err(Http(crumbUrl)), st1)
        else
          var json := serde.value(reply.body.GetOr("")).GetOr(Json.Null);
          (Ok(Job(client.(crumb := json.Get("crumb").AsStr()), jobUrl, jobName)), st1)
  }

  /**
   * A job's URL is the server URL, `/job/` and the job's name; the client
   * holds a crumb only when one was asked for and the reply carried a
   * string `crumb`, so an unreadable reply gives none; without a crumb
   * request nothing is sent.
   */
  lemma NewJobShape(url: string, jobName: string, user: string, token: string, withCrumb: bool,
                    env: Env, serde: Serde, st: State)
    ensures var (r, st') := NewJobSpec(url, jobName, user, token, withCrumb, env, serde, st);
      && (r.Ok? ==> r.value.url == url + "/job/" + jobName && r.value.name == jobName)
      && (r.Ok? ==> r.value.client.user == user && r.value.client.token == token)
      && (r.Ok? && r.value.client.crumb.Some? ==> withCrumb)
      && (!withCrumb ==> st' == st && (r.Ok? <==> env.clientOk))
      && (withCrumb && env.clientOk ==>
            var reply := env.server(NewClient(user, token).GetRequest(url + "/crumbIssuer/api/json"));
            && (r.Err? <==> reply.Failed?)
            && (reply.Replied? && reply.body.None? ==> r.value.client.crumb == None))
  {
  }

  /** What `get_build_from_url` does: one GET, then the reply decoded as a build. */
  function GetBuildSpec(client: Client, u: string, env: Env, serde: Serde, st: State): (Result<BuildRecord>, State) {
    var (reply, st1) := SendStep(env, st, client.GetRequest(u));
    match reply.Body()
    case None => (Err(Http(u)), st1)
    case Some(text) =>
      match serde.build(text)
      case None => (Err(Decode), st1)
      case Some(rec) => (Ok(rec), st1)
  }

  /** The elements of `builds` before its first `Null`: the ones `get_builds` visits. */
  function Entries(arr: Json.Value): (e: seq<Json.Value>)
    ensures |e| <= arr.Length()
  {
    if arr.Array? then EntriesFrom(arr, 0) else []
  }

  function EntriesFrom(arr: Json.Value, i: nat): (e: seq<Json.Value>)
    requires arr.Array? && i <= |arr.items|
    ensures i + |e| <= |arr.items|
    decreases |arr.items| - i
  {
    if i == |arr.items| || arr.items[i] == Json.Null then []
    else [arr.items[i]] + EntriesFrom(arr, i + 1)
  }

  lemma {:induction false} EntriesFromPrefix(arr: Json.Value, i: nat)
    requires arr.Array? && i <= |arr.items|
    ensures forall j :: 0 <= j < |EntriesFrom(arr, i)| ==>
      EntriesFrom(arr, i)[j] == arr.At(i + j) && EntriesFrom(arr, i)[j] != Json.Null
    ensures arr.At(i + |EntriesFrom(arr, i)|) == Json.Null
    decreases |arr.items| - i
  {
    if i < |arr.items| && arr.items[i] != Json.Null {
      EntriesFromPrefix(arr, i + 1);
      var e, r := EntriesFrom(arr, i), EntriesFrom(arr, i + 1);
      assert e == [arr.items[i]] + r;
      forall j | 1 <= j < |e|
        ensures e[j] == arr.At(i + j) && e[j] != Json.Null
      {
        assert e[j] == r[j - 1];
      }
    }
  }

  /**
   * The visited entries are exactly the elements of `builds` up to, and not
   * including, the first `Null` (indexing past the end, or a `builds` that is
   * not an array, gives `Null`).
   */
  lemma EntriesPrefix(arr: Json.Value)
    ensures forall j :: 0 <= j < |Entries(arr)| ==> Entries(arr)[j] == arr.At(j) && Entries(arr)[j] != Json.Null
    ensures arr.At(|Entries(arr)|) == Json.Null
  {
    if arr.Array? {
      EntriesFromPrefix(arr, 0);
    }
  }

  /** The API URL of one `builds` entry: its `url` member, or the empty text when it has none, with `//api/json` appended. */
  function EntryUrl(entry: Json.Value): string {
    JapiUrl(entry.Get("url").AsStr().GetOr(""), "")
  }

  function EntryUrls(entries: seq<Json.Value>): (urls: seq<string>)
    ensures |urls| == |entries|
    ensures forall i :: 0 <= i < |entries| ==> urls[i] == EntryUrl(entries[i])
  {
    seq(|entries|, i requires 0 <= i < |entries| => EntryUrl(entries[i]))
  }

  /** The build at `u` when fetching and decoding it succeed. */
  function FetchOne(client: Client, u: string, env: Env, serde: Serde): Option<BuildRecord> {
    match env.server(client.GetRequest(u)).Body()
    case None => None
    case Some(text) => serde.build(text)
  }

  /** The value of an option, as a sequence of at most one element. */
  function AsSeq<T>(o: Option<T>): (s: seq<T>)
    ensures |s| <= 1
    ensures o.None? ==> s == []
    ensures o.Some? ==> s == [o.value]
  {
    if o.Some? then [o.value] else []
  }

  /** The builds that fetch successfully, in the order of their URLs; failures are left out. */
  function Fetched(client: Client, urls: seq<string>, env: Env, serde: Serde): (bs: seq<BuildRecord>)
    ensures |bs| <= |urls|
  {
    if urls == [] then []
    else
      Fetched(client, urls[..|urls| - 1], env, serde) + AsSeq(FetchOne(client, urls[|urls| - 1], env, serde))
  }

  /** While `arr[i]` is not `Null`, `i` is inside the visited prefix and the URL fetched is the entry's. */
  lemma EntryStep(arr: Json.Value, i: nat)
    requires i <= |Entries(arr)| && arr.At(i) != Json.Null
    ensures i < |Entries(arr)|
    ensures EntryUrls(Entries(arr))[i] == JapiUrl(arr.At(i).Get("url").AsStr().GetOr(""), "")
  {
    EntriesPrefix(arr);
  }

  /** The walk stops exactly at the end of the visited prefix. */
  lemma EntriesEnd(arr: Json.Value, i: nat)
    requires i <= |Entries(arr)| && arr.At(i) == Json.Null
    ensures i == |Entries(arr)|
  {
    EntriesPrefix(arr);
  }

  /** One GET event per URL, in order. */
  function SentAll(client: Client, urls: seq<string>): (es: seq<Event>)
    ensures |es| == |urls|
  {
    if urls == [] then []
    else SentAll(client, urls[..|urls| - 1]) + [Sent(client.GetRequest(urls[|urls| - 1]))]
  }

  lemma SentAllStep(client: Client, urls: seq<string>, i: nat)
    requires i < |urls|
    ensures SentAll(client, urls[..i + 1]) == SentAll(client, urls[..i]) + [Sent(client.GetRequest(urls[i]))]
  {
    assert urls[..i + 1][..i] == urls[..i];
  }

  /** Fetching two lists of URLs one after the other gives the builds of each, in order. */
  lemma {:induction false} FetchedAppend(client: Client, a: seq<string>, b: seq<string>, env: Env, serde: Serde)
    ensures Fetched(client, a + b, env, serde) == Fetched(client, a, env, serde) + Fetched(client, b, env, serde)
    decreases |b|
  {
    if b == [] {
      assert a + b == a;
    } else {
      var b' := b[..|b| - 1];
      assert (a + b)[..|a + b| - 1] == a + b';
      assert (a + b)[|a + b| - 1] == b[|b| - 1];
      FetchedAppend(client, a, b', env, serde);
    }
  }

  /** When every fetch succeeds, every build is kept, in order. */
  lemma {:induction false} FetchedAllSucceed(client: Client, urls: seq<string>, env: Env, serde: Serde)
    requires forall i :: 0 <= i < |urls| ==> FetchOne(client, urls[i], env, serde).Some?
    ensures |Fetched(client, urls, env, serde)| == |urls|
    ensures forall i :: 0 <= i < |urls| ==> Fetched(client, urls, env, serde)[i] == FetchOne(client, urls[i], env, serde).value
  {
    if urls != [] {
      var u' := urls[..|urls| - 1];
      FetchedAllSucceed(client, u', env, serde);
    }
  }

  /** Fetching one more URL keeps the builds so far and adds that one's build when it succeeds. */
  lemma FetchedStep(client: Client, urls: seq<string>, i: nat, env: Env, serde: Serde)
    requires i < |urls|
    ensures Fetched(client, urls[..i + 1], env, serde)
         == Fetched(client, urls[..i], env, serde)
            + AsSeq(FetchOne(client, urls[i], env, serde))
  {
    assert urls[..i + 1][..i] == urls[..i];
  }

  /** Three builds of which the second cannot be fetched: the first and third are returned, in that order. */
  lemma FetchedSkipsFailure(client: Client, u1: string, u2: string, u3: string, env: Env, serde: Serde)
    requires FetchOne(client, u1, env, serde).Some? && FetchOne(client, u3, env, serde).Some?
    requires FetchOne(client, u2, env, serde).None?
    ensures Fetched(client, [u1, u2, u3], env, serde)
         == [FetchOne(client, u1, env, serde).value, FetchOne(client, u3, env, serde).value]
  {
    var b1 := FetchOne(client, u1, env, serde).value;
    assert [u1][..0] == [];
    assert Fetched(client, [u1], env, serde) == [b1];
    assert [u1, u2][..1] == [u1];
    assert Fetched(client, [u1, u2], env, serde) == [b1];
    assert [u1, u2, u3][..2] == [u1, u2];
  }

  /** The positions holding `true`, in increasing order. */
  function TrueIndices(ok: seq<bool>): (idx: seq<nat>)
    ensures forall k :: 0 <= k < |idx| ==> idx[k] < |ok| && ok[idx[k]]
    ensures forall k, l :: 0 <= k < l < |idx| ==> idx[k] < idx[l]
    ensures forall i :: 0 <= i < |ok| && ok[i] ==> i in idx
  {
    if ok == [] then []
    else
      var n := |ok| - 1;
      var front := TrueIndices(ok[..n]);
      assert forall i :: 0 <= i < n ==> ok[..n][i] == ok[i];
      if ok[n] then front + [n] else front
  }

  /** The positions of the URLs whose build can be fetched, in increasing order. */
  function Succeeded(client: Client, urls: seq<string>, env: Env, serde: Serde): (idx: seq<nat>)
    ensures forall k :: 0 <= k < |idx| ==> idx[k] < |urls| && FetchOne(client, urls[idx[k]], env, serde).Some?
    ensures forall k, l :: 0 <= k < l < |idx| ==> idx[k] < idx[l]
    ensures forall i :: 0 <= i < |urls| && FetchOne(client, urls[i], env, serde).Some? ==> i in idx
  {
    TrueIndices(seq(|urls|, i requires 0 <= i < |urls| => FetchOne(client, urls[i], env, serde).Some?))
  }

  /**
   * The builds kept are exactly those of the URLs that fetch successfully,
   * one per such URL and in the URLs' order: failures are skipped and
   * nothing is reordered.
   */
  lemma {:induction false} FetchedInOrder(client: Client, urls: seq<string>, env: Env, serde: Serde)
    ensures var idx := Succeeded(client, urls, env, serde);
      var bs := Fetched(client, urls, env, serde);
      && |bs| == |idx|
      && forall k :: 0 <= k < |idx| ==> bs[k] == FetchOne(client, urls[idx[k]], env, serde).value
  {
    if urls != [] {
      var n := |urls| - 1;
      FetchedInOrder(client, urls[..n], env, serde);
      SucceededStep(client, urls, env, serde);
      var front := Succeeded(client, urls[..n], env, serde);
      var kept := Fetched(client, urls[..n], env, serde);
      forall k | 0 <= k < |front|
        ensures kept[k] == FetchOne(client, urls[front[k]], env, serde).value
      {
        assert urls[..n][front[k]] == urls[front[k]];
      }
    }
  }

  /** Taking one more URL adds its position when its fetch succeeds. */
  lemma SucceededStep(client: Client, urls: seq<string>, env: Env, serde: Serde)
    requires urls != []
    ensures var n := |urls| - 1;
      Succeeded(client, urls, env, serde)
        == Succeeded(client, urls[..n], env, serde) + (if FetchOne(client, urls[n], env, serde).Some? then [n] else [])
  {
    var n := |urls| - 1;
    var ok := seq(|urls|, i requires 0 <= i < |urls| => FetchOne(client, urls[i], env, serde).Some?);
    var ok' := seq(n, i requires 0 <= i < n => FetchOne(client, urls[..n][i], env, serde).Some?);
    assert ok[..n] == ok';
  }

  /** The URLs `get_builds` fetches, given the reply to its first request. */
  function BuildsUrls(reply: Reply, serde: Serde): seq<string> {
    if reply.Failed? then []
    else
      var json := serde.value(reply.body.GetOr("")).GetOr(Json.Null);
      EntryUrls(Entries(json.Get("builds")))
  }

  /** `get_builds` never fails: a failed first request yields no builds, and there are never more builds than listed entries. */
  lemma GetBuildsBounds(job: Job, env: Env, serde: Serde)
    ensures var reply := env.server(job.client.GetRequest(JapiUrl(job.url, "")));
      && (reply.Failed? ==> Fetched(job.client, BuildsUrls(reply, serde), env, serde) == [])
      && (reply.Replied? && reply.body.None? ==> Fetched(job.client, BuildsUrls(reply, serde), env, serde) == [])
      && (reply.Replied? ==>
            |Fetched(job.client, BuildsUrls(reply, serde), env, serde)|
              <= |Entries(serde.value(reply.body.GetOr("")).GetOr(Json.Null).Get("builds"))|)
  {
  }

  /** The snapshot name `download_from_workspace` asks the server for. */
  function WorkspaceFile(jobName: string, wsPath: string, isFile: bool): (r: Result<string>)
    ensures wsPath == "" ==> r == Ok(jobName + ".zip")
    ensures r.Err? <==> wsPath != "" && FileName(wsPath).None?
    ensures r.Err? ==> r.error == NotFound
    ensures wsPath != "" && FileName(wsPath).Some? ==>
      r == Ok(if isFile then FileName(wsPath).value else FileName(wsPath).value + ".zip")
  {
    if wsPath == [] then Ok(jobName + ".zip")
    else
      var filename := FileName(wsPath).GetOr("");
      if filename == "" then Err(NotFound)
      else if isFile then Ok(filename)
      else Ok(filename + ".zip")
  }

  /**
   * A directory path with a trailing separator names its last component:
   * `"out/"` asks for `out.zip`, and it is root-like or `..`-ending paths that fail.
   */
  lemma WorkspaceFileTrailingSeparator(jobName: string, wsPath: string, isFile: bool)
    requires wsPath != ""
    ensures WorkspaceFile(jobName, wsPath + "/", isFile) == WorkspaceFile(jobName, wsPath, isFile)
    ensures WorkspaceFile(jobName, "/", isFile) == Err(NotFound)
    ensures WorkspaceFile(jobName, wsPath + "/..", isFile) == Err(NotFound)
  {
    FileNameTrailingSeparator(wsPath);
    FileNameNone(wsPath);
  }

  /** `download_from_workspace`, as a function of the world before it. */
  function DownloadFromWorkspaceSpec(job: Job, wsPath: string, destDir: string, filename: Option<string>,
                                     isFile: bool, env: Env, st: State): (Result<()>, State)
  {
    var (dirOk, st1) := EnsureDirStep(env, st, destDir);
    if !dirOk then (Err(Io(destDir)), st1)
    else
      match WorkspaceFile(job.name, wsPath, isFile)
      case Err(e) => (Err(e), st1)
      case Ok(wsFile) =>
        var url := job.url + "/ws/" + wsPath + "/*zip*/" + wsFile;
        var (reply, st2) := SendStep(env, st1, job.client.GetRequest(url));
        match reply.Body()
        case None => (Err(Http(url)), st2)
        case Some(content) =>
          var target := Join(destDir, filename.GetOr(wsFile));
          var (written, st3) := WriteStep(env, st2, target, content);
          if written then (Ok(()), st3) else (Err(Io(target)), st3)
  }

  /**
   * The snapshot is fetched from `url/ws/path/*zip*/name` and written under
   * `filename` when one is given, else under the snapshot's own name; without
   * a name the call fails after the directory step and sends nothing.
   */
  lemma DownloadFromWorkspaceShape(job: Job, wsPath: string, destDir: string, filename: Option<string>,
                                   isFile: bool, env: Env, st: State)
    requires destDir in st.dirs || env.mkdirOk(destDir)
    ensures var (r, st') := DownloadFromWorkspaceSpec(job, wsPath, destDir, filename, isFile, env, st);
      match WorkspaceFile(job.name, wsPath, isFile)
      case Err(_) =>
        r == Err(NotFound) && st'.events == st.events + DirEvents(st, destDir) && st'.files == st.files
      case Ok(wsFile) =>
        var url := job.url + "/ws/" + wsPath + "/*zip*/" + wsFile;
        var request := job.client.GetRequest(url);
        var target := Join(destDir, filename.GetOr(wsFile));
        var body := env.server(request).Body();
        && (body.None? ==>
              r == Err(Http(url)) && st'.events == st.events + DirEvents(st, destDir) + [Sent(request)]
              && st'.files == st.files)
        && (body.Some? ==>
              st'.events == st.events + DirEvents(st, destDir) + [Sent(request), Wrote(target, body.value)]
              && (r.Ok? <==> env.writeOk(target))
              && st'.files == (if env.writeOk(target) then st.files[target := body.value] else st.files))
  {
    var (ok, st1) := EnsureDirStep(env, st, destDir);
    assert st1.events == st.events + DirEvents(st, destDir);
    match WorkspaceFile(job.name, wsPath, isFile)
    case Err(_) =>
    case Ok(wsFile) =>
      var request := job.client.GetRequest(job.url + "/ws/" + wsPath + "/*zip*/" + wsFile);
      var st2 := SendStep(env, st1, request).1;
      assert st2.events == st.events + DirEvents(st, destDir) + [Sent(request)];
      var body := env.server(request).Body();
      if body.Some? {
        var st3 := WriteStep(env, st2, Join(destDir, filename.GetOr(wsFile)), body.value).1;
        assert st3.events[..|st2.events|] == st2.events;
      }
  }

  /** The builds hold the given records, in order, each bound to `client`. */
  ghost predicate HoldRecords(bs: seq<Build>, recs: seq<BuildRecord>, client: Client)
    reads bs
  {
    && |bs| == |recs|
    && forall k :: 0 <= k < |bs| ==> bs[k].Record() == recs[k] && bs[k].client == Some(client)
  }

  /** `post(url, body)?` followed by `Ok(())`: only a failed send is an error. */
  function PostSpec(client: Client, url: string, body: Option<string>, env: Env, st: State): (Result<()>, State) {
    var (reply, st1) := SendStep(env, st, client.PostRequest(url, body));
    (if reply.Failed? then Err(Http(url)) else Ok(()), st1)
  }

  /** `Job`: the client, the job's URL and its name; never changed after `new`. */
  datatype Job = Job(client: Client, url: string, name: string) {

    /** `Job::new`: the client, the optional crumb, and the job's URL. */
    static method New(url: string, jobName: string, user: string, token: string, withCrumb: bool,
                      world: World, serde: Serde) returns (r: Result<Job>)
      modifies world
      ensures (r, world.st) == NewJobSpec(url, jobName, user, token, withCrumb, world.env, serde, old(world.st))
    {
      if !world.env.clientOk {
        return Err(ClientInit);
      }
      var client := NewClient(user, token);
      if withCrumb {
        var crumbUrl := url + "/crumbIssuer/api/json";
        var reply := world.Send(client.GetRequest(crumbUrl));
        if reply.Failed? {
          return Err(Http(crumbUrl));
        }
        var json := serde.value(reply.body.GetOr("")).GetOr(Json.Null);
        client := client.(crumb := json.Get("crumb").AsStr());
      }
      r := Ok(Job(client, url + "/job/" + jobName, jobName));
    }

    /** `get_build_from_url`: the decoded build, bound to this job's client. */
    method GetBuildFromUrl(u: string, world: World, serde: Serde) returns (r: Result<Build>)
      modifies world
      ensures var (spec, st') := GetBuildSpec(client, u, world.env, serde, old(world.st));
        && world.st == st'
        && (r.Ok? <==> spec.Ok?)
        && (r.Ok? ==> fresh(r.value) && r.value.Record() == spec.value && r.value.client == Some(client))
        && (r.Err? ==> r.error == spec.error)
    {
      var reply := world.Send(client.GetRequest(u));
      if reply.Body().None? {
        return Err(Http(u));
      }
      var decoded := serde.build(reply.Body().value);
      if decoded.None? {
        return Err(Decode);
      }
      var build := new Build.Decoded(decoded.value);
      build.SetClient(client);
      r := Ok(build);
    }

    /** `get_build`: the build a selector segment names, from `url/segment/api/json`. */
    method GetBuild(request: string, world: World, serde: Serde) returns (r: Result<Build>)
      modifies world
      ensures var (spec, st') := GetBuildSpec(client, JapiUrl(url, request), world.env, serde, old(world.st));
        && world.st == st'
        && (r.Ok? <==> spec.Ok?)
        && (r.Ok? ==> fresh(r.value) && r.value.Record() == spec.value && r.value.client == Some(client))
        && (r.Err? ==> r.error == spec.error)
    {
      r := GetBuildFromUrl(JapiUrl(url, request), world, serde);
    }

    /**
     * `get_builds`: the job's own API document is fetched from `url//api/json`;
     * each entry of its `builds` array before the first `Null` is fetched in
     * turn, the builds that decode are kept in order, the others skipped.
     */
    method GetBuilds(world: World, serde: Serde) returns (ret: seq<Build>)
      modifies world
      ensures var request := client.GetRequest(JapiUrl(url, ""));
        var urls := BuildsUrls(world.env.server(request), serde);
        && world.st == old(world.st).(events := old(world.st.events) + [Sent(request)] + SentAll(client, urls))
        && HoldRecords(ret, Fetched(client, urls, world.env, serde), client)
    {
      ret := [];
      var request := client.GetRequest(JapiUrl(url, ""));
      var reply := world.Send(request);
      if reply.Failed? {
        return;
      }
      var json := serde.value(reply.body.GetOr("")).GetOr(Json.Null);
      ghost var before := world.st.events;
      ret := FetchEntries(json.Get("builds"), world, serde);
      ghost var sent := SentAll(client, EntryUrls(Entries(json.Get("builds"))));
      assert before + sent == old(world.st.events) + [Sent(request)] + sent;
    }

    /** The loop of `get_builds`: every entry of `arr` before the first `Null`, fetched in order. */
    method FetchEntries(arr: Json.Value, world: World, serde: Serde) returns (ret: seq<Build>)
      modifies world
      ensures var urls := EntryUrls(Entries(arr));
        && world.st == old(world.st).(events := old(world.st.events) + SentAll(client, urls))
        && HoldRecords(ret, Fetched(client, urls, world.env, serde), client)
    {
      ret := [];
      ghost var st0 := world.st;
      ghost var urls := EntryUrls(Entries(arr));
      var i := 0;
      while arr.At(i) != Json.Null
        invariant 0 <= i <= |urls|
        invariant world.st.events == st0.events + SentAll(client, urls[..i])
        invariant world.st.dirs == st0.dirs && world.st.files == st0.files
        invariant HoldRecords(ret, Fetched(client, urls[..i], world.env, serde), client)
        decreases arr.Length() - i
      {
        var u := JapiUrl(arr.At(i).Get("url").AsStr().GetOr(""), "");
        EntryStep(arr, i);
        SentAllStep(client, urls, i);
        FetchedStep(client, urls, i, world.env, serde);
        ghost var sent := SentAll(client, urls[..i]);
        ret := FetchInto(ret, Fetched(client, urls[..i], world.env, serde), u, world, serde);
        AppendOneAssoc(st0.events, sent, Sent(client.GetRequest(u)));
        i := i + 1;
      }
      EntriesEnd(arr, i);
      assert urls[..i] == urls;
    }

    /** One round of `get_builds`' loop: the build at `u` is appended when it can be fetched. */
    method FetchInto(bs: seq<Build>, ghost recs: seq<BuildRecord>, u: string, world: World, serde: Serde)
      returns (bs': seq<Build>)
      requires HoldRecords(bs, recs, client)
      modifies world
      ensures world.st == old(world.st).(events := old(world.st.events) + [Sent(client.GetRequest(u))])
      ensures HoldRecords(bs', recs + AsSeq(FetchOne(client, u, world.env, serde)), client)
      ensures |bs| <= |bs'| && bs'[..|bs|] == bs
    {
      var build := GetBuildFromUrl(u, world, serde);
      bs' := bs;
      if build.Ok? {
        bs' := bs + [build.value];
      }
    }

    /** `download_from_workspace`: a zip of a workspace directory, or one file, saved into `destDir`. */
    method DownloadFromWorkspace(wsPath: string, destDir: string, filename: Option<string>, isFile: bool, world: World)
      returns (r: Result<()>)
      modifies world
      ensures (r, world.st) == DownloadFromWorkspaceSpec(this, wsPath, destDir, filename, isFile, world.env, old(world.st))
    {
      var dirOk := world.EnsureDir(destDir);
      if !dirOk {
        return Err(Io(destDir));
      }
      var wsFile := WorkspaceFile(name, wsPath, isFile);
      if wsFile.Err? {
        return Err(wsFile.error);
      }
      var wsUrl := url + "/ws/" + wsPath + "/*zip*/" + wsFile.value;
      var reply := world.Send(client.GetRequest(wsUrl));
      if reply.Body().None? {
        return Err(Http(wsUrl));
      }
      var target := Join(destDir, if filename.Some? then filename.value else wsFile.value);
      var written := world.Write(target, reply.Body().value);
      r := if written then Ok(()) else Err(Io(target));
    }

    /** `trigger_build`: a POST to `url/build` with no parameters. */
    method TriggerBuild(world: World) returns (r: Result<()>)
      modifies world
      ensures (r, world.st) == PostSpec(client, url + "/build", None, world.env, old(world.st))
    {
      var reply := world.Send(client.PostRequest(url + "/build", None));
      r := if reply.Failed? then Err(Http(url + "/build")) else Ok(());
    }

    /** `trigger_build_with_params`: a POST to `url/build` whose `json` query is the serialized list. */
    method TriggerBuildWithParams(parameters: Parameters.ParameterList, world: World) returns (r: Result<()>)
      modifies world
      ensures (r, world.st) == PostSpec(client, url + "/build", Some(parameters.ToJson()), world.env, old(world.st))
    {
      var body := parameters.ToJson();
      var reply := world.Send(client.PostRequest(url + "/build", Some(body)));
      r := if reply.Failed? then Err(Http(url + "/build")) else Ok(());
    }

    /** `trigger_build_with_str_params`: the same POST with the text given as is. */
    method TriggerBuildWithStrParams(parameters: string, world: World) returns (r: Result<()>)
      modifies world
      ensures (r, world.st) == PostSpec(client, url + "/build", Some(parameters), world.env, old(world.st))
    {
      var reply := world.Send(client.PostRequest(url + "/build", Some(parameters)));
      r := if reply.Failed? then Err(Http(url + "/build")) else Ok(());
    }

    /** `cancel_build`: a POST to `url/id/stop` with no parameters. */
    method CancelBuild(id: string, world: World) returns (r: Result<()>)
      modifies world
      ensures (r, world.st) == PostSpec(client, url + "/" + id + "/stop", None, world.env, old(world.st))
    {
      var stopUrl := url + "/" + id + "/stop";
      var reply := world.Send(client.PostRequest(stopUrl, None));
      r := if reply.Failed? then Err(Http(stopUrl)) else Ok(());
    }
  }
}
