/**
 * The `jenkins` subcommands of the command-line tool: how the parsed
 * command line is turned into calls on a job — which options win, which
 * defaults apply, how `key=value` tokens become parameters.
 */
module JenkinsCtl {
  import opened Wrappers
  import opened Text
  import opened Host
  import opened Errors
  import opened Builds
  import opened Jobs
  import opened Parameters

  /**
   * The parsed options of one subcommand (clap's `ArgMatches`): each option
   * given, with the values given for it (none for a bare flag).
   */
  datatype Matches = Matches(args: map<string, seq<string>>) {

    /** Whether the option was given, with or without values. */
    predicate IsPresent(key: string): (p: bool)
      ensures ValueOf(key).Some? ==> p
      ensures key in args && args[key] == [] ==> p && ValueOf(key).None?
    {
      key in args
    }

    /** `value_of`: the first value of the option, if it was given with one. */
    function ValueOf(key: string): (v: Option<string>)
      ensures v.Some? <==> key in args && |args[key]| > 0
      ensures v.Some? ==> v.value == args[key][0]
    {
      if key in args && |args[key]| > 0 then Some(args[key][0]) else None
    }

    /** `values_of`: all values of the option, if it was given. */
    function ValuesOf(key: string): (vs: Option<seq<string>>)
      ensures vs.Some? <==> IsPresent(key)
      ensures vs.Some? ==> vs.value == args[key]
    {
      if key in args then Some(args[key]) else None
    }
  }

  // ----- Tokens and defaults -----

  /** `str::split_once('=')`: the text before and after the first `=`. */
  function SplitOnce(token: string): (r: Option<(string, string)>)
    ensures r.None? <==> '=' !in token
    ensures r.Some? ==> token == r.value.0 + "=" + r.value.1 && '=' !in r.value.0
  {
    if token == [] then None
    else if token[0] == '=' then Some(("", token[1..]))
    else
      match SplitOnce(token[1..])
      case None => None
      case Some((k, v)) =>
        assert token == [token[0]] + token[1..];
        Some(([token[0]] + k, v))
  }

  /** A key without `=` and any value, joined by `=`, split back into the two. */
  lemma {:induction false} SplitOnceJoin(k: string, v: string)
    requires '=' !in k
    ensures SplitOnce(k + "=" + v) == Some((k, v))
  {
    if k == [] {
      assert k + "=" + v == "=" + v;
    } else {
      assert (k + "=" + v)[1..] == k[1..] + "=" + v;
      SplitOnceJoin(k[1..], v);
      assert [k[0]] + k[1..] == k;
    }
  }

  /** The pipeline in `trigger`: every token split at its first `=`, the tokens without one dropped. */
  function KeyValuePairs(tokens: seq<string>): (kv: seq<(string, string)>)
    ensures |kv| <= |tokens|
    ensures forall i :: 0 <= i < |kv| ==> '=' !in kv[i].0
    ensures forall i :: 0 <= i < |kv| ==> kv[i].0 + "=" + kv[i].1 in tokens
  {
    if tokens == [] then []
    else AsSeq(SplitOnce(tokens[0])) + KeyValuePairs(tokens[1..])
  }

  /** The pairs of two token lists are the two lists of pairs, in order: order is kept. */
  lemma {:induction false} KeyValuePairsAppend(a: seq<string>, b: seq<string>)
    ensures KeyValuePairs(a + b) == KeyValuePairs(a) + KeyValuePairs(b)
  {
    if a != [] {
      assert (a + b)[0] == a[0];
      assert (a + b)[1..] == a[1..] + b;
      KeyValuePairsAppend(a[1..], b);
    } else {
      assert a + b == b;
    }
  }

  /** When every token holds an `=`, each gives exactly its own pair, at its own position. */
  lemma {:induction false} KeyValuePairsAllSplit(tokens: seq<string>)
    requires forall i :: 0 <= i < |tokens| ==> '=' in tokens[i]
    ensures |KeyValuePairs(tokens)| == |tokens|
    ensures forall i :: 0 <= i < |tokens| ==> KeyValuePairs(tokens)[i] == SplitOnce(tokens[i]).value
  {
    if tokens != [] {
      KeyValuePairsAllSplit(tokens[1..]);
      var rest := KeyValuePairs(tokens[1..]);
      assert KeyValuePairs(tokens) == [SplitOnce(tokens[0]).value] + rest;
      forall i | 1 <= i < |tokens|
        ensures KeyValuePairs(tokens)[i] == SplitOnce(tokens[i]).value
      {
        assert tokens[1..][i - 1] == tokens[i];
      }
    }
  }

  /** Tokens without any `=` contribute nothing. */
  lemma {:induction false} KeyValuePairsNoneSplit(tokens: seq<string>)
    requires forall i :: 0 <= i < |tokens| ==> '=' !in tokens[i]
    ensures KeyValuePairs(tokens) == []
  {
    if tokens != [] {
      KeyValuePairsNoneSplit(tokens[1..]);
    }
  }

  /** `["a=1", "bad", "b=2"]` gives `[("a", "1"), ("b", "2")]`. */
  lemma KeyValuePairsExample()
    ensures KeyValuePairs(["a=1", "bad", "b=2"]) == [("a", "1"), ("b", "2")]
  {
    var t := ["a=1", "bad", "b=2"];
    SplitOnceJoin("a", "1");
    SplitOnceJoin("b", "2");
    assert "a" + "=" + "1" == "a=1";
    assert "b" + "=" + "2" == "b=2";
    assert t[1..] == ["bad", "b=2"] && t[1..][1..] == ["b=2"] && t[1..][1..][1..] == [];
    assert "bad"[1..][1..][1..] == [];
  }

  /** The number of seconds to wait: the `delay` value read as a `u64`, 0 when absent or unreadable. */
  function Delay(m: Matches): (d: U64)
    ensures m.ValueOf("delay").None? ==> d == 0
    ensures m.ValueOf("delay").Some? ==>
      d == (match ParseU64(m.ValueOf("delay").value) case Some(n) => n case None => 0)
  {
    assert ParseU64("0") == Some(0) by {
      assert NatToString(0) == "0";
      ParseU64OfNatToString(0);
    }
    ParseU64(m.ValueOf("delay").GetOr("0")).GetOr(0)
  }

  /** An absent or unreadable delay is 0; a decimal delay is its value. */
  lemma DelayDefaults(m: Matches, n: U64)
    ensures m.ValueOf("delay").None? ==> Delay(m) == 0
    ensures m.ValueOf("delay") == Some(NatToString(n)) ==> Delay(m) == n
    ensures m.ValueOf("delay").Some? && ParseU64(m.ValueOf("delay").value).None? ==> Delay(m) == 0
    ensures m.ValueOf("delay") == Some("") || m.ValueOf("delay") == Some("+") || m.ValueOf("delay") == Some("-1") ==> Delay(m) == 0
  {
    ParseU64OfNatToString(n);
    assert ParseU64("0") == Some(0) by {
      assert NatToString(0) == "0";
      ParseU64OfNatToString(0);
    }
    assert !IsDigits("-1") by {
      assert !IsDigit("-1"[0]);
    }
  }

  /** `as-file`: its value parsed as a bool, false when absent or not a bool. */
  function AsFile(m: Matches): (b: bool)
    ensures b <==> m.ValueOf("as-file") == Some("true")
  {
    match m.ValueOf("as-file")
    case Some(v) => ParseBool(v).GetOr(false)
    case None => false
  }

  /** The destination directory: the given one, or the current directory `.`. */
  function Destination(m: Matches): (d: string)
    ensures m.ValueOf("destination").None? ==> d == "."
    ensures m.ValueOf("destination").Some? ==> d == m.ValueOf("destination").value
  {
    m.ValueOf("destination").GetOr(".")
  }

  // ----- Which call a subcommand makes -----

  /** Where `download` takes the file from. */
  datatype DownloadSource = FromBuild | FromWorkspace | NoSource

  function ChooseDownload(m: Matches): (s: DownloadSource)
    ensures s == FromBuild <==> m.IsPresent("from-build")
    ensures s == FromWorkspace <==> !m.IsPresent("from-build") && m.IsPresent("from-ws")
  {
    if m.IsPresent("from-build") then FromBuild
    else if m.IsPresent("from-ws") then FromWorkspace
    else NoSource
  }

  /** What `trigger` sends. */
  datatype TriggerSource = FromTokens | FromJsonFile | Plain

  function ChooseTrigger(m: Matches): (s: TriggerSource)
    ensures s == FromTokens <==> m.IsPresent("params")
    ensures s == FromJsonFile <==> !m.IsPresent("params") && m.IsPresent("params-from-json")
    ensures s == Plain <==> !m.IsPresent("params") && !m.IsPresent("params-from-json")
  {
    if m.IsPresent("params") then FromTokens
    else if m.IsPresent("params-from-json") then FromJsonFile
    else Plain
  }

  /** `unwrap()` on a missing option value aborts the tool; the model reports it as `Panicked`. */
  function Missing(option: string): Error {
    Panicked(option)
  }

  /** `download`, as a function of the world before it. */
  function DownloadSpec(job: Job, m: Matches, env: Env, serde: Serde, st: State): (Result<()>, State) {
    var dest := Destination(m);
    var altName := m.ValueOf("alt-name");
    match ChooseDownload(m)
    case NoSource => (Ok(()), st)
    case FromWorkspace =>
      (match m.ValueOf("from-ws")
       case None => (Err(Missing("from-ws")), st)
       case Some(wsPath) => DownloadFromWorkspaceSpec(job, wsPath, dest, altName, AsFile(m), env, st))
    case FromBuild =>
      match m.ValueOf("from-build")
      case None => (Err(Missing("from-build")), st)
      case Some(id) =>
        var (b, st1) := GetBuildSpec(job.client, JapiUrl(job.url, id), env, serde, st);
        match b
        case Err(e) => (Err(e), st1)
        case Ok(rec) =>
          match m.ValueOf("filter")
          case None => (Err(Missing("filter")), st1)
          case Some(filter) => DownloadArtifactSpec(rec, Some(job.client), filter, dest, altName, env, st1)
  }

  /**
   * `from-build` wins over `from-ws`: with both given, the workspace is never
   * asked for, and the build's artifact named by `filter` is stored under
   * `alt-name` or the filter in `destination` (default `.`).
   */
  lemma DownloadPrefersBuild(job: Job, m: Matches, id: string, filter: string, env: Env, serde: Serde, st: State)
    requires m.ValueOf("from-build") == Some(id) && m.ValueOf("filter") == Some(filter)
    ensures var (b, st1) := GetBuildSpec(job.client, JapiUrl(job.url, id), env, serde, st);
      DownloadSpec(job, m, env, serde, st)
        == if b.Err? then (Err(b.error), st1)
           else DownloadArtifactSpec(b.value, Some(job.client), filter, Destination(m), m.ValueOf("alt-name"), env, st1)
  {
  }

  /** Without `from-build` and `from-ws`, `download` does nothing and succeeds. */
  lemma DownloadWithoutSource(job: Job, m: Matches, env: Env, serde: Serde, st: State)
    requires !m.IsPresent("from-build") && !m.IsPresent("from-ws")
    ensures DownloadSpec(job, m, env, serde, st) == (Ok(()), st)
  {
  }

  /** `trigger`, up to the wait, as a function of the world before it. */
  function TriggerSpec(job: Job, m: Matches, env: Env, decode: string -> Option<seq<Parameter>>, st: State): (Result<()>, State) {
    var buildUrl := job.url + "/build";
    match ChooseTrigger(m)
    case Plain => PostSpec(job.client, buildUrl, None, env, st)
    case FromTokens =>
      var kv := KeyValuePairs(m.ValuesOf("params").GetOr([]));
      PostSpec(job.client, buildUrl, Some(ListJson(NewParameters(kv, env.readFile))), env, st)
    case FromJsonFile =>
      match m.ValueOf("params-from-json")
      case None => (Err(Missing("params-from-json")), st)
      case Some(path) =>
        match env.readFile(path)
        case None => (Err(Io(path)), st)
        case Some(content) =>
          PostSpec(job.client, buildUrl, Some(ListJson(Expanded(decode(content).GetOr([]), env.readFile))), env, st)
  }

  /**
   * With `params` given, one POST to `url/build` is sent whatever else is
   * given, and its `json` query decodes to one parameter per `key=value`
   * token, in order.
   */
  lemma TriggerWithTokens(job: Job, m: Matches, env: Env, decode: string -> Option<seq<Parameter>>, st: State)
    requires m.IsPresent("params")
    ensures var (_, st1) := TriggerSpec(job, m, env, decode, st);
      var kv := KeyValuePairs(m.args["params"]);
      && |st1.events| == |st.events| + 1
      && st1.events[|st.events|].request.url == job.url + "/build"
      && st1.events[|st.events|].request.verb == Post
      && st1.events[|st.events|].request.json.Some?
      && ReadList(st1.events[|st.events|].request.json.value) == Some(NewParameters(kv, env.readFile))
  {
  }

  /** Without `params` and `params-from-json`, one POST to `url/build` without parameters. */
  lemma TriggerPlain(job: Job, m: Matches, env: Env, decode: string -> Option<seq<Parameter>>, st: State)
    requires !m.IsPresent("params") && !m.IsPresent("params-from-json")
    ensures var (_, st1) := TriggerSpec(job, m, env, decode, st);
      st1.events == st.events + [Sent(job.client.PostRequest(job.url + "/build", None))]
  {
  }

  /** An unreadable `params-from-json` file fails before anything is sent. */
  lemma TriggerUnreadableFile(job: Job, m: Matches, env: Env, decode: string -> Option<seq<Parameter>>, st: State, path: string)
    requires !m.IsPresent("params") && m.ValueOf("params-from-json") == Some(path) && env.readFile(path).None?
    ensures TriggerSpec(job, m, env, decode, st) == (Err(Io(path)), st)
  {
  }

  /** The `download` subcommand: an artifact of a build, or a workspace snapshot. */
  method Download(job: Job, m: Matches, world: World, serde: Serde) returns (r: Result<()>)
    modifies world
    ensures (r, world.st) == DownloadSpec(job, m, world.env, serde, old(world.st))
  {
    var dest := if m.ValueOf("destination").Some? then m.ValueOf("destination").value else ".";
    var altName := m.ValueOf("alt-name");
    if m.IsPresent("from-build") {
      var id := m.ValueOf("from-build");
      if id.None? {
        return Err(Missing("from-build"));
      }
      var build := job.GetBuild(id.value, world, serde);
      if build.Err? {
        return Err(build.error);
      }
      var filter := m.ValueOf("filter");
      if filter.None? {
        return Err(Missing("filter"));
      }
      r := build.value.DownloadArtifact(filter.value, dest, altName, world);
    } else if m.IsPresent("from-ws") {
      var asFile := false;
      var v := m.ValueOf("as-file");
      if v.Some? {
        asFile := ParseBool(v.value).GetOr(false);
      }
      var wsPath := m.ValueOf("from-ws");
      if wsPath.None? {
        return Err(Missing("from-ws"));
      }
      r := job.DownloadFromWorkspace(wsPath.value, dest, altName, asFile, world);
    } else {
      r := Ok(());
    }
  }

  /**
   * `trigger`: the parameters are collected and the build is triggered; with
   * `wait-for-completion`, the number of seconds the tool then sleeps.
   */
  method Trigger(job: Job, m: Matches, world: World, decode: string -> Option<seq<Parameter>>)
    returns (r: Result<()>, wait: Option<U64>)
    modifies world
    ensures (r, world.st) == TriggerSpec(job, m, world.env, decode, old(world.st))
    ensures wait.Some? <==> r.Ok? && m.IsPresent("wait-for-completion")
    ensures wait.Some? ==> wait.value == Delay(m)
  {
    wait := None;
    if m.IsPresent("params") {
      var vals := m.ValuesOf("params").value;
      var params := new ParameterList();
      var kv := KeyValuePairs(vals);
      params.AddList(kv, world.env.readFile);
      assert params.parameters == NewParameters(kv, world.env.readFile);
      assert params.ToJson() == ListJson(NewParameters(kv, world.env.readFile));
      r := job.TriggerBuildWithParams(params, world);
    } else if m.IsPresent("params-from-json") {
      var path := m.ValueOf("params-from-json");
      if path.None? {
        return Err(Missing("params-from-json")), None;
      }
      var content := world.env.readFile(path.value);
      if content.None? {
        return Err(Io(path.value)), None;
      }
      var params := new ParameterList.FromString(content.value, decode, world.env.readFile);
      assert params.ToJson() == ListJson(Expanded(decode(content.value).GetOr([]), world.env.readFile));
      r := job.TriggerBuildWithParams(params, world);
    } else {
      r := job.TriggerBuild(world);
    }
    if r.Err? {
      return;
    }
    if m.IsPresent("wait-for-completion") {
      var delay := ParseU64(if m.ValueOf("delay").Some? then m.ValueOf("delay").value else "0");
      wait := Some(if delay.Some? then delay.value else 0);
    }
  }

  /** `info`, as a function of the world before it: the rendering of the first `build-id`'s build. */
  function InfoSpec(job: Job, m: Matches, env: Env, serde: Serde, st: State): (Result<string>, State) {
    match m.ValuesOf("build-id")
    case None => (Err(Missing("build-id")), st)
    case Some(ids) =>
      if ids == [] then (Err(Missing("build-id")), st)
      else
        var (b, st1) := GetBuildSpec(job.client, JapiUrl(job.url, ids[0]), env, serde, st);
        match b
        case Err(e) => (Err(e), st1)
        case Ok(rec) => (Ok(Rendering(rec)), st1)
  }

  /** `info`: the text printed is the build's rendering, which names the build in its first line. */
  method Info(job: Job, m: Matches, world: World, serde: Serde) returns (r: Result<string>)
    modifies world
    ensures (r, world.st) == InfoSpec(job, m, world.env, serde, old(world.st))
  {
    var ids := m.ValuesOf("build-id");
    if ids.None? || ids.value == [] {
      return Err(Missing("build-id"));
    }
    var build := job.GetBuild(ids.value[0], world, serde);
    if build.Err? {
      return Err(build.error);
    }
    var text := build.value.Display();
    r := Ok(text);
  }
}
