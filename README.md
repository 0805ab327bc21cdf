# A Dafny model of the rs-job-mgr Jenkins client

`rs-job-mgr` is a small command-line client for a Jenkins server. Its library
(`jenkins_ci`) is a `Job` handle bound to one job of one server. The handle
fetches build metadata by selector (a number, or one of eight symbolic builds
such as `lastSuccessfulBuild`) and lists all builds of the job. It also
triggers builds, with or without parameters, cancels builds, and downloads
either a build's artifact or a zip snapshot of the job's workspace. The
command-line tool (`ci-tool`) turns the `download`, `trigger` and `info`
subcommands into those calls.

This project models the logic of those operations in Dafny and proves what it
promises:

- the URL each call requests;
- how the snapshot and artifact file names are chosen;
- which artifact is picked;
- what `get_builds` keeps;
- how `@file` parameter values are expanded;
- the JSON text a parameter list is sent as;
- the text of the error and of a build's rendering;
- how command-line options are defaulted and which option wins.

The HTTP server, the local file system and the JSON decoder are oracles passed
in as parameters:

- `Host.Env` holds the server's reply to each request, whether a directory can
  be made or a file written, and the contents of readable files;
- `Jobs.Serde` holds the JSON value decoder and the `Build` decoder;
- a separate `decode` parameter of `Parameters.ParameterList.FromString` and
  `JenkinsCtl.Trigger` decodes a parameter array.

Every request, directory creation and file write is appended to an event log
in `Host.State`. A `Host.World` object holds that state and is what the
imperative operations modify. Each operation is a method proved equal to a
function of the state before it (`…Spec`), and the lemmas state the
properties of those functions.

Modules, leaf first:

- `Wrappers`: `Option`.
- `Text`: `u64`, decimal formatting, and `parse::<u64>` / `parse::<bool>`.
- `Paths`: `Path::file_name` and `Path::join` on Unix.
- `Json`: `serde_json::Value` indexing, and string escaping with its inverse.
- `Host`: the requests the client sends and the world.
- `Errors`: `ArtifactNotFound` and the error kinds.
- `Parameters`: `parameters.rs`.
- `Builds`: `build.rs`.
- `Jobs`: `job.rs`.
- `JenkinsCtl`: `ci-tool/src/jenkins_ctl.rs`.

Behaviours of the code worth noting:

- A workspace path with a trailing separator such as `out/` is not a
  not-found error. `Path::file_name` skips the trailing separator, so the
  snapshot asked for is `out.zip`. Only an empty path, a root-like path such as
  `/`, `.` or `./`, or a path ending in `..` has no name (`Jobs.WorkspaceFileTrailingSeparator`).
- The contents of an `@file` parameter are taken as they are. Contents that
  themselves start with `@` are not expanded again
  (`Parameters.ContentsNotExpandedAgain`).
- `ArtifactNotFound`'s `Debug` text starts with the literal word `Self`,
  because `stringify!(Self)` does not name the type.

## Model

| member | source | states |
|---|---|---|
| `Jobs.BuildRequest.ToString` | jenkins_ci/src/job.rs:34-52 | A numeric selector renders as the decimal text of its number. Each of the eight symbolic selectors renders as its own camelCase literal, which does not start with a digit. |
| `Jobs.BuildRequestRoundTrip` | jenkins_ci/src/job.rs:34-52 | Every selector is read back from its rendering, so the rendering loses nothing. |
| `Jobs.BuildRequestSegmentsDistinct` | jenkins_ci/src/job.rs:40-48 | No two selectors share a URL segment: the literals are pairwise distinct and differ from every number. |
| `Text.NatToString` | jenkins_ci/src/job.rs:40 | `format!("{}", n)` is non-empty, all digits, and has no leading zero except for 0 itself. |
| `Text.NatToStringRoundTrip` | jenkins_ci/src/job.rs:40 | Reading the decimal rendering back gives the number again. |
| `Text.NatToStringInjective` | jenkins_ci/src/job.rs:40 | Different build numbers give different texts. |
| `Jobs.JapiUrl` | jenkins_ci/src/job.rs:10-14 | `japi_url!(u, s)` is `u/s` followed by exactly `/api/json`. |
| `Jobs.NewJobShape` | jenkins_ci/src/job.rs:65-83 | On success the job URL is `server/job/name` and the name is the job name. The client holds the given credentials, and it holds a crumb only if a crumb was asked for. Without a crumb request nothing is sent, and the call fails only when no HTTP client can be built. With one, the call fails iff the crumb request's send fails, and an unreadable reply gives no crumb. |
| `Jobs.Job.New` | jenkins_ci/src/job.rs:65-83 | `Job::new` does exactly what `NewJobSpec` describes: build the client, optionally fetch the crumb from `server/crumbIssuer/api/json` (a failed send fails the call, an unreadable reply gives no crumb), and compose the URL. |
| `Host.Client.GetRequest` | jenkins_ci/src/jenkins_client.rs:38-44 | A GET carries the basic-auth credentials, never the crumb header and never a `json` query. |
| `Host.Client.PostRequest` | jenkins_ci/src/jenkins_client.rs:46-61 | A POST carries the credentials. It has the `Jenkins-Crumb` header iff the client holds a crumb, and the `json` query iff a body is given. |
| `Host.NewClient` | jenkins_ci/src/jenkins_client.rs:21-35 | A new client holds the credentials and no crumb. |
| `Host.World.Send` | jenkins_ci/src/jenkins_client.rs:38-61 | Sending a request returns the server's reply to it and appends the request to the event log. Directories and files are unchanged. |
| `Host.World.EnsureDir` | jenkins_ci/src/job.rs:120-122 | An existing directory is left alone and succeeds. A missing one is attempted once and recorded, and it exists afterwards iff the attempt succeeds. |
| `Host.World.Write` | jenkins_ci/src/job.rs:152 | The write is recorded. On success the file holds exactly the content, and on failure the files are unchanged. |
| `Jobs.Job.GetBuildFromUrl` | jenkins_ci/src/job.rs:188-196 | One GET to the URL. A failed send or unreadable body is an HTTP error and an undecodable reply is a decode error. Otherwise the result is a fresh build with the decoded fields, bound to the job's client. |
| `Jobs.Job.GetBuild` | jenkins_ci/src/job.rs:85-87 | The same fetch, from `url/selector/api/json`. |
| `Jobs.EntriesPrefix` | jenkins_ci/src/job.rs:95-98 | The entries `get_builds` visits are exactly the elements of `builds` before its first `Null`. Indexing past the end, or into a non-array, reads `Null` and stops the walk. |
| `Jobs.Job.GetBuilds` | jenkins_ci/src/job.rs:89-109 | `get_builds` never fails. It sends one GET to `url//api/json`, then one GET per visited entry, in order, and nothing else. The builds returned are those that fetch successfully, each bound to the client. |
| `Jobs.Job.FetchEntries` | jenkins_ci/src/job.rs:96-105 | The `while` loop: every visited entry's `url//api/json` is fetched in order, and the successful builds are kept in order. |
| `Jobs.Job.FetchInto` | jenkins_ci/src/job.rs:99-103 | One loop round: one GET, and the build is appended iff it is fetched and decoded. |
| `Jobs.FetchedInOrder` | jenkins_ci/src/job.rs:98-105 | The result has one build per successfully fetched URL, in the URLs' order, with nothing reordered. |
| `Jobs.Succeeded` | jenkins_ci/src/job.rs:99-103 | The positions of the successful fetches are strictly increasing, and every successful position is among them. |
| `Jobs.FetchedSkipsFailure` | jenkins_ci/src/job.rs:99-104 | Of three builds whose second fetch fails, the first and third are returned, in that order. |
| `Jobs.FetchedAllSucceed` | jenkins_ci/src/job.rs:99-104 | When every fetch succeeds, every build is returned at its own position. |
| `Jobs.FetchedAppend` | jenkins_ci/src/job.rs:96-105 | Fetching two runs of URLs one after the other gives the builds of each run, in order. |
| `Jobs.GetBuildsBounds` | jenkins_ci/src/job.rs:89-109 | If the first request fails or its body is unreadable, the result is empty. Otherwise it is never longer than the visited prefix of `builds`. |
| `Jobs.WorkspaceFile` | jenkins_ci/src/job.rs:124-140 | An empty path gives `name.zip`. A path without a file name is `NotFound`. Otherwise the file name is used as it is when `is_file` is set, and with `.zip` appended when it is not. |
| `Jobs.WorkspaceFileTrailingSeparator` | jenkins_ci/src/job.rs:127-134 | A trailing `/` does not change the snapshot name. `/` and paths ending in `..` are `NotFound`. |
| `Jobs.DownloadFromWorkspaceShape` | jenkins_ci/src/job.rs:118-152 | The directory step comes first. An unnamed path then fails with `NotFound` and sends nothing. Otherwise one GET goes to `url/ws/path/*zip*/name`. An unreadable body is an HTTP error with nothing written. A readable body is written to `dest/(filename or name)`: the log gets exactly those events, the call succeeds iff the write does, and only then the file holds the body. |
| `Jobs.Job.DownloadFromWorkspace` | jenkins_ci/src/job.rs:111-155 | `download_from_workspace` does exactly what `DownloadFromWorkspaceSpec` describes. |
| `Jobs.Job.TriggerBuild` | jenkins_ci/src/job.rs:157-160 | One POST to `url/build` with no `json` query. Only a failed send is an error. |
| `Jobs.Job.TriggerBuildWithParams` | jenkins_ci/src/job.rs:162-169 | One POST to `url/build` whose `json` query is the list's serialization. |
| `Jobs.Job.TriggerBuildWithStrParams` | jenkins_ci/src/job.rs:171-176 | One POST to `url/build` whose `json` query is the given text, unchanged. |
| `Jobs.Job.CancelBuild` | jenkins_ci/src/job.rs:178-182 | One POST to `url/id/stop` with no `json` query. |
| `Paths.FileName` | jenkins_ci/src/build.rs:56-66 | `Path::file_name`, read from the back: a name, when there is one, is a normal component (non-empty, not `.` or `..`, no separator). |
| `Paths.FileNameMatchesComponents` | jenkins_ci/src/build.rs:56-66 | `FileName` agrees on every path with an independent definition: split into components, drop empty and `.` pieces, and take the last piece unless there is none or it is `..`. |
| `Paths.FileNameOfLastSegment` | jenkins_ci/src/build.rs:56-66 | A normal last component is the name, whatever precedes it. |
| `Paths.FileNameTrailingSeparator` | jenkins_ci/src/job.rs:127-131 | A trailing separator does not change the name. |
| `Paths.FileNameNone` | jenkins_ci/src/job.rs:127-133 | The empty path, `/`, `.`, `./` and any path ending in `/..` have no name. |
| `Paths.Join` | jenkins_ci/src/build.rs:112-116 | An absolute `name` replaces `dir`. A relative `name` is placed under `dir`: appended directly when `dir` is empty or ends with `/`, and after one `/` otherwise. |
| `Paths.JoinFileName` | jenkins_ci/src/build.rs:112-116 | Joining a plain file name onto any directory names that file. |
| `Builds.Artifact.Name` | jenkins_ci/src/build.rs:56-66 | An artifact's display name is its path's file name, or empty exactly when the path has none. |
| `Builds.NameOfNestedArtifact` | jenkins_ci/src/build.rs:56-66 | `dir/…/n` and `n` are both displayed as `n`. |
| `Builds.FindArtifact` | jenkins_ci/src/build.rs:118 | The result is the first position whose display name equals the filter exactly, and every earlier one differs. It is none iff no artifact has that name. |
| `Builds.DownloadWithoutClient` | jenkins_ci/src/build.rs:101-104 | Without a client a download succeeds and leaves the world unchanged: no directory, no request, no write. |
| `Builds.DownloadMissing` | jenkins_ci/src/build.rs:108-123 | When no artifact has the name, the directory step still happens, nothing is sent or written, and the error is `ArtifactNotFound(number, filter)`. The only exception is a directory that cannot be made, which is reported first. |
| `Builds.DownloadFound` | jenkins_ci/src/build.rs:108-131 | The first artifact with the name is fetched from `build_url/artifact/relative_path` and written to `dest_dir` joined with `alt_name`, or with the filter when there is no `alt_name`. The call succeeds iff the fetch and the write succeed. |
| `Builds.Build.DownloadArtifact` | jenkins_ci/src/build.rs:95-131 | `download_artifact` does exactly what `DownloadArtifactSpec` describes. |
| `Builds.CancelShape` | jenkins_ci/src/build.rs:133-139 | Without a client nothing changes and the result is `Ok`. With one, exactly one POST goes to `build_url/stop` with no `json` query and with the client's crumb. No file or directory changes, and the call fails iff that send fails. |
| `Builds.Build.Cancel` | jenkins_ci/src/build.rs:133-139 | With a client, one POST to `build_url/stop`. Without one, nothing happens and the result is `Ok`. |
| `Builds.Build.SetClient` | jenkins_ci/src/build.rs:141-143 | The client becomes `Some(c)` and every decoded field is unchanged. |
| `Builds.Build.Decoded` | jenkins_ci/src/build.rs:70-81 | A decoded build has the decoded fields and no client. |
| `Builds.Build.Display` | jenkins_ci/src/build.rs:158-177 | The `for` loop that accumulates the artifact lines, then the fields, produces exactly the build's rendering. |
| `Builds.Rendering` | jenkins_ci/src/build.rs:158-177 | The rendering starts with `Build #number:` and ends with `\n  artifacts : ` followed by the artifact lines. |
| `Builds.ArtifactLinesFront` | jenkins_ci/src/build.rs:160-164 | The artifact lines are one `\n    name` per artifact, the first artifact first. |
| `Builds.ArtifactLinesAppend` | jenkins_ci/src/build.rs:160-164 | The lines of two artifact runs are the lines of each run, in order. |
| `Parameters.Parameter.EvalFileContent` | jenkins_ci/src/parameters.rs:27-31 | A value `@p` becomes the contents of `p`, or empty when `p` cannot be read. Exactly one `@` is stripped. Any other value and the name are kept. |
| `Parameters.NewParameter` | jenkins_ci/src/parameters.rs:16-25 | The name is the key. A value not starting with `@` is stored unchanged, and `@p` is expanded once. |
| `Parameters.ContentsNotExpandedAgain` | jenkins_ci/src/parameters.rs:27-31 | The stored value is the file's contents even when those contents start with `@`. |
| `Parameters.NewParameters` | jenkins_ci/src/parameters.rs:63-67 | One parameter per pair, at the pair's position. |
| `Parameters.Expanded` | jenkins_ci/src/parameters.rs:52-54 | One expanded parameter per decoded one, at its own position. |
| `Parameters.ParameterList.constructor` | jenkins_ci/src/parameters.rs:45-47 | A new list is empty. |
| `Parameters.ParameterList.FromString` | jenkins_ci/src/parameters.rs:49-57 | Undecodable text gives an empty list. Otherwise each decoded parameter, in order, has the file expansion applied in place. |
| `Parameters.ParameterList.Add` | jenkins_ci/src/parameters.rs:59-61 | Exactly one parameter is appended, and the earlier ones are unchanged. |
| `Parameters.ParameterList.AddList` | jenkins_ci/src/parameters.rs:63-67 | One parameter per pair is appended, in the pairs' order, and the earlier ones are unchanged. |
| `Parameters.ParameterList.ToJson` | jenkins_ci/src/parameters.rs:36-40 | The serialized text reads back as exactly the list's parameters, in order. |
| `Parameters.ListJson` | jenkins_ci/src/parameters.rs:36-40 | `{"parameter":[{"name":…,"value":…},…]}` decodes to the list it was written from, in order. |
| `Parameters.ParameterJson` | jenkins_ci/src/parameters.rs:7-11 | One parameter's object `{"name":…,"value":…}` reads back as exactly that parameter. |
| `Parameters.SingleParameterJson` | jenkins_ci/src/parameters.rs:36-40 | A single `K`/`V` pair needing no escapes is sent as `{"parameter":[{"name":"K","value":"V"}]}`. |
| `Json.ReadEscape` | jenkins_ci/src/parameters.rs:7-11 | serde_json's string escaping is read back as the original text. |
| `Json.Escape` | jenkins_ci/src/parameters.rs:7-11 | An escaped body is at least as long as the text. Reading it as a string literal never finds the closing quote, so the literal cannot end inside it. |
| `Json.EscapeChar` | jenkins_ci/src/parameters.rs:7-11 | A character is written as itself iff it is not a quote, a backslash or a control character; otherwise its escape starts with a backslash. |
| `Json.Value.AsStr` | jenkins_ci/src/job.rs:100 | `as_str()` gives the text of a string value, and nothing for any other value. |
| `Json.Value.At` | jenkins_ci/src/job.rs:98 | `value[i]` is the element inside an array's bounds and `Null` otherwise. |
| `Json.Value.Get` | jenkins_ci/src/job.rs:95 | `value["k"]` is the member of an object that has it and `Null` otherwise. |
| `Errors.New` | jenkins_ci/src/error.rs:12-17 | The error holds the given build number and artifact name. |
| `Errors.Default` | jenkins_ci/src/error.rs:5-9 | The default error has build number 0 and an empty name. |
| `Errors.Display` | jenkins_ci/src/error.rs:34-41 | The text is `Artifact name not found in build #` followed by the number in decimal. |
| `Errors.DisplayRoundTrip` | jenkins_ci/src/error.rs:34-41 | The number and the name can be read back from the `Display` text. |
| `Errors.Debug` | jenkins_ci/src/error.rs:22-31 | The text is `Self : [number:name]`. |
| `Errors.DebugRoundTrip` | jenkins_ci/src/error.rs:22-31 | The number and the name can be read back from the `Debug` text. |
| `JenkinsCtl.SplitOnce` | ci-tool/src/jenkins_ctl.rs:52 | No split iff the token has no `=`. Otherwise the token is key, `=`, value, and the key holds no `=`, so the split is at the first `=`. |
| `JenkinsCtl.SplitOnceJoin` | ci-tool/src/jenkins_ctl.rs:52 | A key without `=`, joined by `=` to any value, splits back into exactly that key and value. |
| `JenkinsCtl.KeyValuePairs` | ci-tool/src/jenkins_ctl.rs:50-55 | There are never more pairs than tokens. Every key is free of `=`, and every pair joined by `=` is one of the tokens. |
| `JenkinsCtl.KeyValuePairsAppend` | ci-tool/src/jenkins_ctl.rs:50-55 | The pairs of concatenated token lists are the concatenated pairs, so order is kept. |
| `JenkinsCtl.KeyValuePairsAllSplit` | ci-tool/src/jenkins_ctl.rs:50-55 | When every token has an `=`, each token gives its own pair at its own position. |
| `JenkinsCtl.KeyValuePairsNoneSplit` | ci-tool/src/jenkins_ctl.rs:50-55 | Tokens without `=` contribute nothing. |
| `JenkinsCtl.KeyValuePairsExample` | ci-tool/src/jenkins_ctl.rs:50-55 | `["a=1","bad","b=2"]` gives `[("a","1"),("b","2")]`. |
| `Text.ParseU64` | ci-tool/src/jenkins_ctl.rs:69-73 | `parse::<u64>` accepts exactly an optional `+` and at least one digit, within range, and yields their value. |
| `Text.ParseU64OfNatToString` | ci-tool/src/jenkins_ctl.rs:69-73 | Every `u64`'s decimal text parses back to it. |
| `JenkinsCtl.Delay` | ci-tool/src/jenkins_ctl.rs:69-73 | The delay is 0 when absent. Otherwise it is the value's `u64` reading, or 0 when the value does not parse. |
| `JenkinsCtl.DelayDefaults` | ci-tool/src/jenkins_ctl.rs:69-73 | An absent or unparsable delay (for example empty, `+` or `-1`) is 0. A decimal delay is its value. |
| `Text.ParseBool` | ci-tool/src/jenkins_ctl.rs:29-33 | `parse::<bool>` accepts exactly `true` and `false`. |
| `JenkinsCtl.AsFile` | ci-tool/src/jenkins_ctl.rs:29-33 | `as-file` is on iff its value is exactly `true`. |
| `JenkinsCtl.Destination` | ci-tool/src/jenkins_ctl.rs:22 | An absent destination is `.`, and a given one is used as it is. |
| `JenkinsCtl.Matches.IsPresent` | ci-tool/src/jenkins_ctl.rs:25 | An option given with a value is present, and a bare flag such as `wait-for-completion` is present although it has no value. |
| `JenkinsCtl.Matches.ValuesOf` | ci-tool/src/jenkins_ctl.rs:48 | `values_of` gives all the option's values, in order, exactly when the option is present. |
| `JenkinsCtl.Matches.ValueOf` | ci-tool/src/jenkins_ctl.rs:22-23 | `value_of` is the option's first value, if it was given with one. |
| `JenkinsCtl.ChooseDownload` | ci-tool/src/jenkins_ctl.rs:25-41 | `from-build` wins. `from-ws` is used only without `from-build`. |
| `JenkinsCtl.ChooseTrigger` | ci-tool/src/jenkins_ctl.rs:47-66 | `params` wins over `params-from-json`, which wins over a plain trigger. |
| `JenkinsCtl.DownloadPrefersBuild` | ci-tool/src/jenkins_ctl.rs:25-28 | With `from-build`, the build is fetched and its artifact downloaded into `destination` under `alt-name`. The workspace is never asked for. |
| `JenkinsCtl.DownloadWithoutSource` | ci-tool/src/jenkins_ctl.rs:25-43 | Without `from-build` and `from-ws`, `download` does nothing and succeeds. |
| `JenkinsCtl.Download` | ci-tool/src/jenkins_ctl.rs:21-44 | `download` does exactly what `DownloadSpec` describes, including that the `filter` value is unwrapped only after the build is fetched. |
| `JenkinsCtl.TriggerWithTokens` | ci-tool/src/jenkins_ctl.rs:47-58 | With `params`, exactly one POST goes to `url/build`. Its `json` query decodes to one parameter per `key=value` token, in order. |
| `JenkinsCtl.TriggerPlain` | ci-tool/src/jenkins_ctl.rs:64-66 | Without `params` and `params-from-json`, exactly one POST goes to `url/build`, without parameters. |
| `JenkinsCtl.TriggerUnreadableFile` | ci-tool/src/jenkins_ctl.rs:59-60 | An unreadable `params-from-json` file fails before anything is sent. |
| `JenkinsCtl.Trigger` | ci-tool/src/jenkins_ctl.rs:46-77 | `trigger` does exactly what `TriggerSpec` describes. After a successful trigger with `wait-for-completion`, the wait is the parsed delay. |
| `JenkinsCtl.Info` | ci-tool/src/jenkins_ctl.rs:79-85 | The text printed is the rendering of the build named by the first `build-id`. A missing `build-id` is reported as a panic. |

## Left out

- HTTP transport (`jenkins_ci/src/jenkins_client.rs`): the reqwest client, TLS roots, the cookie store, the user agent and the 60-second timeout are not modelled. The server is the oracle `Env.server`, from a request to a reply; a reply is a failed send, or a body that may be unreadable. HTTP status codes are not modelled, because the client never inspects them.
- serde decoding: the JSON parser and the `Build` and parameter-array decoders are oracles that return `None` on text they reject. The one fact about them the model relies on is that serde_json rejects the empty text, which `Jobs.Serde` requires of its decoders. The `#[serde(default)]` on `relative_path` is therefore not modelled.
- The file system: directory creation, file writes and file reads are oracles in `Env`. `create_dir_all` is one step that succeeds or fails as a whole, and `path.exists()` is membership in the set of known directories.
- Jobs.Job.New: the HTTP client's construction can fail only through the `clientOk` flag; the reason it fails is not modelled.
- `sleep` in `trigger`: `JenkinsCtl.Trigger` returns the number of seconds it would wait instead of waiting.
- `process` in `ci-tool/src/jenkins_ctl.rs:87-112` (configuration loading, the `todo!` branch and subcommand dispatch) and `ci-tool/src/main.rs` (clap and YAML wiring): these are argument and configuration plumbing. The subcommands themselves are modelled.
- `Build`'s `Debug` implementation (`jenkins_ci/src/build.rs:148-156`) and its getters (`jenkins_ci/src/build.rs:83-90`): the getters are the record's fields, and `Debug` is never used by the tool.
- The `Default` implementations that build HTTP clients (`jenkins_ci/src/job.rs:201-209`, `jenkins_ci/src/jenkins_client.rs:81-97`) and the re-exports in `jenkins_ci/src/lib.rs`.
- Parameters.Parameter.EvalFileContent: this is a function that returns the updated pair, not a method that overwrites `value` in place. `Parameter` is a value held in the list, and `ParameterList.FromString` replaces each element in place with its updated copy.
- Builds.Build: the non-owning reference to the client is modelled as the client value itself. A client never changes after `Job::new`, so the two cannot be told apart.
- Windows path rules and non-UTF-8 paths: `Path::file_name` and `Path::join` are modelled with Unix separators on valid text.
- Error messages of reqwest, serde and `std::io` are not modelled; errors are reduced to their kinds in `Errors.Error`. A `panic!` from `unwrap()` on a missing command-line value is modelled as the error value `Panicked`.
- JSON escaping: characters are Dafny `char`s, so surrogate pairs and UTF-8 encoding are not modelled.
