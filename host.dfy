/**
 * The outside world the client talks to, reduced to what the client's
 * logic can observe: the HTTP requests it issues (as `JenkinsClient::get`
 * and `post` build them), the replies of a fixed server, directory
 * creation and file writes. Every effect is appended to an event log.
 */
module Host {
  import opened Wrappers

  datatype Verb = Get | Post

  /** One request as sent: basic-auth credentials, the optional `Jenkins-Crumb` header, the optional `json` query. */
  datatype Request = Request(verb: Verb, url: string, user: string, token: string, crumb: Option<string>, json: Option<string>)

  /** `JenkinsClient`: the credentials and the crumb, if one was obtained. */
  datatype Client = Client(user: string, token: string, crumb: Option<string>) {

    /** `JenkinsClient::get`: basic auth only, no crumb, no query. */
    function GetRequest(url: string): (r: Request)
      ensures r.verb == Get && r.url == url && r.user == user && r.token == token
      ensures r.crumb == None && r.json == None
    {
      Request(Get, url, user, token, None, None)
    }

    /** `JenkinsClient::post`: the crumb header iff a crumb is held, the `json` query iff a body is given. */
    function PostRequest(url: string, parameters: Option<string>): (r: Request)
      ensures r.verb == Post && r.url == url && r.user == user && r.token == token
      ensures r.crumb.Some? <==> crumb.Some?
      ensures r.crumb == crumb && r.json == parameters
    {
      Request(Post, url, user, token, crumb, parameters)
    }
  }

  /** `JenkinsClient::new`: no crumb until one is asked for. */
  function NewClient(user: string, token: string): (c: Client)
    ensures c.user == user && c.token == token && c.crumb == None
  {
    Client(user, token, None)
  }

  /**
   * The outcome of sending a request: `Failed` when `send()` errs (no
   * connection, timeout), otherwise the reply body, `None` when reading it
   * fails.
   */
  datatype Reply = Failed | Replied(body: Option<string>) {

    /** The body as `resp.text()?` / `resp.bytes()?` give it after a successful send. */
    function Body(): Option<string> {
      if Replied? then body else None
    }
  }

  datatype Event =
    | Sent(request: Request)
    | CreatedDir(path: string)
    | Wrote(path: string, content: string)

  /** What the world looks like: the effects so far, the directories that exist, the files written. */
  datatype State = State(events: seq<Event>, dirs: set<string>, files: map<string, string>)

  /**
   * The oracles: the server's reply to each request, whether a directory can be
   * created or a file written, the contents of readable local files, and
   * whether an HTTP client can be built at all.
   */
  datatype Env = Env(
    server: Request -> Reply,
    mkdirOk: string -> bool,
    writeOk: string -> bool,
    readFile: string -> Option<string>,
    clientOk: bool)

  // ----- One effect each, as functions of the state -----

  function SendStep(env: Env, st: State, r: Request): (Reply, State) {
    (env.server(r), st.(events := st.events + [Sent(r)]))
  }

  /** Making a directory unless it exists: an attempt is recorded only when it was missing, and may fail. */
  function EnsureDirStep(env: Env, st: State, dir: string): (bool, State) {
    if dir in st.dirs then (true, st)
    else
      var ok := env.mkdirOk(dir);
      (ok, State(st.events + [CreatedDir(dir)], if ok then st.dirs + {dir} else st.dirs, st.files))
  }

  /** Writing a file: the attempt is recorded, and the file holds the content only when the write succeeds. */
  function WriteStep(env: Env, st: State, path: string, content: string): (bool, State) {
    var ok := env.writeOk(path);
    (ok, State(st.events + [Wrote(path, content)], st.dirs, if ok then st.files[path := content] else st.files))
  }

  /** The world as an object the client's operations act on. */
  class World {
    const env: Env
    var st: State

    constructor (env: Env, st: State)
      ensures this.env == env && this.st == st
    {
      this.env := env;
      this.st := st;
    }

    /** Sending a request: the server's reply, with the request appended to the log. */
    method Send(r: Request) returns (reply: Reply)
      modifies this
      ensures (reply, st) == SendStep(env, old(st), r)
    {
      reply := env.server(r);
      st := st.(events := st.events + [Sent(r)]);
    }

    /** `create_dir_all` guarded by `exists()`: see `EnsureDirStep`. */
    method EnsureDir(dir: string) returns (ok: bool)
      modifies this
      ensures (ok, st) == EnsureDirStep(env, old(st), dir)
    {
      ok := true;
      if dir !in st.dirs {
        ok := env.mkdirOk(dir);
        st := State(st.events + [CreatedDir(dir)], if ok then st.dirs + {dir} else st.dirs, st.files);
      }
    }

    /** `fs::write`: see `WriteStep`. */
    method Write(path: string, content: string) returns (ok: bool)
      modifies this
      ensures (ok, st) == WriteStep(env, old(st), path, content)
    {
      ok := env.writeOk(path);
      st := State(st.events + [Wrote(path, content)], st.dirs, if ok then st.files[path := content] else st.files);
    }
  }
}
