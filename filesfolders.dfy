/**
  The decision layer of the `filesfolders` client for the Kudu VFS and
  triggered-webjobs HTTP endpoints: which request each operation issues, how
  `checkForError` recognises an authentication failure served as an HTML
  page, and how each operation settles its promise from the transport's
  result.

  There is no I/O here. A transport result is an input value; the website
  base URL and the credentials come in as a `Config`; whether a local source
  file exists is a boolean. Each operation is a function from those inputs
  to a `Run`: the requests it issues, in order, and the first settlement of
  its promise.
 */
module FilesFolders {
  import opened JsString

  datatype Option<T> = None | Some(value: T)

  // ---------------------------------------------------------------------
  // Data model
  // ---------------------------------------------------------------------

  /** Basic-auth credentials, opaque to the client. */
  datatype Credentials = Credentials(user: string, password: string)

  /** What the configuration collaborator supplies: `config.website` and `config.auth()`. */
  datatype Config = Config(website: string, auth: Credentials)

  datatype Verb = GET | PUT | DELETE | POST

  /** The request body: nothing, or the contents of a local file piped into the request. */
  datatype Payload = NoPayload | FileStream(source: string)

  datatype Request = Request(verb: Verb, url: string, auth: Credentials,
                             headers: map<string, string>, payload: Payload)

  /** An HTTP response as the client sees it; header names are lower-case, as the HTTP stack delivers them. */
  datatype Response = Response(headers: Option<map<string, string>>, body: Option<string>)

  /**
    The JavaScript values that reach `checkForError` or settle a promise:
    `undefined`, a string, a response object, or an array (a promisified
    call that packs its callback's several results).
   */
  datatype Value = Undefined | Str(text: string) | Resp(response: Response) | Arr(items: seq<Value>)

  datatype TransportError = TransportError(description: string)

  /** A transport callback's arguments: an error, or a response and its body. */
  datatype Transport = Err(error: TransportError) | Ok(response: Response, body: string)

  /**
    The `request` library hands the callback the same text as `body` and as
    `response.body`. The model does not impose this on every `Transport`;
    properties that need it assume it explicitly.
   */
  predicate BodyMirrored(t: Transport)
  {
    t.Ok? ==> t.response.body == Some(t.body)
  }

  /**
    How the promise library fulfils a promisified call whose callback
    delivers `(error, response, body)`: with the response alone, or with the
    array `[response, body]`.
   */
  datatype Packing = SingleValue | MultiArgs

  /** The value a promise is rejected with. */
  datatype Reason = Error(error: TransportError) | Message(text: string)

  datatype Outcome = Resolved(value: Value) | Rejected(reason: Reason)

  /** The requests an operation issues, in order, and how its promise settles. */
  datatype Run = Run(requests: seq<Request>, outcome: Outcome)

  // ---------------------------------------------------------------------
  // checkForError
  // ---------------------------------------------------------------------

  const UnauthorizedMarker: string := "401 - Unauthorized"
  const InvalidCredentials: string :=
    "Invalid Credentials: The Azure Website rejected the given username or password."

  /** `v.headers` is truthy: `v` is a response object that carries a headers object. */
  predicate HasHeaders(v: Value)
  {
    v.Resp? && v.response.headers.Some?
  }

  /**
    The first step of `checkForError`: a value whose first element is a
    response with headers stands for that element; anything else is examined
    as it is. Indexing `undefined` throws, so the value must be defined.
   */
  function Unwrap(v: Value): (c: Value)
    requires !v.Undefined?
    ensures c == v || (v.Arr? && |v.items| > 0 && c == v.items[0])
    ensures HasHeaders(c) <==> HasHeaders(v) || (v.Arr? && |v.items| > 0 && HasHeaders(v.items[0]))
    ensures !(v.Arr? && |v.items| > 0 && HasHeaders(v.items[0])) ==> c == v
  {
    if v.Arr? && |v.items| > 0 && HasHeaders(v.items[0]) then v.items[0] else v
  }

  /**
    Reference definition of the authentication-failure page: a response
    whose content type is exactly `text/html` and whose body contains the
    marker at some offset.
   */
  ghost predicate IsAuthFailurePage(v: Value)
  {
    && v.Resp?
    && v.response.headers.Some?
    && "content-type" in v.response.headers.value
    && v.response.headers.value["content-type"] == "text/html"
    && v.response.body.Some?
    && Contains(v.response.body.value, UnauthorizedMarker)
  }

  /** `checkForError`: the fixed message for an authentication-failure page, `false` (here `None`) otherwise. */
  function CheckForError(v: Value): (r: Option<string>)
    requires !v.Undefined?
    ensures r.Some? <==> IsAuthFailurePage(Unwrap(v))
    ensures r.Some? ==> r.value == InvalidCredentials
  {
    var c := Unwrap(v);
    if c.Resp? && c.response.headers.Some?
       && "content-type" in c.response.headers.value
       && |c.response.headers.value["content-type"]| > 0
       && c.response.headers.value["content-type"] == "text/html"
    then
      if c.response.body.Some? && |c.response.body.value| > 0
         && IndexOf(c.response.body.value, UnauthorizedMarker) > -1
      then Some(InvalidCredentials)
      else None
    else None
  }

  // ---------------------------------------------------------------------
  // Request construction
  // ---------------------------------------------------------------------

  function VfsUrl(cfg: Config, target: string): string
  {
    cfg.website + "/api/vfs/" + target
  }

  function WebjobUrl(cfg: Config, name: string): string
  {
    cfg.website + "/api/triggeredwebjobs/" + name
  }

  /** A request carrying the configured credentials, no extra headers and no body. */
  function Plain(cfg: Config, verb: Verb, url: string): Request
  {
    Request(verb, url, cfg.auth, map[], NoPayload)
  }

  /** The request `mk` issues: a PUT to the VFS path, with `/` appended for a directory. */
  function MkRequest(cfg: Config, target: string, isDir: bool): Request
  {
    Plain(cfg, PUT, VfsUrl(cfg, if isDir then target + "/" else target))
  }

  /** The request `rm` issues: a DELETE to the VFS path, with `/?recursive=true` appended for a directory. */
  function RmRequest(cfg: Config, target: string, isDir: bool): Request
  {
    Plain(cfg, DELETE, VfsUrl(cfg, if isDir then target + "/?recursive=true" else target))
  }

  function ContentDisposition(name: string): map<string, string>
  {
    map["Content-Disposition" := "attachement; filename=" + name]
  }

  // ---------------------------------------------------------------------
  // Settlement
  // ---------------------------------------------------------------------

  /** What a promisified call fulfils with, given its callback's response and body. */
  function Promised(packing: Packing, response: Response, body: string): (v: Value)
    ensures !v.Undefined?
    ensures packing.SingleValue? ==> v == Resp(response)
    ensures packing.MultiArgs? ==> v.Arr? && |v.items| == 2 && v.items[0] == Resp(response) && v.items[1] == Str(body)
    ensures response.headers.Some? ==> Unwrap(v) == Resp(response)
  {
    match packing
    case SingleValue => Resp(response)
    case MultiArgs => Arr([Resp(response), Str(body)])
  }

  /** `.then(response => response).catch(console.log)`: fulfil with the value, or with `undefined` after logging the error. */
  function Swallowed(packing: Packing, t: Transport): (o: Outcome)
    ensures o.Resolved?
    ensures t.Err? ==> o.value == Undefined
    ensures t.Ok? ==> o.value == Promised(packing, t.response, t.body)
  {
    match t
    case Err(_) => Resolved(Undefined)
    case Ok(response, body) => Resolved(Promised(packing, response, body))
  }

  /** After a completed request: reject with `checkForError`'s message when it has one, otherwise resolve with `success`. */
  function Screened(subject: Value, success: Value): (o: Outcome)
    requires !subject.Undefined?
    ensures o.Rejected? <==> IsAuthFailurePage(Unwrap(subject))
    ensures o.Rejected? ==> o.reason == Message(InvalidCredentials)
    ensures o.Resolved? ==> o.value == success
  {
    match CheckForError(subject)
    case Some(message) => Rejected(Message(message))
    case None => Resolved(success)
  }

  /**
    The settlement shared by the callbacks of `uploadWebjob`, `getWebjobInfo`,
    `getWebjobLog` and `triggerWebjob`: a transport error rejects with that
    error (the first settlement wins, so the code that runs after the
    `reject` cannot change it); a completed request is screened by
    `checkForError` and resolves with the response, or with the body when
    `withBody` is set.
   */
  function Settled(t: Transport, withBody: bool): (o: Outcome)
    ensures t.Err? ==> o == Rejected(Error(t.error))
    ensures t.Ok? && IsAuthFailurePage(Resp(t.response)) ==> o == Rejected(Message(InvalidCredentials))
    ensures t.Ok? && !IsAuthFailurePage(Resp(t.response)) ==>
              o == Resolved(if withBody then Str(t.body) else Resp(t.response))
  {
    match t
    case Err(e) => Rejected(Error(e))
    case Ok(response, body) => Screened(Resp(response), if withBody then Str(body) else Resp(response))
  }

  // ---------------------------------------------------------------------
  // Operations
  // ---------------------------------------------------------------------

  /** `mk(target, isDir)`: one PUT; the promise never rejects. */
  function Mk(cfg: Config, target: string, isDir: bool, packing: Packing, t: Transport): (r: Run)
    ensures r.requests == [MkRequest(cfg, target, isDir)]
    ensures r.outcome.Resolved?
    ensures t.Ok? ==> r.outcome.value == Promised(packing, t.response, t.body)
    ensures t.Err? ==> r.outcome.value == Undefined
  {
    Run([MkRequest(cfg, target, isDir)], Swallowed(packing, t))
  }

  /** `mkDir(dir)`: a PUT to the directory's VFS URL with a trailing `/`. */
  function MkDir(cfg: Config, dir: string, packing: Packing, t: Transport): (r: Run)
    ensures r.requests == [Request(PUT, cfg.website + "/api/vfs/" + dir + "/", cfg.auth, map[], NoPayload)]
    ensures r.outcome.Resolved?
    ensures t.Ok? ==> r.outcome.value == Promised(packing, t.response, t.body)
    ensures t.Err? ==> r.outcome.value == Undefined
  {
    assert VfsUrl(cfg, dir + "/") == cfg.website + "/api/vfs/" + dir + "/";
    Mk(cfg, dir, true, packing, t)
  }

  /** `mkFile(file)`: a PUT to the file's VFS URL, no suffix. */
  function MkFile(cfg: Config, file: string, packing: Packing, t: Transport): (r: Run)
    ensures r.requests == [Request(PUT, cfg.website + "/api/vfs/" + file, cfg.auth, map[], NoPayload)]
    ensures r.outcome.Resolved?
    ensures t.Ok? ==> r.outcome.value == Promised(packing, t.response, t.body)
    ensures t.Err? ==> r.outcome.value == Undefined
  {
    Mk(cfg, file, false, packing, t)
  }

  /** `rm(target, isDir)`: one DELETE; the promise never rejects. */
  function Rm(cfg: Config, target: string, isDir: bool, packing: Packing, t: Transport): (r: Run)
    ensures r.requests == [RmRequest(cfg, target, isDir)]
    ensures r.outcome.Resolved?
    ensures t.Ok? ==> r.outcome.value == Promised(packing, t.response, t.body)
    ensures t.Err? ==> r.outcome.value == Undefined
  {
    Run([RmRequest(cfg, target, isDir)], Swallowed(packing, t))
  }

  /** `rmDir(dir)`: a recursive DELETE of the directory. */
  function RmDir(cfg: Config, dir: string, packing: Packing, t: Transport): (r: Run)
    ensures r.requests == [Request(DELETE, cfg.website + "/api/vfs/" + dir + "/?recursive=true", cfg.auth, map[], NoPayload)]
    ensures r.outcome.Resolved?
    ensures t.Ok? ==> r.outcome.value == Promised(packing, t.response, t.body)
    ensures t.Err? ==> r.outcome.value == Undefined
  {
    assert VfsUrl(cfg, dir + "/?recursive=true") == cfg.website + "/api/vfs/" + dir + "/?recursive=true";
    Rm(cfg, dir, true, packing, t)
  }

  /** `rmFile(file)`: a DELETE of the file's VFS URL, no suffix. */
  function RmFile(cfg: Config, file: string, packing: Packing, t: Transport): (r: Run)
    ensures r.requests == [Request(DELETE, cfg.website + "/api/vfs/" + file, cfg.auth, map[], NoPayload)]
    ensures r.outcome.Resolved?
    ensures t.Ok? ==> r.outcome.value == Promised(packing, t.response, t.body)
    ensures t.Err? ==> r.outcome.value == Undefined
  {
    Rm(cfg, file, false, packing, t)
  }

  /**
    `list(target)`: a GET of the directory listing. A transport error rejects
    with it; an authentication-failure page rejects with the message; anything
    else resolves with what the promisified call fulfilled with.
   */
  function List(cfg: Config, target: string, packing: Packing, t: Transport): (r: Run)
    ensures r.requests == [Plain(cfg, GET, cfg.website + "/api/vfs/" + target + "/")]
    ensures t.Err? ==> r.outcome == Rejected(Error(t.error))
    ensures t.Ok? && IsAuthFailurePage(Resp(t.response)) ==>
              r.outcome == Rejected(Message(InvalidCredentials))
    ensures t.Ok? && !IsAuthFailurePage(Resp(t.response)) ==>
              r.outcome == Resolved(Promised(packing, t.response, t.body))
  {
    var request := Plain(cfg, GET, VfsUrl(cfg, target) + "/");
    match t
    case Err(e) => Run([request], Rejected(Error(e)))
    case Ok(response, body) =>
      var fulfilled := Promised(packing, response, body);
      Run([request], Screened(fulfilled, fulfilled))
  }

  /**
    `upload(source, target)`: a missing source rejects at once and issues no
    request; otherwise the file is piped into a PUT, and the promise rejects
    only on a transport error; `checkForError` is not applied.
   */
  function Upload(cfg: Config, source: string, sourceExists: bool, target: string, t: Transport): (r: Run)
    ensures !sourceExists ==> r.requests == []
    ensures !sourceExists ==>
              r.outcome == Rejected(Message("The file " + source + " does not exist or cannot be read."))
    ensures sourceExists ==>
              r.requests == [Request(PUT, cfg.website + "/api/vfs/" + target, cfg.auth, map[], FileStream(source))]
    ensures sourceExists && t.Err? ==> r.outcome == Rejected(Error(t.error))
    ensures sourceExists && t.Ok? ==> r.outcome == Resolved(Resp(t.response))
  {
    if !sourceExists then
      Run([], Rejected(Message("The file " + source + " does not exist or cannot be read.")))
    else
      var request := Request(PUT, VfsUrl(cfg, target), cfg.auth, map[], FileStream(source));
      match t
      case Err(e) => Run([request], Rejected(Error(e)))
      case Ok(response, _) => Run([request], Resolved(Resp(response)))
  }

  /**
    `uploadWebjob(source, name)`: a DELETE of the job, then, once the DELETE
    has completed whatever its status, the file piped into a PUT to the same
    URL with a `Content-Disposition` header. A DELETE that fails at transport
    level rejects and no PUT is issued.
   */
  function UploadWebjob(cfg: Config, source: string, name: string, del: Transport, put: Transport): (r: Run)
    ensures |r.requests| >= 1
    ensures r.requests[0] == Plain(cfg, DELETE, cfg.website + "/api/triggeredwebjobs/" + name)
    ensures del.Err? ==> |r.requests| == 1 && r.outcome == Rejected(Error(del.error))
    ensures del.Ok? ==> |r.requests| == 2
    ensures del.Ok? ==> r.requests[1] == Request(PUT, cfg.website + "/api/triggeredwebjobs/" + name, cfg.auth,
                                                 map["Content-Disposition" := "attachement; filename=" + name],
                                                 FileStream(source))
    ensures del.Ok? ==> r.outcome == Settled(put, false)
  {
    var url := WebjobUrl(cfg, name);
    var removal := Plain(cfg, DELETE, url);
    match del
    case Err(e) => Run([removal], Rejected(Error(e)))
    case Ok(_, _) =>
      Run([removal, Request(PUT, url, cfg.auth, ContentDisposition(name), FileStream(source))], Settled(put, false))
  }

  /** `getWebjobInfo(name)`: a GET of the job's metadata; resolves with the response. */
  function GetWebjobInfo(cfg: Config, name: string, t: Transport): (r: Run)
    ensures r.requests == [Plain(cfg, GET, cfg.website + "/api/triggeredwebjobs/" + name)]
    ensures r.outcome == Settled(t, false)
  {
    Run([Plain(cfg, GET, WebjobUrl(cfg, name))], Settled(t, false))
  }

  /** `getWebjobLog(url)`: a GET of an absolute URL; resolves with the response body. */
  function GetWebjobLog(cfg: Config, url: string, t: Transport): (r: Run)
    ensures r.requests == [Plain(cfg, GET, url)]
    ensures r.outcome == Settled(t, true)
  {
    Run([Plain(cfg, GET, url)], Settled(t, true))
  }

  /** `triggerWebjob(name)`: a POST to the job's `run` endpoint; resolves with the response. */
  function TriggerWebjob(cfg: Config, name: string, t: Transport): (r: Run)
    ensures r.requests == [Plain(cfg, POST, cfg.website + "/api/triggeredwebjobs/" + name + "/run")]
    ensures r.outcome == Settled(t, false)
  {
    Run([Plain(cfg, POST, WebjobUrl(cfg, name) + "/run")], Settled(t, false))
  }
}
