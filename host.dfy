/**
 * The records the handler works on (`hi::request`, `hi::response`), what nginx
 * hands it for one request, and the environment it calls into: hashing, the
 * clock's text form, the parameter and multipart parsers, the filesystem, the
 * session server's reachability and the backends, all as total functions.
 */
module Host {
  import opened Base
  import Body

  /** One multipart field: text, or an uploaded file the parser stored under a temporary name. */
  datatype Field = Text(text: string) | File(fileName: string, tempFileName: string)

  /** The multipart parser's verdict: its fields by name, or the message of the exception it threw. */
  datatype Multipart = Parsed(fields: seq<(string, Field)>) | ParseError(message: string)

  /** `hi::request` */
  datatype Request = Request(
    uri: string, param: string, methodName: string, client: string, userAgent: string,
    headers: map<string, string>, form: map<string, string>,
    cookies: map<string, string>, session: map<string, string>)

  /** `hi::response`: headers are a multimap, kept in order. */
  datatype Response = Response(status: int, headers: seq<Header>, content: string, session: map<string, string>)

  /** One call into a backend. */
  datatype Invocation =
    | Native(modulePath: string)
    | PythonScript(path: string) | PythonInline(code: string)
    | LuaScript(path: string) | LuaInline(code: string)
    | PhpServlet(script: string, className: string)

  /** What a native, Python or Lua backend did: left the response as given, or threw. */
  datatype Reply = Returned(res: Response) | Threw

  /**
   * What the PHP engine did with a servlet class: ran its `handler` and left
   * headers, session, content and status on the response object; found no
   * such class or method; or faulted anywhere inside the guarded block.
   */
  datatype PhpReply =
    | PhpDone(headers: seq<Header>, session: seq<Header>, content: string, status: int)
    | PhpDeclined
    | PhpThrew

  /** Reads of a missing value the source performs without a check. */
  datatype Hazard = UserAgentMissing | ContentTypeMissing | ContentTypeHeaderMissing

  /** What nginx holds for the request when the handler runs. */
  datatype RawRequest = RawRequest(
    uri: string, args: string, methodName: string, client: string,
    userAgent: Option<string>, ifModifiedSince: Option<string>,
    contentLength: int, contentType: Option<string>,
    headerParts: seq<seq<Header>>, cookieHeaders: seq<Option<string>>,
    body: Body.RequestBody, headersOut: seq<Header>, maxBodySize: nat)

  /** nginx's own guarantees about these fields. */
  predicate WellFormed(raw: RawRequest)
  {
    && |raw.uri| < NPOS
    && |raw.headerParts| >= 1
    && (forall j :: 0 < j < |raw.headerParts| ==> raw.headerParts[j] != [])
  }

  datatype Env = Env(
    md5: string -> Digest,
    ctime: int -> string,
    parseTime: string -> int,
    parseParam: (string, char, map<string, string>) -> map<string, string>,
    multipart: (string, string, nat) -> Multipart,
    tempDirReady: bool,
    connects: (string, int) -> bool,
    fileExists: string -> bool,
    run: (Invocation, Request, Response) -> Reply,
    runPhp: (string, string, Request) -> PhpReply,
    httpTime: string,
    initialHeaders: seq<Header>)

  /** A fresh `hi::response`. */
  function NewResponse(env: Env): Response
  {
    Response(200, env.initialHeaders, "", map[])
  }
}
