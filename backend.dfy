/**
 * Running the location's backend (lines 542-552, 687-731, 762-836): which
 * single call is made for each kind, how the PHP servlet's results are
 * copied onto the response, and the fault boundary only PHP has.
 */
module Backend {
  import opened Base
  import opened Host
  import opened Config
  import opened Names
  import Headers
  import Worker

  const PHP_FAULT_PAGE: string := "<p style='text-align:center;margin:100px;'>PHP Throw Exception</p>"

  /** The bytes of a string setting; an unset one reads as empty. */
  function Str(s: Option<string>): string
  {
    if s.Some? then s.value else ""
  }

  /** The Python and Lua handlers: the script under the request's uri when one is set, else the inline code. */
  function ScriptCall(script: Option<string>, code: Option<string>, uri: string,
                      byScript: string -> Invocation, inline: string -> Invocation): Option<Invocation>
  {
    if Given(script) then Some(byScript(script.value + uri))
    else if Given(code) then Some(inline(code.value))
    else None
  }

  /** The call the dispatch switch makes for a request, if any. */
  function CallFor(env: Env, conf: LocConf, plugins: seq<string>, uri: string): (call: Option<Invocation>)
    requires |uri| < NPOS
    requires conf.appType == Cpp ==> 0 <= conf.moduleIndex < |plugins|
    // no call: no backend, no script or code for the engine, or no PHP file under the uri
    ensures call.None? <==>
      || conf.appType == Unknown
      || (conf.appType == Python && !Given(conf.pythonScript) && !Given(conf.pythonContent))
      || (conf.appType == Lua && !Given(conf.luaScript) && !Given(conf.luaContent))
      || (conf.appType == Php && !env.fileExists(Str(conf.phpScript) + uri))
    // the call goes to the engine the location names
    ensures call.Some? ==>
      && (call.value.Native? <==> conf.appType == Cpp)
      && (call.value.PythonScript? || call.value.PythonInline? <==> conf.appType == Python)
      && (call.value.LuaScript? || call.value.LuaInline? <==> conf.appType == Lua)
      && (call.value.PhpServlet? <==> conf.appType == Php)
    ensures conf.appType == Cpp ==> call == Some(Native(plugins[conf.moduleIndex]))
    ensures call.Some? && call.value.PhpServlet? ==>
      call.value == PhpServlet(Str(conf.phpScript) + uri, Stem(LastSegment(uri)))
  {
    match conf.appType
    case Cpp => Some(Native(plugins[conf.moduleIndex]))
    case Python => ScriptCall(conf.pythonScript, conf.pythonContent, uri, p => PythonScript(p), c => PythonInline(c))
    case Lua => ScriptCall(conf.luaScript, conf.luaContent, uri, p => LuaScript(p), c => LuaInline(c))
    case Php =>
      var script := Str(conf.phpScript) + uri;
      if env.fileExists(script) then
        ClassNameIsStem(uri);
        Some(PhpServlet(script, ClassName(uri).value))
      else None
    case Unknown => None
  }

  /**
   * Lines 810-834: headers the servlet set are added (lines 810-820, each
   * element of an array value as its own header), its session entries are
   * inserted without replacing existing ones (lines 821-823), and its content
   * and status replace the response's (lines 827-829). A fault anywhere in
   * the guarded block (lines 832-834) gives status 500 and
   * the fixed fault page.
   */
  function PhpApply(reply: PhpReply, res: Response): (r: Response)
    ensures reply.PhpDeclined? ==> r == res
    ensures reply.PhpThrew? ==>
      r.status == 500 && r.content == PHP_FAULT_PAGE && r.headers == res.headers && r.session == res.session
    ensures reply.PhpDone? ==>
      && r.status == reply.status && r.content == reply.content
      && r.headers == res.headers + reply.headers
      && res.session.Keys <= r.session.Keys
      && (forall k :: k in res.session ==> r.session[k] == res.session[k])
      && (forall k :: k in r.session && k !in res.session ==> exists j :: 0 <= j < |reply.session| && reply.session[j].0 == k)
  {
    match reply
    case PhpDone(headers, session, content, status) =>
      Headers.InsertedKeepsAll(res.session, session);
      Headers.InsertedFrom(res.session, session);
      Response(status, res.headers + headers, content, Headers.Inserted(res.session, session))
    case PhpDeclined => res
    case PhpThrew => res.(status := 500, content := PHP_FAULT_PAGE)
  }

  /** What the backend leaves on the response, or that a fault escaped it. */
  function ReplyFor(env: Env, call: Option<Invocation>, req: Request, res: Response): Reply
  {
    match call
    case None => Returned(res)
    case Some(inv) =>
      if inv.PhpServlet? then Returned(PhpApply(env.runPhp(inv.script, inv.className, req), res))
      else env.run(inv, req, res)
  }

  /**
   * The dispatch switch: at most one backend call, the one `CallFor` names;
   * the Python and Lua engines are started on their first use.
   */
  method Dispatch(w: Worker.Worker, env: Env, conf: LocConf, req: Request, res: Response)
    returns (reply: Reply, ghost calls: seq<Invocation>)
    requires |req.uri| < NPOS
    requires w.Valid() && Worker.FitsIn(conf, w.plugins, |w.caches|)
    modifies w
    ensures w.Valid()
    ensures w.plugins == old(w.plugins) && w.caches == old(w.caches) && w.phpUp == old(w.phpUp)
    ensures w.pythonUp == (old(w.pythonUp) || conf.appType == Python)
    ensures w.luaUp == (old(w.luaUp) || conf.appType == Lua)
    ensures var call := CallFor(env, conf, w.plugins, req.uri);
      && calls == (if call.Some? then [call.value] else [])
      && reply == ReplyFor(env, call, req, res)
  {
    reply := Returned(res);
    calls := [];
    match conf.appType {
      case Cpp =>
        var inv := Native(w.plugins[conf.moduleIndex]);
        reply := env.run(inv, req, res);
        calls := [inv];
      case Python =>
        if !w.pythonUp {
          w.pythonUp := true;
        }
        if Given(conf.pythonScript) {
          var inv := PythonScript(conf.pythonScript.value + req.uri);
          reply := env.run(inv, req, res);
          calls := [inv];
        } else if Given(conf.pythonContent) {
          var inv := PythonInline(conf.pythonContent.value);
          reply := env.run(inv, req, res);
          calls := [inv];
        }
      case Lua =>
        if !w.luaUp {
          w.luaUp := true;
        }
        if Given(conf.luaScript) {
          var inv := LuaScript(conf.luaScript.value + req.uri);
          reply := env.run(inv, req, res);
          calls := [inv];
        } else if Given(conf.luaContent) {
          var inv := LuaInline(conf.luaContent.value);
          reply := env.run(inv, req, res);
          calls := [inv];
        }
      case Php =>
        var script := Str(conf.phpScript) + req.uri;
        if env.fileExists(script) {
          var className := ClassName(req.uri);
          ClassNameIsStem(req.uri);
          var inv := PhpServlet(script, className.value);
          reply := Returned(PhpApply(env.runPhp(script, className.value, req), res));
          calls := [inv];
        }
      case Unknown =>
    }
  }

  /** A PHP location never lets a fault escape: its reply is always a response. */
  lemma PhpFaultContained(env: Env, conf: LocConf, plugins: seq<string>, req: Request, res: Response)
    requires |req.uri| < NPOS && conf.appType == Php
    ensures ReplyFor(env, CallFor(env, conf, plugins, req.uri), req, res).Returned?
    ensures var call := CallFor(env, conf, plugins, req.uri);
      call.Some? && env.runPhp(call.value.script, call.value.className, req) == PhpThrew ==>
        ReplyFor(env, call, req, res) == Returned(res.(status := 500, content := PHP_FAULT_PAGE))
  {
  }

  /**
   * The PHP servlet class is named after the uri's last path segment without
   * its extension, and its script is the configured base followed by the uri.
   */
  lemma PhpServletNamed(env: Env, conf: LocConf, plugins: seq<string>, uri: string)
    requires |uri| < NPOS && conf.appType == Php
    requires env.fileExists(Str(conf.phpScript) + uri)
    ensures CallFor(env, conf, plugins, uri) == Some(PhpServlet(Str(conf.phpScript) + uri, Stem(LastSegment(uri))))
  {
    ClassNameIsStem(uri);
  }

  /** A script setting wins over inline code, and the script path is the setting followed by the uri. */
  lemma ScriptBeforeInline(env: Env, conf: LocConf, plugins: seq<string>, uri: string)
    requires |uri| < NPOS
    ensures conf.appType == Python && Given(conf.pythonScript) ==>
      CallFor(env, conf, plugins, uri) == Some(PythonScript(conf.pythonScript.value + uri))
    ensures conf.appType == Python && !Given(conf.pythonScript) && Given(conf.pythonContent) ==>
      CallFor(env, conf, plugins, uri) == Some(PythonInline(conf.pythonContent.value))
    ensures conf.appType == Lua && Given(conf.luaScript) ==>
      CallFor(env, conf, plugins, uri) == Some(LuaScript(conf.luaScript.value + uri))
    ensures conf.appType == Lua && !Given(conf.luaScript) && Given(conf.luaContent) ==>
      CallFor(env, conf, plugins, uri) == Some(LuaInline(conf.luaContent.value))
  {
  }

  /** A location without a backend leaves the fresh response as it is. */
  lemma NoBackendNoCall(env: Env, conf: LocConf, plugins: seq<string>, req: Request, res: Response)
    requires |req.uri| < NPOS && conf.appType == Unknown
    ensures CallFor(env, conf, plugins, req.uri) == None
    ensures ReplyFor(env, None, req, res) == Returned(res)
  {
  }
}
