/**
 * Building `hi::request` from what nginx holds (lines 465-523): request
 * headers, method, client, user agent, query and body parameters, uploads
 * and cookies.
 */
module Ingest {
  import opened Base
  import opened Host
  import opened Headers
  import opened Body
  import opened Names
  import Hex
  import Config

  /** The form value a multipart field contributes: its text, or where its file is moved. */
  function FieldValue(env: Env, client: string, field: Field, now: int): string
  {
    match field
    case Text(text) => text
    case File(fileName, _) => UploadPath(env.md5, env.ctime, client, fileName, now)
  }

  function FormPairs(env: Env, client: string, fields: seq<(string, Field)>, now: int): (pairs: seq<Header>)
    ensures |pairs| == |fields|
  {
    seq(|fields|, i requires 0 <= i < |fields| => (fields[i].0, FieldValue(env, client, fields[i].1, now)))
  }

  /** The renames of uploaded files, from temporary name to final path, in field order. */
  function Moves(env: Env, client: string, fields: seq<(string, Field)>, now: int): seq<(string, string)>
  {
    if fields == [] then []
    else
      var last := fields[|fields| - 1].1;
      Moves(env, client, fields[..|fields| - 1], now)
      + (if last.File? then [(last.tempFileName, UploadPath(env.md5, env.ctime, client, last.fileName, now))] else [])
  }

  lemma FormPairsSnoc(env: Env, client: string, fields: seq<(string, Field)>, i: nat, now: int)
    requires i < |fields|
    ensures FormPairs(env, client, fields[..i + 1], now)
         == FormPairs(env, client, fields[..i], now) + [(fields[i].0, FieldValue(env, client, fields[i].1, now))]
  {
  }

  /**
   * The field loop of lines 490-510: a text field is inserted with its text, a
   * file is renamed to its upload path and that path inserted; a name already
   * in the form keeps its value.
   */
  method IngestFields(env: Env, client: string, fields: seq<(string, Field)>, form0: map<string, string>, now: int)
    returns (form: map<string, string>, moves: seq<(string, string)>)
    ensures form == Inserted(form0, FormPairs(env, client, fields, now))
    ensures moves == Moves(env, client, fields, now)
  {
    form, moves := form0, [];
    for i := 0 to |fields|
      invariant form == Inserted(form0, FormPairs(env, client, fields[..i], now))
      invariant moves == Moves(env, client, fields[..i], now)
    {
      var (name, field) := fields[i];
      FormPairsSnoc(env, client, fields, i, now);
      assert fields[..i + 1][..i] == fields[..i];
      match field {
        case Text(text) =>
          if name !in form {
            form := form[name := text];
          }
        case File(fileName, tempFileName) =>
          var ext := UploadExtension(fileName);
          var digest := Hex.HexDump(env.md5(client + fileName + env.ctime(now)));
          var path := TEMP_DIRECTORY + ("/" + digest + ext);
          moves := moves + [(tempFileName, path)];
          if name !in form {
            form := form[name := path];
          }
      }
    }
    assert fields[..|fields|] == fields;
  }

  /**
   * The form entry of an uploaded field whose name appears neither in the
   * query nor in an earlier field: the text of a text field; for a file,
   * "temp/", the 32 hex digits of the digest of client, file name and time
   * text, then the extension.
   */
  lemma UploadFieldValue(env: Env, client: string, fields: seq<(string, Field)>, form0: map<string, string>,
                         now: int, i: nat)
    requires i < |fields| && fields[i].0 !in form0
    requires forall j :: 0 <= j < i ==> fields[j].0 != fields[i].0
    requires fields[i].1.File? ==> |fields[i].1.fileName| <= NPOS
    ensures var form := Inserted(form0, FormPairs(env, client, fields, now));
      && fields[i].0 in form
      && (fields[i].1.Text? ==> form[fields[i].0] == fields[i].1.text)
      && (fields[i].1.File? ==>
            var path := form[fields[i].0];
            var name := fields[i].1.fileName;
            && |path| == 37 + |Ext(name)|
            && path[..5] == "temp/"
            && path[5..37] == Hex.Encode(env.md5(client + name + env.ctime(now)))
            && path[37..] == Ext(name))
  {
    var pairs := FormPairs(env, client, fields, now);
    forall j | 0 <= j < i
      ensures pairs[j].0 != pairs[i].0
    {
    }
    FirstWins(form0, pairs, i);
    if fields[i].1.File? {
      UploadPathShape(env.md5, env.ctime, client, fields[i].1.fileName, now);
    }
  }

  /** The cookie map after parsing each present `Cookie` header in turn with ';' as separator. */
  function CookieJar(env: Env, headers: seq<Option<string>>): map<string, string>
  {
    if headers == [] then map[]
    else
      var jar := CookieJar(env, headers[..|headers| - 1]);
      var h := headers[|headers| - 1];
      if h.Some? then env.parseParam(h.value, ';', jar) else jar
  }

  /** A header whose value is NULL contributes nothing. */
  lemma {:induction false} AbsentCookieSkipped(env: Env, headers: seq<Option<string>>, i: nat)
    requires i < |headers| && headers[i].None?
    ensures CookieJar(env, headers) == CookieJar(env, headers[..i] + headers[i + 1..])
  {
    var rest := headers[..i] + headers[i + 1..];
    if i == |headers| - 1 {
      assert headers[..|headers| - 1] == rest;
    } else {
      var shorter := headers[..|headers| - 1];
      AbsentCookieSkipped(env, shorter, i);
      assert shorter[..i] + shorter[i + 1..] == rest[..|rest| - 1];
      assert rest[|rest| - 1] == headers[|headers| - 1];
    }
  }

  /** The cookie loop of lines 516-523. */
  method ParseCookies(env: Env, headers: seq<Option<string>>) returns (jar: map<string, string>)
    ensures jar == CookieJar(env, headers)
  {
    jar := map[];
    for i := 0 to |headers|
      invariant jar == CookieJar(env, headers[..i])
    {
      assert headers[..i + 1][..i] == headers[..i];
      if headers[i].Some? {
        jar := env.parseParam(headers[i].value, ';', jar);
      }
    }
    assert headers[..|headers|] == headers;
  }

  /** The outcome of reading the body into the form. */
  datatype Ingested = Ingested(form: map<string, string>, moves: seq<(string, string)>)
                    | UploadError(message: string)
                    | NoContentType

  /**
   * Lines 475-515: without a body the form is unchanged; a urlencoded body is
   * parsed into it; any other body goes to the multipart parser when the
   * temporary directory is there, whose failure ends the request.
   */
  function BodyForm(env: Env, raw: RawRequest, form0: map<string, string>, now: int): (r: Ingested)
    ensures raw.contentLength <= 0 ==> r == Ingested(form0, [])
    ensures r.NoContentType? <==> raw.contentLength > 0 && raw.contentType.None?
    // only a multipart upload with the temporary directory present can fail or move files
    ensures (r.UploadError? || (r.Ingested? && r.moves != [])) ==>
      && raw.contentLength > 0 && raw.contentType.Some? && !IsUrlEncoded(raw.contentType.value) && env.tempDirReady
      && env.multipart(raw.contentType.value, BodyText(raw.body), raw.maxBodySize).Parsed? == r.Ingested?
    ensures r.UploadError? ==>
      env.multipart(raw.contentType.value, BodyText(raw.body), raw.maxBodySize) == ParseError(r.message)
    // a body that is neither urlencoded nor uploadable leaves the form as it was
    ensures raw.contentLength > 0 && raw.contentType.Some? && !IsUrlEncoded(raw.contentType.value) && !env.tempDirReady ==>
      r == Ingested(form0, [])
  {
    if raw.contentLength <= 0 then Ingested(form0, [])
    else if raw.contentType.None? then NoContentType
    else
      var body := BodyText(raw.body);
      var ct := raw.contentType.value;
      if IsUrlEncoded(ct) then Ingested(env.parseParam(body, '&', form0), [])
      else if !env.tempDirReady then Ingested(form0, [])
      else
        match env.multipart(ct, body, raw.maxBodySize)
        case ParseError(message) => UploadError(message)
        case Parsed(fields) =>
          Ingested(Inserted(form0, FormPairs(env, raw.client, fields, now)), Moves(env, raw.client, fields, now))
  }

  /** The request as built, with the file renames it performed; or why building stopped. */
  datatype Built = Built(req: Request, moves: seq<(string, string)>)
                 | UploadFailed(message: string)
                 | Stuck(hazard: Hazard)

  /** Lines 474-476: the query string, when there is one, parsed into the form. */
  function QueryForm(env: Env, raw: RawRequest): map<string, string>
  {
    if |raw.args| > 0 then env.parseParam(raw.args, '&', map[]) else map[]
  }

  function BuildRequest(env: Env, conf: Config.LocConf, raw: RawRequest, now: int): (b: Built)
    requires WellFormed(raw)
    ensures b.Built? ==> b.req.uri == raw.uri && b.req.session == map[] && |b.req.uri| < NPOS
    ensures b.Stuck? <==> raw.userAgent.None? || (raw.contentLength > 0 && raw.contentType.None?)
    ensures b.Stuck? ==> b.hazard == (if raw.userAgent.None? then UserAgentMissing else ContentTypeMissing)
    ensures b.UploadFailed? ==> BodyForm(env, raw, QueryForm(env, raw), now) == UploadError(b.message)
    ensures b.Built? ==>
      && b.req.param == raw.args && b.req.methodName == raw.methodName && b.req.client == raw.client
      && Some(b.req.userAgent) == raw.userAgent
      && (conf.needHeaders != 1 ==> b.req.headers == map[])
      && (conf.needCookies != 1 ==> b.req.cookies == map[])
      && BodyForm(env, raw, QueryForm(env, raw), now) == Ingested(b.req.form, b.moves)
  {
    if raw.userAgent.None? then Stuck(UserAgentMissing)
    else
      match BodyForm(env, raw, QueryForm(env, raw), now)
      case NoContentType => Stuck(ContentTypeMissing)
      case UploadError(message) => UploadFailed(message)
      case Ingested(form, moves) =>
        var headers := if conf.needHeaders == 1 then Assigned(Flatten(raw.headerParts)) else map[];
        var cookies := if conf.needCookies == 1 then CookieJar(env, raw.cookieHeaders) else map[];
        Built(Request(raw.uri, raw.args, raw.methodName, raw.client, raw.userAgent.value,
                      headers, form, cookies, map[]), moves)
  }

  /** Lines 465-523, in the source's order. */
  method ReadRequest(env: Env, conf: Config.LocConf, raw: RawRequest, now: int) returns (b: Built)
    requires WellFormed(raw)
    ensures b == BuildRequest(env, conf, raw, now)
  {
    var headers := map[];
    if conf.needHeaders == 1 {
      headers := InputHeaders(raw.headerParts);
    }
    if raw.userAgent.None? {
      return Stuck(UserAgentMissing);
    }
    var form := map[];
    if |raw.args| > 0 {
      form := env.parseParam(raw.args, '&', form);
    }
    var moves := [];
    if raw.contentLength > 0 {
      var body := GetInputBody(raw.body);
      if raw.contentType.None? {
        return Stuck(ContentTypeMissing);
      }
      var ct := raw.contentType.value;
      if !IsUrlEncoded(ct) {
        if env.tempDirReady {
          match env.multipart(ct, body, raw.maxBodySize) {
            case ParseError(message) =>
              return UploadFailed(message);
            case Parsed(fields) =>
              form, moves := IngestFields(env, raw.client, fields, form, now);
          }
        }
      } else {
        form := env.parseParam(body, '&', form);
      }
    }
    var cookies := map[];
    if conf.needCookies == 1 && |raw.cookieHeaders| != 0 {
      cookies := ParseCookies(env, raw.cookieHeaders);
    }
    b := Built(Request(raw.uri, raw.args, raw.methodName, raw.client, raw.userAgent.value,
                       headers, form, cookies, map[]), moves);
  }

  /** A multipart parser failure ends building with the parser's message, whatever else the request holds. */
  lemma ParseFailureStops(env: Env, conf: Config.LocConf, raw: RawRequest, now: int, message: string)
    requires WellFormed(raw) && raw.userAgent.Some? && raw.contentLength > 0 && raw.contentType.Some?
    requires !IsUrlEncoded(raw.contentType.value) && env.tempDirReady
    requires env.multipart(raw.contentType.value, BodyText(raw.body), raw.maxBodySize) == ParseError(message)
    ensures BuildRequest(env, conf, raw, now) == UploadFailed(message)
  {
  }

  /** Without a body, the form holds the query parameters only and nothing is renamed. */
  lemma NoBodyNoUploads(env: Env, conf: Config.LocConf, raw: RawRequest, now: int)
    requires WellFormed(raw) && raw.userAgent.Some? && raw.contentLength <= 0
    ensures var b := BuildRequest(env, conf, raw, now);
      && b.Built? && b.moves == []
      && b.req.form == (if |raw.args| > 0 then env.parseParam(raw.args, '&', map[]) else map[])
  {
  }
}
