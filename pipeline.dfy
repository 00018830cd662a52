/**
 * `ngx_http_hi_normal_handler` (lines 410-600): the If-Modified-Since
 * shortcut, the response cache protocol, building the request, the session
 * bridge, the backend, the cache write-back, the session write-back and the
 * response handed to nginx.
 */
module Pipeline {
  import opened Base
  import opened Host
  import opened Config
  import opened Headers
  import opened Ingest
  import opened Backend
  import Hex
  import Lru
  import Session
  import Worker

  /** What the handler leaves nginx with. */
  datatype Outcome =
    | NotModified
    | Sent(status: int, headers: seq<Header>, contentLength: nat, content: string)
    | Undefined(hazard: Hazard)
    | Unhandled

  const CONTENT_TYPE: string := "Content-Type"
  const LAST_MODIFIED: string := "Last-Modified"

  /** Lines 414-418: the client's copy is recent enough by its own date. */
  predicate FreshForClient(env: Env, conf: LocConf, raw: RawRequest, now: int)
  {
    raw.ifModifiedSince.Some? && now - env.parseTime(raw.ifModifiedSince.value) <= conf.cacheExpires
  }

  /** The text the cache key digests: the uri, then `?` and the query when there is one. */
  function KeyText(uri: string, args: string): string
  {
    if |args| > 0 then uri + "?" + args else uri
  }

  function CacheKeyOf(env: Env, raw: RawRequest): string
  {
    Hex.Encode(env.md5(KeyText(raw.uri, raw.args)))
  }

  /** Lines 431-449. */
  method CacheKey(env: Env, raw: RawRequest) returns (key: string)
    ensures key == CacheKeyOf(env, raw)
  {
    var text := raw.uri;
    if |raw.args| > 0 {
      text := text + "?" + raw.args;
    }
    key := Hex.HexDump(env.md5(text));
  }

  /** A key is 32 lowercase hex digits that decode back to the digest of the key text. */
  lemma CacheKeyShape(env: Env, raw: RawRequest)
    ensures |CacheKeyOf(env, raw)| == 32 && Hex.IsHexText(CacheKeyOf(env, raw))
    ensures Hex.Decode(CacheKeyOf(env, raw)) == env.md5(KeyText(raw.uri, raw.args))
  {
    Hex.DigestText(env.md5(KeyText(raw.uri, raw.args)));
    Hex.DecodeEncode(env.md5(KeyText(raw.uri, raw.args)));
  }

  /** Where the first `?` of a key text can be. */
  lemma QuestionMarkAt(uri: string, args: string)
    requires '?' !in uri
    ensures forall i :: 0 <= i < |uri| ==> KeyText(uri, args)[i] != '?'
    ensures |args| > 0 ==> |KeyText(uri, args)| > |uri| && KeyText(uri, args)[|uri|] == '?'
    ensures |args| == 0 ==> '?' !in KeyText(uri, args)
  {
  }

  /** For uris without `?`, different uri/query pairs give different key texts. */
  lemma KeyTextSeparates(uri1: string, args1: string, uri2: string, args2: string)
    requires '?' !in uri1 && '?' !in uri2
    requires KeyText(uri1, args1) == KeyText(uri2, args2)
    ensures uri1 == uri2 && args1 == args2
  {
    var t := KeyText(uri1, args1);
    QuestionMarkAt(uri1, args1);
    QuestionMarkAt(uri2, args2);
    if |args1| > 0 {
      assert |args2| > 0 && |uri1| == |uri2|;
      assert uri1 == t[..|uri1|] && uri2 == t[..|uri2|];
      assert args1 == t[|uri1| + 1..] && args2 == t[|uri2| + 1..];
    }
  }

  /**
   * A decoded `?` in the path collides with a query: the uri `u?q` without a
   * query and the uri `u` with the query `q` share a key, for every `u` and
   * every non-empty `q`.
   */
  lemma KeyTextCollision(env: Env, pathOnly: RawRequest, withQuery: RawRequest)
    requires |withQuery.args| > 0 && pathOnly.args == ""
    requires pathOnly.uri == withQuery.uri + "?" + withQuery.args
    ensures KeyText(pathOnly.uri, pathOnly.args) == KeyText(withQuery.uri, withQuery.args)
    ensures CacheKeyOf(env, pathOnly) == CacheKeyOf(env, withQuery)
  {
  }

  /** An entry stamped `t` is served while no more than `expires` seconds have passed. */
  predicate FreshHit(entries: map<string, Lru.CacheEntry>, key: string, expires: int, now: int)
  {
    key in entries && now - entries[key].t <= expires
  }

  /** Lines 451-462: a fresh entry is returned untouched, a stale one erased. */
  method Lookup(c: Lru.LruCache, key: string, expires: int, now: int) returns (hit: Option<Lru.CacheEntry>)
    requires c.Valid()
    modifies c
    ensures c.Valid()
    ensures FreshHit(old(c.entries), key, expires, now) ==> hit == Some(old(c.entries)[key]) && c.entries == old(c.entries)
    ensures !FreshHit(old(c.entries), key, expires, now) ==> hit == None && c.entries == old(c.entries) - {key}
  {
    hit := None;
    var present := c.Exists(key);
    if present {
      var e := c.Get(key);
      if now - e.t > expires {
        c.Erase(key);
      } else {
        hit := Some(e);
      }
    } else {
      assert old(c.entries) - {key} == old(c.entries);
    }
  }

  /** The response handed to nginx: status, the existing output headers then every response header, and the body. */
  function Emit(raw: RawRequest, res: Response): Outcome
  {
    Sent(res.status, raw.headersOut + res.headers, |res.content|, res.content)
  }

  /** Lines 566-599. */
  method Assemble(raw: RawRequest, res: Response) returns (out: Outcome)
    ensures out == Emit(raw, res)
  {
    var headers := OutputHeaders(raw.headersOut, res.headers);
    out := Sent(res.status, headers, |res.content|, res.content);
  }

  /** The response before the cache is consulted: fresh, plus `Last-Modified` on a caching location. */
  function Initial(env: Env, conf: LocConf): (res: Response)
    ensures res.status == 200 && res.content == "" && res.session == map[]
    ensures |env.initialHeaders| <= |res.headers| && res.headers[..|env.initialHeaders|] == env.initialHeaders
    ensures ValueOf(res.headers[|env.initialHeaders|..], LAST_MODIFIED).Some? <==> conf.needCache == 1
    ensures conf.needCache == 1 ==> res.headers[|env.initialHeaders|..] == [(LAST_MODIFIED, env.httpTime)]
  {
    var res := NewResponse(env);
    if conf.needCache == 1 then res.(headers := res.headers + [(LAST_MODIFIED, env.httpTime)]) else res
  }

  /** Lines 457-460: the stored status, content and content type replace the response's; no Content-Type header to overwrite is undefined. */
  function HitOutcome(env: Env, conf: LocConf, raw: RawRequest, e: Lru.CacheEntry): (out: Outcome)
    ensures out.Undefined? <==> ValueOf(Initial(env, conf).headers, CONTENT_TYPE).None?
    ensures out.Undefined? ==> out.hazard == ContentTypeHeaderMissing
    ensures out.Sent? ==> out.status == e.status && out.content == e.content && out.contentLength == |e.content|
  {
    var res := Initial(env, conf);
    match SetValue(res.headers, CONTENT_TYPE, e.contentType)
    case None => Undefined(ContentTypeHeaderMissing)
    case Some(headers) => Emit(raw, Response(e.status, headers, e.content, res.session))
  }

  /** A hit serves exactly what was stored: status, content, its length and content type. */
  lemma HitServesStored(env: Env, conf: LocConf, raw: RawRequest, e: Lru.CacheEntry)
    requires ValueOf(Initial(env, conf).headers, CONTENT_TYPE).Some?
    ensures var out := HitOutcome(env, conf, raw, e);
      && out.Sent? && out.status == e.status && out.content == e.content && out.contentLength == |e.content|
      && |raw.headersOut| <= |out.headers|
      && ValueOf(out.headers[|raw.headersOut|..], CONTENT_TYPE) == Some(e.contentType)
  {
    var out := HitOutcome(env, conf, raw, e);
    var headers := SetValue(Initial(env, conf).headers, CONTENT_TYPE, e.contentType).value;
    assert out.headers[|raw.headersOut|..] == headers;
  }

  /**
   * Lines 554-561: the response is stored under the key with the current
   * time, its status, content and first Content-Type; without a Content-Type
   * header the read is undefined and nothing is stored.
   */
  method Persist(c: Lru.LruCache, key: string, res: Response, now: int) returns (stored: bool)
    requires c.Valid()
    modifies c
    ensures c.Valid()
    ensures stored <==> ValueOf(res.headers, CONTENT_TYPE).Some?
    ensures stored ==> Lru.PutOutcome(old(c.entries), c.entries, key,
                                      Lru.CacheEntry(res.status, now, ValueOf(res.headers, CONTENT_TYPE).value, res.content),
                                      c.capacity)
    ensures !stored ==> c.entries == old(c.entries)
  {
    var ct := ValueOf(res.headers, CONTENT_TYPE);
    stored := ct.Some?;
    if stored {
      c.Put(key, Lru.CacheEntry(res.status, now, ct.value, res.content));
    }
  }

  /**
   * A stored response is served to a repeat of the request within the
   * expiry window, unless the cache has no room at all.
   */
  lemma RepeatWithinExpiry(before: map<string, Lru.CacheEntry>, after: map<string, Lru.CacheEntry>,
                           key: string, e: Lru.CacheEntry, capacity: nat, expires: int, later: int)
    requires Lru.PutOutcome(before, after, key, e, capacity)
    requires capacity > 0 && later - e.t <= expires
    ensures FreshHit(after, key, expires, later) && after[key] == e
  {
  }

  /** What the session store holds. */
  datatype StoreState = StoreState(connected: bool, records: map<string, map<string, string>>, ttl: map<string, int>)

  ghost function StateOf(store: Session.SessionStore): StoreState
    reads store
  {
    StoreState(store.connected, store.records, store.ttl)
  }

  /** The store after the session bridge, the session id in use ("" when none) and the request's session. */
  datatype Opening = Opening(state: StoreState, sid: string, session: map<string, string>)

  /**
   * Lines 524-541: with sessions on and a session cookie, connect when not
   * connected; once connected, seed an unknown id with `{SESSIONID: id}` and
   * its expiry, or load a known id's record.
   */
  function Open(st: StoreState, env: Env, conf: LocConf, cookies: map<string, string>): Opening
  {
    if conf.needSession == 1 && Session.SESSION_ID_NAME in cookies then
      var connected := st.connected
                       || (Given(conf.redisHost) && conf.redisPort > 0 && env.connects(conf.redisHost.value, conf.redisPort));
      if !connected then Opening(st, "", map[])
      else
        var sid := cookies[Session.SESSION_ID_NAME];
        if sid in st.records then Opening(st.(connected := true), sid, st.records[sid])
        else
          Opening(StoreState(true, st.records[sid := map[Session.SESSION_ID_NAME := sid]],
                             st.ttl[sid := conf.sessionExpires]),
                  sid, map[Session.SESSION_ID_NAME := sid])
    else Opening(st, "", map[])
  }

  /** Lines 562-564: the response's session is merged into the record of a known id. */
  function Close(st: StoreState, sid: string, session: map<string, string>): StoreState
  {
    if st.connected && sid != "" && session != map[]
    then st.(records := st.records[sid := Session.Record(st.records, sid) + session])
    else st
  }

  /** Lines 524-541: seed an unknown session id or load a known one, connecting to the store on the way when possible. */
  method SessionIn(store: Session.SessionStore, env: Env, conf: LocConf, cookies: map<string, string>)
    returns (sid: string, session: map<string, string>)
    modifies store
    ensures Opening(StateOf(store), sid, session) == Open(old(StateOf(store)), env, conf, cookies)
    ensures !(conf.needSession == 1 && Session.SESSION_ID_NAME in cookies) ==>
      sid == "" && session == map[] && StateOf(store) == old(StateOf(store))
    ensures conf.needSession == 1 && Session.SESSION_ID_NAME in cookies ==>
      && store.connected == (old(store.connected)
                             || (Given(conf.redisHost) && conf.redisPort > 0
                                 && env.connects(conf.redisHost.value, conf.redisPort)))
      && (!store.connected ==> sid == "" && session == map[] && store.records == old(store.records) && store.ttl == old(store.ttl))
      && (store.connected ==>
            && sid == cookies[Session.SESSION_ID_NAME]
            && if sid in old(store.records) then
                 session == old(store.records)[sid] && store.records == old(store.records) && store.ttl == old(store.ttl)
               else
                 && store.records == old(store.records)[sid := map[Session.SESSION_ID_NAME := sid]]
                 && store.ttl == old(store.ttl)[sid := conf.sessionExpires]
                 && session == map[Session.SESSION_ID_NAME := sid])
  {
    sid, session := "", map[];
    if conf.needSession == 1 && Session.SESSION_ID_NAME in cookies {
      if !store.connected && Given(conf.redisHost) && conf.redisPort > 0 {
        store.Connect(env.connects(conf.redisHost.value, conf.redisPort));
      }
      if store.connected {
        sid := cookies[Session.SESSION_ID_NAME];
        var known := store.Exists(sid);
        if !known {
          store.HSet(sid, Session.SESSION_ID_NAME, sid);
          store.Expire(sid, conf.sessionExpires);
          session := session[Session.SESSION_ID_NAME := sid];
        } else {
          session := store.HGetAll(sid);
        }
      }
    }
  }

  /** Lines 562-564: the response's whole session map is written back under a known id. */
  method SessionOut(store: Session.SessionStore, sid: string, session: map<string, string>)
    modifies store
    ensures StateOf(store) == Close(old(StateOf(store)), sid, session)
    ensures store.connected == old(store.connected) && store.ttl == old(store.ttl)
    ensures store.records == if old(store.connected) && sid != "" && session != map[]
                             then old(store.records)[sid := Session.Record(old(store.records), sid) + session]
                             else old(store.records)
  {
    if store.connected && sid != "" {
      store.HMSet(sid, session);
    }
  }

  /** What the handler does to the location's cache. */
  datatype CacheStep = Kept | Erased | Stored(entry: Lru.CacheEntry)

  /** The cache went from `before` to `after` as `step` says; which entry a put evicts is left open. */
  ghost predicate CacheMatches(step: CacheStep, key: string, before: map<string, Lru.CacheEntry>,
                               after: map<string, Lru.CacheEntry>, capacity: nat)
  {
    match step
    case Kept => after == before
    case Erased => after == before - {key}
    case Stored(e) => Lru.PutOutcome(before, after, key, e, capacity)
  }

  /** Everything a request leaves behind: what nginx gets, the session store, and the cache step. */
  datatype Effect = Effect(out: Outcome, store: StoreState, cache: CacheStep)

  /** Line 554: the response goes into the cache. */
  predicate PutsResponse(conf: LocConf, res: Response)
  {
    res.status == 200 && conf.needCache == 1 && conf.cacheExpires > 0
  }

  /** Lines 554-599 once the backend has returned. */
  function FinishEffect(conf: LocConf, raw: RawRequest, now: int, st: StoreState, sid: string, res: Response): (r: Effect)
    ensures !r.cache.Erased? && (r.cache.Stored? ==> conf.needCache == 1)
  {
    if PutsResponse(conf, res) then
      match ValueOf(res.headers, CONTENT_TYPE)
      case None => Effect(Undefined(ContentTypeHeaderMissing), st, Kept)
      case Some(ct) => Effect(Emit(raw, res), Close(st, sid, res.session), Stored(Lru.CacheEntry(200, now, ct, res.content)))
    else Effect(Emit(raw, res), Close(st, sid, res.session), Kept)
  }

  /** What the location's backend does with the request, which carries the session the bridge loaded. */
  function BackendReply(env: Env, conf: LocConf, plugins: seq<string>, st: StoreState, req: Request, res0: Response): Reply
    requires |req.uri| < NPOS
    requires conf.appType == Cpp ==> 0 <= conf.moduleIndex < |plugins|
  {
    ReplyFor(env, CallFor(env, conf, plugins, req.uri), req.(session := Open(st, env, conf, req.cookies).session), res0)
  }

  /** Lines 524-599 for a built request. */
  function RunEffect(env: Env, conf: LocConf, plugins: seq<string>, st: StoreState, raw: RawRequest, now: int,
                     req: Request, res0: Response): (r: Effect)
    requires |req.uri| < NPOS
    requires conf.appType == Cpp ==> 0 <= conf.moduleIndex < |plugins|
    ensures !r.cache.Erased? && (r.cache.Stored? ==> conf.needCache == 1)
  {
    var o := Open(st, env, conf, req.cookies);
    match BackendReply(env, conf, plugins, st, req, res0)
    case Threw => Effect(Unhandled, o.state, Kept)
    case Returned(res) => FinishEffect(conf, raw, now, o.state, o.sid, res)
  }

  /** Lines 465-599 after a miss. */
  function ServeEffect(env: Env, conf: LocConf, plugins: seq<string>, st: StoreState, raw: RawRequest, now: int,
                       res0: Response): (r: Effect)
    requires WellFormed(raw)
    requires conf.appType == Cpp ==> 0 <= conf.moduleIndex < |plugins|
    ensures !r.cache.Erased? && (r.cache.Stored? ==> conf.needCache == 1)
  {
    match BuildRequest(env, conf, raw, now)
    case Stuck(hazard) => Effect(Undefined(hazard), st, Kept)
    case UploadFailed(message) => Effect(Emit(raw, res0.(status := 500, content := message)), st, Kept)
    case Built(req, _) => RunEffect(env, conf, plugins, st, raw, now, req, res0)
  }

  /** Neither the client's copy nor a cache entry answers the request. */
  predicate Misses(env: Env, conf: LocConf, raw: RawRequest, now: int, entries: map<string, Lru.CacheEntry>)
  {
    && !FreshForClient(env, conf, raw, now)
    && !(conf.needCache == 1 && FreshHit(entries, CacheKeyOf(env, raw), conf.cacheExpires, now))
  }

  /**
   * The whole handler as a function of the worker's state before it: the
   * location's cache entries (empty when it does not cache) and the store.
   */
  function Expected(env: Env, conf: LocConf, plugins: seq<string>, entries: map<string, Lru.CacheEntry>,
                    st: StoreState, raw: RawRequest, now: int): Effect
    requires WellFormed(raw)
    requires conf.appType == Cpp ==> 0 <= conf.moduleIndex < |plugins|
  {
    if FreshForClient(env, conf, raw, now) then Effect(NotModified, st, Kept)
    else if conf.needCache == 1 && FreshHit(entries, CacheKeyOf(env, raw), conf.cacheExpires, now) then
      Effect(HitOutcome(env, conf, raw, entries[CacheKeyOf(env, raw)]), st, Kept)
    else
      var e := ServeEffect(env, conf, plugins, st, raw, now, Initial(env, conf));
      if conf.needCache == 1 && e.cache.Kept? then e.(cache := Erased) else e
  }

  /** On a miss the handler is the rest of the pipeline, after the stale entry is erased. */
  lemma ExpectedOnMiss(env: Env, conf: LocConf, plugins: seq<string>, entries: map<string, Lru.CacheEntry>,
                       st: StoreState, raw: RawRequest, now: int)
    requires WellFormed(raw) && (conf.appType == Cpp ==> 0 <= conf.moduleIndex < |plugins|)
    requires Misses(env, conf, raw, now, entries)
    ensures var e := ServeEffect(env, conf, plugins, st, raw, now, Initial(env, conf));
      Expected(env, conf, plugins, entries, st, raw, now) == if conf.needCache == 1 && e.cache.Kept? then e.(cache := Erased) else e
  {
  }

  /** A cache step after the stale entry was erased, seen from before the erase. */
  lemma CacheAfterMiss(conf: LocConf, step: CacheStep, key: string, before: map<string, Lru.CacheEntry>,
                       mid: map<string, Lru.CacheEntry>, after: map<string, Lru.CacheEntry>, capacity: nat)
    requires !step.Erased? && (step.Stored? ==> conf.needCache == 1)
    requires conf.needCache == 1 ==> mid == before - {key}
    requires conf.needCache != 1 ==> mid == before
    requires CacheMatches(step, key, mid, after, capacity)
    ensures CacheMatches(if conf.needCache == 1 && step.Kept? then Erased else step, key, before, after, capacity)
  {
    if step.Stored? {
      Lru.PutIgnoresPrior(before, after, key, step.entry, capacity);
    }
  }

  /** If-Modified-Since within the expiry answers 304 before anything else, and nothing changes. */
  lemma NotModifiedFirst(env: Env, conf: LocConf, plugins: seq<string>, entries: map<string, Lru.CacheEntry>,
                         st: StoreState, raw: RawRequest, now: int)
    requires WellFormed(raw) && (conf.appType == Cpp ==> 0 <= conf.moduleIndex < |plugins|)
    requires FreshForClient(env, conf, raw, now)
    ensures Expected(env, conf, plugins, entries, st, raw, now) == Effect(NotModified, st, Kept)
  {
  }

  /** A fresh cache entry answers the request; the store and the cache are left alone. */
  lemma HitAnswers(env: Env, conf: LocConf, plugins: seq<string>, entries: map<string, Lru.CacheEntry>,
                   st: StoreState, raw: RawRequest, now: int)
    requires WellFormed(raw) && (conf.appType == Cpp ==> 0 <= conf.moduleIndex < |plugins|)
    requires !FreshForClient(env, conf, raw, now) && conf.needCache == 1
    requires FreshHit(entries, CacheKeyOf(env, raw), conf.cacheExpires, now)
    ensures Expected(env, conf, plugins, entries, st, raw, now)
            == Effect(HitOutcome(env, conf, raw, entries[CacheKeyOf(env, raw)]), st, Kept)
  {
  }

  /** A multipart failure answers 500 with the parser's message; the store is untouched and only the stale entry is gone. */
  lemma UploadFailureAnswered(env: Env, conf: LocConf, plugins: seq<string>, entries: map<string, Lru.CacheEntry>,
                              st: StoreState, raw: RawRequest, now: int)
    requires WellFormed(raw) && (conf.appType == Cpp ==> 0 <= conf.moduleIndex < |plugins|)
    requires Misses(env, conf, raw, now, entries) && BuildRequest(env, conf, raw, now).UploadFailed?
    ensures Expected(env, conf, plugins, entries, st, raw, now)
            == Effect(Emit(raw, Initial(env, conf).(status := 500, content := BuildRequest(env, conf, raw, now).message)),
                      st, if conf.needCache == 1 then Erased else Kept)
  {
  }

  /**
   * On a miss with a built request, the configured backend runs on the
   * request carrying the loaded session. Its response is what nginx gets and
   * its session is written back; a 200 response on a caching location is
   * stored, and one without a Content-Type header is undefined.
   */
  lemma BackendAnswers(env: Env, conf: LocConf, plugins: seq<string>, entries: map<string, Lru.CacheEntry>,
                       st: StoreState, raw: RawRequest, now: int)
    requires WellFormed(raw) && (conf.appType == Cpp ==> 0 <= conf.moduleIndex < |plugins|)
    requires Misses(env, conf, raw, now, entries) && BuildRequest(env, conf, raw, now).Built?
    ensures var req := BuildRequest(env, conf, raw, now).req;
      var o := Open(st, env, conf, req.cookies);
      var reply := ReplyFor(env, CallFor(env, conf, plugins, raw.uri), req.(session := o.session), Initial(env, conf));
      var eff := Expected(env, conf, plugins, entries, st, raw, now);
      && (reply.Threw? ==> eff.out == Unhandled && eff.store == o.state)
      && (reply.Returned? && !(PutsResponse(conf, reply.res) && ValueOf(reply.res.headers, CONTENT_TYPE).None?) ==>
            eff.out == Emit(raw, reply.res) && eff.store == Close(o.state, o.sid, reply.res.session))
      && (reply.Returned? && PutsResponse(conf, reply.res) && ValueOf(reply.res.headers, CONTENT_TYPE).None? ==>
            eff.out == Undefined(ContentTypeHeaderMissing) && eff.store == o.state)
      && (reply.Returned? && PutsResponse(conf, reply.res) && ValueOf(reply.res.headers, CONTENT_TYPE).Some? ==>
            eff.cache == Stored(Lru.CacheEntry(200, now, ValueOf(reply.res.headers, CONTENT_TYPE).value, reply.res.content)))
      && (!(reply.Returned? && PutsResponse(conf, reply.res)) ==>
            eff.cache == if conf.needCache == 1 then Erased else Kept)
  {
  }

  /** What is stored is exactly the 200 response that was sent, with its Content-Type. */
  lemma StoredIsSent(env: Env, conf: LocConf, plugins: seq<string>, entries: map<string, Lru.CacheEntry>,
                     st: StoreState, raw: RawRequest, now: int)
    requires WellFormed(raw) && (conf.appType == Cpp ==> 0 <= conf.moduleIndex < |plugins|)
    requires Expected(env, conf, plugins, entries, st, raw, now).cache.Stored?
    ensures var eff := Expected(env, conf, plugins, entries, st, raw, now);
      && Misses(env, conf, raw, now, entries) && conf.needCache == 1 && conf.cacheExpires > 0
      && eff.out.Sent? && eff.out.status == 200 && |raw.headersOut| <= |eff.out.headers|
      && eff.cache.entry.status == 200 && eff.cache.entry.t == now && eff.cache.entry.content == eff.out.content
      && ValueOf(eff.out.headers[|raw.headersOut|..], CONTENT_TYPE) == Some(eff.cache.entry.contentType)
  {
    var eff := Expected(env, conf, plugins, entries, st, raw, now);
    var req := BuildRequest(env, conf, raw, now).req;
    var res := BackendReply(env, conf, plugins, st, req, Initial(env, conf)).res;
    assert eff.out == Emit(raw, res);
    assert eff.out.headers[|raw.headersOut|..] == res.headers;
  }

  /** A location without sessions never changes the store. */
  lemma SessionlessStoreKept(env: Env, conf: LocConf, plugins: seq<string>, entries: map<string, Lru.CacheEntry>,
                             st: StoreState, raw: RawRequest, now: int)
    requires WellFormed(raw) && (conf.appType == Cpp ==> 0 <= conf.moduleIndex < |plugins|)
    requires conf.needSession != 1
    ensures Expected(env, conf, plugins, entries, st, raw, now).store == st
  {
  }

  /** A PHP location never lets a fault escape the handler. */
  lemma PhpNeverUnhandled(env: Env, conf: LocConf, plugins: seq<string>, entries: map<string, Lru.CacheEntry>,
                          st: StoreState, raw: RawRequest, now: int)
    requires WellFormed(raw) && conf.appType == Php
    ensures Expected(env, conf, plugins, entries, st, raw, now).out != Unhandled
  {
    if Misses(env, conf, raw, now, entries) && BuildRequest(env, conf, raw, now).Built? {
      var req := BuildRequest(env, conf, raw, now).req;
      var o := Open(st, env, conf, req.cookies);
      PhpFaultContained(env, conf, plugins, req.(session := o.session), Initial(env, conf));
      var reply := BackendReply(env, conf, plugins, st, req, Initial(env, conf));
      assert reply.Returned?;
      var e := FinishEffect(conf, raw, now, o.state, o.sid, reply.res);
      assert ServeEffect(env, conf, plugins, st, raw, now, Initial(env, conf)) == e;
      ExpectedOnMiss(env, conf, plugins, entries, st, raw, now);
    }
  }

  /** The entries of the location's cache; empty when it does not cache. */
  ghost function Entries(w: Worker.Worker, conf: LocConf): map<string, Lru.CacheEntry>
    reads w, CacheFrame(w, conf)
    requires conf.needCache == 1 ==> 0 <= conf.cacheIndex < |w.caches|
  {
    if conf.needCache == 1 then w.caches[conf.cacheIndex].entries else map[]
  }

  /** The capacity of the location's cache; 0 when it does not cache. */
  function Capacity(w: Worker.Worker, conf: LocConf): nat
    reads w
    requires conf.needCache == 1 ==> 0 <= conf.cacheIndex < |w.caches|
  {
    if conf.needCache == 1 then w.caches[conf.cacheIndex].capacity else 0
  }

  function CacheFrame(w: Worker.Worker, conf: LocConf): set<object>
    reads w
    requires conf.needCache == 1 ==> 0 <= conf.cacheIndex < |w.caches|
  {
    if conf.needCache == 1 then {w.caches[conf.cacheIndex]} else {}
  }

  /**
   * Lines 414-462: the If-Modified-Since shortcut and the cache lookup. A
   * result in `stop` ends the request; otherwise the request goes on with
   * `res` and, on a caching location, `key`, after any stale entry is gone.
   */
  method Probe(w: Worker.Worker, env: Env, conf: LocConf, raw: RawRequest, now: int)
    returns (stop: Option<Outcome>, key: string, res: Response)
    requires w.Valid() && Worker.FitsIn(conf, w.plugins, |w.caches|)
    modifies CacheFrame(w, conf)
    ensures w.Valid()
    ensures conf.needCache == 1 && !FreshForClient(env, conf, raw, now) ==> key == CacheKeyOf(env, raw)
    ensures stop.Some? && stop.value.Sent? ==> stop.value == Emit(raw, res)
    ensures FreshForClient(env, conf, raw, now) ==> stop == Some(NotModified) && Entries(w, conf) == old(Entries(w, conf))
    ensures !FreshForClient(env, conf, raw, now) && conf.needCache == 1
            && FreshHit(old(Entries(w, conf)), key, conf.cacheExpires, now) ==>
      && stop == Some(HitOutcome(env, conf, raw, old(Entries(w, conf))[key]))
      && Entries(w, conf) == old(Entries(w, conf))
    ensures Misses(env, conf, raw, now, old(Entries(w, conf))) ==>
      && stop == None && res == Initial(env, conf)
      && (conf.needCache == 1 ==> Entries(w, conf) == old(Entries(w, conf)) - {key})
  {
    stop, key, res := None, "", NewResponse(env);
    if raw.ifModifiedSince.Some? {
      var since := env.parseTime(raw.ifModifiedSince.value);
      if now - since <= conf.cacheExpires {
        return Some(NotModified), key, res;
      }
    }
    res := Initial(env, conf);
    if conf.needCache == 1 {
      key := CacheKey(env, raw);
      var c := w.caches[conf.cacheIndex];
      var hit := Lookup(c, key, conf.cacheExpires, now);
      assert w.Valid() by { ValidAfter(w, c); }
      if hit.Some? {
        var headers := SetValue(res.headers, CONTENT_TYPE, hit.value.contentType);
        if headers.None? {
          return Some(Undefined(ContentTypeHeaderMissing)), key, res;
        }
        res := Response(hit.value.status, headers.value, hit.value.content, res.session);
        var out := Assemble(raw, res);
        stop := Some(out);
      }
    }
  }

  /**
   * Lines 465-599 after a miss: build the request, bridge the session, run
   * the backend, store a 200 response, write the session back and emit.
   */
  method Serve(w: Worker.Worker, env: Env, conf: LocConf, raw: RawRequest, now: int, key: string, res0: Response)
    returns (out: Outcome, moves: seq<(string, string)>, res: Response, ghost calls: seq<Invocation>)
    requires w.Valid() && WellFormed(raw) && Worker.FitsIn(conf, w.plugins, |w.caches|)
    modifies w, w.store, CacheFrame(w, conf)
    ensures w.Valid()
    ensures w.plugins == old(w.plugins) && w.caches == old(w.caches) && w.phpUp == old(w.phpUp)
    ensures out.Sent? ==> out == Emit(raw, res)
    ensures var eff := ServeEffect(env, conf, w.plugins, old(StateOf(w.store)), raw, now, res0);
      && out == eff.out && StateOf(w.store) == eff.store
      && CacheMatches(eff.cache, key, old(Entries(w, conf)), Entries(w, conf), Capacity(w, conf))
    ensures var b := BuildRequest(env, conf, raw, now);
      && (b.Built? ==>
            && calls == CallsFor(env, conf, w.plugins, raw) && moves == b.moves
            && var reply := BackendReply(env, conf, w.plugins, old(StateOf(w.store)), b.req, res0);
               reply.Returned? ==> res == reply.res)
      && (!b.Built? ==> calls == [] && moves == [])
  {
    moves, res, calls := [], res0, [];
    var built := ReadRequest(env, conf, raw, now);
    match built {
      case Stuck(hazard) =>
        return Undefined(hazard), moves, res, calls;
      case UploadFailed(message) =>
        res := res.(content := message, status := 500);
        out := Assemble(raw, res);
        return;
      case Built(req0, done) =>
        out, res, calls := Run(w, env, conf, raw, now, key, res0, req0);
        moves := done;
    }
  }

  /** Lines 524-599 for a built request: session bridge, backend, cache write-back, session write-back, output. */
  method Run(w: Worker.Worker, env: Env, conf: LocConf, raw: RawRequest, now: int, key: string, res0: Response,
             req0: Request)
    returns (out: Outcome, res: Response, ghost calls: seq<Invocation>)
    requires w.Valid() && |req0.uri| < NPOS && Worker.FitsIn(conf, w.plugins, |w.caches|)
    modifies w, w.store, CacheFrame(w, conf)
    ensures w.Valid()
    ensures w.plugins == old(w.plugins) && w.caches == old(w.caches) && w.phpUp == old(w.phpUp)
    ensures calls == (var call := CallFor(env, conf, w.plugins, req0.uri); if call.Some? then [call.value] else [])
    ensures out.Sent? ==> out == Emit(raw, res)
    ensures var eff := RunEffect(env, conf, w.plugins, old(StateOf(w.store)), raw, now, req0, res0);
      && out == eff.out && StateOf(w.store) == eff.store
      && CacheMatches(eff.cache, key, old(Entries(w, conf)), Entries(w, conf), Capacity(w, conf))
    ensures var reply := BackendReply(env, conf, w.plugins, old(StateOf(w.store)), req0, res0);
      reply.Returned? ==> res == reply.res
  {
    res := res0;
    var sid, reply;
    sid, reply, calls := Invoke(w, env, conf, req0, res0);
    if reply.Threw? {
      return Unhandled, res, calls;
    }
    res := reply.res;
    out := Finish(w, conf, raw, now, key, sid, res);
  }

  /** Lines 524-552: the session bridge, then the backend on the request carrying the loaded session. */
  method Invoke(w: Worker.Worker, env: Env, conf: LocConf, req0: Request, res0: Response)
    returns (sid: string, reply: Reply, ghost calls: seq<Invocation>)
    requires w.Valid() && |req0.uri| < NPOS && Worker.FitsIn(conf, w.plugins, |w.caches|)
    modifies w, w.store
    ensures w.Valid()
    ensures w.plugins == old(w.plugins) && w.caches == old(w.caches) && w.phpUp == old(w.phpUp)
    ensures calls == (var call := CallFor(env, conf, w.plugins, req0.uri); if call.Some? then [call.value] else [])
    ensures var o := Open(old(StateOf(w.store)), env, conf, req0.cookies);
      StateOf(w.store) == o.state && sid == o.sid
    ensures reply == BackendReply(env, conf, w.plugins, old(StateOf(w.store)), req0, res0)
  {
    var session;
    sid, session := SessionIn(w.store, env, conf, req0.cookies);
    reply, calls := Dispatch(w, env, conf, req0.(session := session), res0);
  }

  /** Lines 554-599 once the backend has returned: cache write-back, session write-back, output. */
  method Finish(w: Worker.Worker, conf: LocConf, raw: RawRequest, now: int, key: string, sid: string, res: Response)
    returns (out: Outcome)
    requires w.Valid() && Worker.FitsIn(conf, w.plugins, |w.caches|)
    modifies w.store, CacheFrame(w, conf)
    ensures w.Valid()
    ensures var eff := FinishEffect(conf, raw, now, old(StateOf(w.store)), sid, res);
      && out == eff.out && StateOf(w.store) == eff.store
      && CacheMatches(eff.cache, key, old(Entries(w, conf)), Entries(w, conf), Capacity(w, conf))
  {
    if res.status == 200 && conf.needCache == 1 && conf.cacheExpires > 0 {
      var c := w.caches[conf.cacheIndex];
      var stored := Persist(c, key, res, now);
      assert w.Valid() by { ValidAfter(w, c); }
      if !stored {
        return Undefined(ContentTypeHeaderMissing);
      }
    }
    SessionOut(w.store, sid, res.session);
    out := Assemble(raw, res);
  }

  /**
   * The handler. `res` is the final `hi::response` whenever one is emitted;
   * `moves` are the upload renames performed; `calls` the backend calls made.
   * What nginx gets, the store and the cache follow `Expected`.
   */
  method NormalHandler(w: Worker.Worker, env: Env, conf: LocConf, raw: RawRequest, now: int)
    returns (out: Outcome, moves: seq<(string, string)>, res: Response, ghost calls: seq<Invocation>)
    requires w.Valid() && WellFormed(raw) && Worker.FitsIn(conf, w.plugins, |w.caches|)
    modifies w, w.store, CacheFrame(w, conf)
    ensures w.Valid()
    ensures w.plugins == old(w.plugins) && w.caches == old(w.caches) && w.phpUp == old(w.phpUp)
    ensures out.Sent? ==> out == Emit(raw, res)
    ensures var eff := Expected(env, conf, w.plugins, old(Entries(w, conf)), old(StateOf(w.store)), raw, now);
      && out == eff.out && StateOf(w.store) == eff.store
      && CacheMatches(eff.cache, CacheKeyOf(env, raw), old(Entries(w, conf)), Entries(w, conf), Capacity(w, conf))
    // the backend is called, once, exactly on a miss with a built request
    ensures var b := BuildRequest(env, conf, raw, now);
      && (Misses(env, conf, raw, now, old(Entries(w, conf))) && b.Built? ==>
            && calls == CallsFor(env, conf, w.plugins, raw) && moves == b.moves
            && var reply := BackendReply(env, conf, w.plugins, old(StateOf(w.store)), b.req, Initial(env, conf));
               reply.Returned? ==> res == reply.res)
      && (!(Misses(env, conf, raw, now, old(Entries(w, conf))) && b.Built?) ==> calls == [] && moves == [])
  {
    ghost var entries0, st0 := Entries(w, conf), StateOf(w.store);
    var stop, key;
    stop, key, res := Probe(w, env, conf, raw, now);
    if stop.Some? {
      if FreshForClient(env, conf, raw, now) {
        NotModifiedFirst(env, conf, w.plugins, entries0, st0, raw, now);
      } else {
        HitAnswers(env, conf, w.plugins, entries0, st0, raw, now);
      }
      return stop.value, [], res, [];
    }
    assert Misses(env, conf, raw, now, entries0);
    ghost var mid := Entries(w, conf);
    out, moves, res, calls := Serve(w, env, conf, raw, now, key, res);
    ghost var e := ServeEffect(env, conf, w.plugins, st0, raw, now, Initial(env, conf));
    ExpectedOnMiss(env, conf, w.plugins, entries0, st0, raw, now);
    CacheAfterMiss(conf, e.cache, key, entries0, mid, Entries(w, conf), Capacity(w, conf));
  }

  /** The backend calls a built request leads to. */
  function CallsFor(env: Env, conf: LocConf, plugins: seq<string>, raw: RawRequest): seq<Invocation>
    requires WellFormed(raw)
    requires conf.appType == Cpp ==> 0 <= conf.moduleIndex < |plugins|
  {
    var call := CallFor(env, conf, plugins, raw.uri);
    if call.Some? then [call.value] else []
  }

  /** Changing one cache keeps the worker valid when that cache stays valid. */
  lemma ValidAfter(w: Worker.Worker, c: Lru.LruCache)
    requires c in w.caches && c.Valid()
    requires forall i :: 0 <= i < |w.caches| && w.caches[i] != c ==> w.caches[i].Valid()
    requires forall i, j :: 0 <= i < j < |w.caches| ==> w.caches[i] != w.caches[j]
    requires Worker.Distinct(w.plugins)
    ensures w.Valid()
  {
  }
}
