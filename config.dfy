/**
 * The per-location configuration (`ngx_http_hi_loc_conf_t`, lines 71-90): how
 * `create_loc_conf` leaves it, how `merge_loc_conf` fills what a location did
 * not set from its parent or from the built-in defaults, and which backend a
 * location ends up with. The registry side of the merge is in module Worker.
 */
module Config {
  import opened Base

  /** `application_t` (lines 67-69). */
  datatype AppType = Cpp | Python | Lua | Php | Unknown

  /** `NGX_CONF_UNSET` and `NGX_CONF_UNSET_UINT`. */
  const UNSET: int := -1
  const UNSET_UINT: nat := NPOS

  /** Built-in defaults applied by the merge (lines 331-345). */
  const DEFAULT_REDIS_PORT: int := 0
  const DEFAULT_CACHE_SIZE: nat := 10
  const DEFAULT_CACHE_EXPIRES: int := 300
  const DEFAULT_SESSION_EXPIRES: int := 300
  const DEFAULT_NEED_HEADERS: int := 0
  const DEFAULT_NEED_CACHE: int := 1
  const DEFAULT_NEED_COOKIES: int := 0
  const DEFAULT_NEED_SESSION: int := 0

  /** A string directive is `None` while its data is NULL. */
  datatype LocConf = LocConf(
    modulePath: Option<string>, redisHost: Option<string>,
    pythonScript: Option<string>, pythonContent: Option<string>,
    luaScript: Option<string>, luaContent: Option<string>,
    phpScript: Option<string>,
    redisPort: int, moduleIndex: int, cacheExpires: int, sessionExpires: int, cacheIndex: int,
    cacheSize: nat,
    needHeaders: int, needCache: int, needCookies: int, needSession: int,
    appType: AppType)

  /** `create_loc_conf` (lines 292-323): every field unset, no backend. */
  function Created(): (c: LocConf)
    ensures Unindexed(c) && AllUnset(c)
  {
    LocConf(None, None, None, None, None, None, None,
            UNSET, UNSET, UNSET, UNSET, UNSET,
            UNSET_UINT,
            UNSET, UNSET, UNSET, UNSET,
            Unknown)
  }

  /** The fields no directive sets and the merge does not inherit, as creation left them. */
  predicate Unindexed(c: LocConf)
  {
    c.moduleIndex == UNSET && c.cacheIndex == UNSET && c.appType == Unknown
  }

  /** No field the merge inherits holds a value. */
  predicate AllUnset(c: LocConf)
  {
    && c.modulePath.None? && c.redisHost.None? && c.pythonScript.None? && c.pythonContent.None?
    && c.luaScript.None? && c.luaContent.None? && c.phpScript.None?
    && c.redisPort == UNSET && c.cacheExpires == UNSET && c.sessionExpires == UNSET
    && c.cacheSize == UNSET_UINT
    && c.needHeaders == UNSET && c.needCache == UNSET && c.needCookies == UNSET && c.needSession == UNSET
  }

  /** A value `ngx_conf_set_flag_slot` can store: `off` or `on`. */
  predicate IsFlag(v: int)
  {
    v == 0 || v == 1
  }

  /** Each flag directive is unset or holds what `ngx_conf_set_flag_slot` stores. */
  predicate FlagValued(c: LocConf)
  {
    && (c.needHeaders == UNSET || IsFlag(c.needHeaders)) && (c.needCache == UNSET || IsFlag(c.needCache))
    && (c.needCookies == UNSET || IsFlag(c.needCookies)) && (c.needSession == UNSET || IsFlag(c.needSession))
  }

  /** Every field the merge inherits holds a value. */
  predicate Resolved(c: LocConf)
  {
    && c.modulePath.Some? && c.redisHost.Some? && c.pythonScript.Some? && c.pythonContent.Some?
    && c.luaScript.Some? && c.luaContent.Some? && c.phpScript.Some?
    && c.redisPort != UNSET && c.cacheExpires != UNSET && c.sessionExpires != UNSET
    && c.cacheSize != UNSET_UINT
    && c.needHeaders != UNSET && c.needCache != UNSET && c.needCookies != UNSET && c.needSession != UNSET
  }

  /** `ngx_conf_merge_str_value` */
  function MergeStr(conf: Option<string>, prev: Option<string>, default: string): Option<string>
  {
    if conf.Some? then conf else if prev.Some? then prev else Some(default)
  }

  /** `ngx_conf_merge_value` and `ngx_conf_merge_sec_value` */
  function MergeInt(conf: int, prev: int, default: int): int
  {
    if conf != UNSET then conf else if prev != UNSET then prev else default
  }

  /** `ngx_conf_merge_uint_value` */
  function MergeSize(conf: nat, prev: nat, default: nat): nat
  {
    if conf != UNSET_UINT then conf else if prev != UNSET_UINT then prev else default
  }

  /**
   * The value part of `merge_loc_conf` (lines 329-346): each unset field takes
   * the parent's value, else the default; sessions force cookie parsing on.
   * The module index, the cache index and the backend are not inherited.
   */
  function Inherit(prev: LocConf, conf: LocConf): (r: LocConf)
    ensures Resolved(r)
    ensures r.moduleIndex == conf.moduleIndex && r.cacheIndex == conf.cacheIndex && r.appType == conf.appType
    ensures r.needSession == 1 ==> r.needCookies != 0
    // with flag directives holding what the flag setter stores, sessions turn cookie parsing on
    ensures FlagValued(prev) && FlagValued(conf) ==>
      && IsFlag(r.needHeaders) && IsFlag(r.needCache) && IsFlag(r.needCookies) && IsFlag(r.needSession)
      && (r.needSession == 1 ==> r.needCookies == 1)
  {
    var cookies := MergeInt(conf.needCookies, prev.needCookies, DEFAULT_NEED_COOKIES);
    var session := MergeInt(conf.needSession, prev.needSession, DEFAULT_NEED_SESSION);
    LocConf(
      MergeStr(conf.modulePath, prev.modulePath, ""),
      MergeStr(conf.redisHost, prev.redisHost, ""),
      MergeStr(conf.pythonScript, prev.pythonScript, ""),
      MergeStr(conf.pythonContent, prev.pythonContent, ""),
      MergeStr(conf.luaScript, prev.luaScript, ""),
      MergeStr(conf.luaContent, prev.luaContent, ""),
      MergeStr(conf.phpScript, prev.phpScript, ""),
      MergeInt(conf.redisPort, prev.redisPort, DEFAULT_REDIS_PORT),
      conf.moduleIndex,
      MergeInt(conf.cacheExpires, prev.cacheExpires, DEFAULT_CACHE_EXPIRES),
      MergeInt(conf.sessionExpires, prev.sessionExpires, DEFAULT_SESSION_EXPIRES),
      conf.cacheIndex,
      MergeSize(conf.cacheSize, prev.cacheSize, DEFAULT_CACHE_SIZE),
      MergeInt(conf.needHeaders, prev.needHeaders, DEFAULT_NEED_HEADERS),
      MergeInt(conf.needCache, prev.needCache, DEFAULT_NEED_CACHE),
      if session == 1 && cookies == 0 then 1 else cookies,
      session,
      conf.appType)
  }

  /** Which value a merged string setting takes: the location's, else the parent's, else the default. */
  predicate StrPrecedence(r: Option<string>, conf: Option<string>, prev: Option<string>, default: string)
  {
    && (conf.Some? ==> r == conf)
    && (conf.None? && prev.Some? ==> r == prev)
    && (conf.None? && prev.None? ==> r == Some(default))
  }

  /** The same for a number or flag, `UNSET` marking "not set". */
  predicate IntPrecedence(r: int, conf: int, prev: int, default: int)
  {
    && (conf != UNSET ==> r == conf)
    && (conf == UNSET && prev != UNSET ==> r == prev)
    && (conf == UNSET && prev == UNSET ==> r == default)
  }

  /** The same for a size, `UNSET_UINT` marking "not set". */
  predicate SizePrecedence(r: nat, conf: nat, prev: nat, default: nat)
  {
    && (conf != UNSET_UINT ==> r == conf)
    && (conf == UNSET_UINT && prev != UNSET_UINT ==> r == prev)
    && (conf == UNSET_UINT && prev == UNSET_UINT ==> r == default)
  }

  /**
   * Every inherited field: a value the location set itself wins, an unset
   * one takes the parent's setting, and with neither the default applies.
   * Cookie parsing is the one exception: sessions switch it on over "off".
   */
  lemma InheritPrecedence(prev: LocConf, conf: LocConf)
    ensures var r := Inherit(prev, conf);
      && StrPrecedence(r.modulePath, conf.modulePath, prev.modulePath, "")
      && StrPrecedence(r.redisHost, conf.redisHost, prev.redisHost, "")
      && StrPrecedence(r.pythonScript, conf.pythonScript, prev.pythonScript, "")
      && StrPrecedence(r.pythonContent, conf.pythonContent, prev.pythonContent, "")
      && StrPrecedence(r.luaScript, conf.luaScript, prev.luaScript, "")
      && StrPrecedence(r.luaContent, conf.luaContent, prev.luaContent, "")
      && StrPrecedence(r.phpScript, conf.phpScript, prev.phpScript, "")
      && IntPrecedence(r.redisPort, conf.redisPort, prev.redisPort, DEFAULT_REDIS_PORT)
      && IntPrecedence(r.cacheExpires, conf.cacheExpires, prev.cacheExpires, DEFAULT_CACHE_EXPIRES)
      && IntPrecedence(r.sessionExpires, conf.sessionExpires, prev.sessionExpires, DEFAULT_SESSION_EXPIRES)
      && SizePrecedence(r.cacheSize, conf.cacheSize, prev.cacheSize, DEFAULT_CACHE_SIZE)
      && IntPrecedence(r.needHeaders, conf.needHeaders, prev.needHeaders, DEFAULT_NEED_HEADERS)
      && IntPrecedence(r.needCache, conf.needCache, prev.needCache, DEFAULT_NEED_CACHE)
      && IntPrecedence(r.needSession, conf.needSession, prev.needSession, DEFAULT_NEED_SESSION)
      && (r.needSession == 1 && MergeInt(conf.needCookies, prev.needCookies, DEFAULT_NEED_COOKIES) == 0 ==>
            r.needCookies == 1)
      && (!(r.needSession == 1 && MergeInt(conf.needCookies, prev.needCookies, DEFAULT_NEED_COOKIES) == 0) ==>
            IntPrecedence(r.needCookies, conf.needCookies, prev.needCookies, DEFAULT_NEED_COOKIES))
  {
  }

  /** A location with nothing set, under a parent with nothing set, gets the built-in defaults. */
  lemma InheritDefaults(prev: LocConf, conf: LocConf)
    requires AllUnset(prev) && AllUnset(conf)
    ensures var r := Inherit(prev, conf);
      && r.modulePath == Some("") && r.redisHost == Some("")
      && r.pythonScript == Some("") && r.pythonContent == Some("")
      && r.luaScript == Some("") && r.luaContent == Some("") && r.phpScript == Some("")
      && r.redisPort == 0 && r.cacheSize == 10 && r.cacheExpires == 300 && r.sessionExpires == 300
      && r.needHeaders == 0 && r.needCache == 1 && r.needCookies == 0 && r.needSession == 0
  {
  }

  /** Merging a second time with the same parent changes nothing. */
  lemma InheritIdempotent(prev: LocConf, conf: LocConf)
    ensures Inherit(prev, Inherit(prev, conf)) == Inherit(prev, conf)
  {
  }

  /** The nearest of three levels that set a string, else the default. */
  function NearestStr(conf: Option<string>, parent: Option<string>, grand: Option<string>, default: string): Option<string>
  {
    if conf.Some? then conf else if parent.Some? then parent else if grand.Some? then grand else Some(default)
  }

  /** The nearest of three levels that set a number or flag, else the default. */
  function NearestInt(conf: int, parent: int, grand: int, default: int): int
  {
    if conf != UNSET then conf else if parent != UNSET then parent else if grand != UNSET then grand else default
  }

  /** The nearest of three levels that set a size, else the default. */
  function NearestSize(conf: nat, parent: nat, grand: nat, default: nat): nat
  {
    if conf != UNSET_UINT then conf else if parent != UNSET_UINT then parent
    else if grand != UNSET_UINT then grand else default
  }

  /**
   * nginx merges each level into the next: a location two levels down sees,
   * in every inherited field, the nearest level that set it, else the
   * default. Cookie parsing is on exactly when the nearest setting turns it
   * on, when sessions are on for the location, or when the location leaves
   * cookies unset under a parent whose sessions forced them on.
   */
  lemma NearestSettingWins(grand: LocConf, parent: LocConf, conf: LocConf)
    ensures var mid := Inherit(grand, parent);
      var r := Inherit(mid, conf);
      && r.modulePath == NearestStr(conf.modulePath, parent.modulePath, grand.modulePath, "")
      && r.redisHost == NearestStr(conf.redisHost, parent.redisHost, grand.redisHost, "")
      && r.pythonScript == NearestStr(conf.pythonScript, parent.pythonScript, grand.pythonScript, "")
      && r.pythonContent == NearestStr(conf.pythonContent, parent.pythonContent, grand.pythonContent, "")
      && r.luaScript == NearestStr(conf.luaScript, parent.luaScript, grand.luaScript, "")
      && r.luaContent == NearestStr(conf.luaContent, parent.luaContent, grand.luaContent, "")
      && r.phpScript == NearestStr(conf.phpScript, parent.phpScript, grand.phpScript, "")
      && r.redisPort == NearestInt(conf.redisPort, parent.redisPort, grand.redisPort, DEFAULT_REDIS_PORT)
      && r.cacheExpires == NearestInt(conf.cacheExpires, parent.cacheExpires, grand.cacheExpires, DEFAULT_CACHE_EXPIRES)
      && r.sessionExpires == NearestInt(conf.sessionExpires, parent.sessionExpires, grand.sessionExpires,
                                        DEFAULT_SESSION_EXPIRES)
      && r.cacheSize == NearestSize(conf.cacheSize, parent.cacheSize, grand.cacheSize, DEFAULT_CACHE_SIZE)
      && r.needHeaders == NearestInt(conf.needHeaders, parent.needHeaders, grand.needHeaders, DEFAULT_NEED_HEADERS)
      && r.needCache == NearestInt(conf.needCache, parent.needCache, grand.needCache, DEFAULT_NEED_CACHE)
      && r.needSession == NearestInt(conf.needSession, parent.needSession, grand.needSession, DEFAULT_NEED_SESSION)
      && (r.needCookies != 0 <==>
            || NearestInt(conf.needCookies, parent.needCookies, grand.needCookies, DEFAULT_NEED_COOKIES) != 0
            || r.needSession == 1
            || (conf.needCookies == UNSET && mid.needSession == 1))
  {
  }

  /** A non-empty string setting. */
  predicate Given(s: Option<string>)
  {
    Len(s) > 0
  }

  /**
   * The backend chosen by lines 347-378: a native module when one is newly
   * registered, then Python, then Lua, then PHP, each later test overriding
   * the earlier ones; with none of them the location keeps its backend.
   */
  function SelectApp(conf: LocConf): (t: AppType)
    ensures Given(conf.phpScript) ==> t == Php
    ensures !Given(conf.phpScript) && (Given(conf.luaContent) || Given(conf.luaScript)) ==> t == Lua
    ensures (!Given(conf.phpScript) && !Given(conf.luaContent) && !Given(conf.luaScript)
             && (Given(conf.pythonContent) || Given(conf.pythonScript))) ==> t == Python
    ensures (!Given(conf.phpScript) && !Given(conf.luaContent) && !Given(conf.luaScript)
             && !Given(conf.pythonContent) && !Given(conf.pythonScript)) ==>
              t == if conf.moduleIndex == UNSET && Given(conf.modulePath) then Cpp else conf.appType
  {
    var native := if conf.moduleIndex == UNSET && Given(conf.modulePath) then Cpp else conf.appType;
    var python := if Given(conf.pythonContent) || Given(conf.pythonScript) then Python else native;
    var lua := if Given(conf.luaContent) || Given(conf.luaScript) then Lua else python;
    if Given(conf.phpScript) then Php else lua
  }
}
