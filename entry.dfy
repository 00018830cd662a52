/**
 * The content handler nginx calls (`ngx_http_hi_handler`, lines 391-408) and
 * the continuation it registers (`ngx_http_hi_body_handler`, lines 602-604):
 * a request with a body first waits for it, then runs the pipeline once.
 */
module Entry {
  import opened Base
  import opened Host
  import opened Config
  import Body
  import Pipeline
  import Worker

  /** nginx's special-response threshold. */
  const NGX_HTTP_SPECIAL_RESPONSE: int := 300

  /** The body-buffer settings of the core module's location configuration. */
  class CoreLocConf {
    var bodyBufferSize: nat
    const maxBodySize: nat

    constructor (bodyBufferSize: nat, maxBodySize: nat)
      ensures this.bodyBufferSize == bodyBufferSize && this.maxBodySize == maxBodySize
    {
      this.bodyBufferSize := bodyBufferSize;
      this.maxBodySize := maxBodySize;
    }
  }

  datatype Phase = Start | AwaitingBody | Finished

  /** What the content handler returns to nginx. */
  datatype EntryCode = Pending | Rejected(status: int) | Handled(out: Pipeline.Outcome)

  /** One request as it passes through the two phases. */
  class RequestTask {
    var phase: Phase
    var raw: RawRequest
    const conf: LocConf
    const core: CoreLocConf
    /** What the request was finished with: a handler outcome, or nothing when nginx rejected the body. */
    var result: Option<Pipeline.Outcome>
    /** How many times the pipeline ran. */
    ghost var runs: nat

    ghost predicate Valid()
      reads this
    {
      && runs <= 1
      && (phase != Finished ==> runs == 0 && result.None?)
      && (result.Some? <==> runs == 1)
    }

    constructor (raw: RawRequest, conf: LocConf, core: CoreLocConf)
      ensures Valid() && phase == Start && this.raw == raw && this.conf == conf && this.core == core
    {
      phase := Start;
      this.raw := raw;
      this.conf := conf;
      this.core := core;
      result := None;
      runs := 0;
    }

    /**
     * Lines 391-408: with a body, raise the location's body buffer to the
     * maximum body size and ask nginx to read it, passing on a special
     * response nginx answers with and otherwise reporting the request as
     * pending; without one, run the pipeline at once.
     */
    method Enter(w: Worker.Worker, env: Env, now: int, readStatus: int) returns (code: EntryCode)
      requires Valid() && phase == Start
      requires w.Valid() && WellFormed(raw) && Worker.FitsIn(conf, w.plugins, |w.caches|)
      modifies this, core, w, w.store, Pipeline.CacheFrame(w, conf)
      ensures Valid() && w.Valid()
      ensures raw == old(raw)
      ensures w.plugins == old(w.plugins) && w.caches == old(w.caches) && w.phpUp == old(w.phpUp)
      // with a body: nothing of the worker changes while nginx reads it
      ensures raw.contentLength > 0 ==>
        && core.bodyBufferSize == (if old(core.bodyBufferSize) < core.maxBodySize then core.maxBodySize
                                   else old(core.bodyBufferSize))
        && runs == 0 && result == None
        && Pipeline.StateOf(w.store) == old(Pipeline.StateOf(w.store))
        && Pipeline.Entries(w, conf) == old(Pipeline.Entries(w, conf))
        && w.pythonUp == old(w.pythonUp) && w.luaUp == old(w.luaUp)
        && if readStatus >= NGX_HTTP_SPECIAL_RESPONSE then code == Rejected(readStatus) && phase == Finished
           else code == Pending && phase == AwaitingBody
      // without one: the request is finished with what the handler does
      ensures raw.contentLength <= 0 ==>
        && core.bodyBufferSize == old(core.bodyBufferSize)
        && runs == 1 && phase == Finished
        && var eff := Pipeline.Expected(env, conf, w.plugins, old(Pipeline.Entries(w, conf)),
                                        old(Pipeline.StateOf(w.store)), raw, now);
           && code == Handled(eff.out) && result == Some(eff.out)
           && Pipeline.StateOf(w.store) == eff.store
           && Pipeline.CacheMatches(eff.cache, Pipeline.CacheKeyOf(env, raw), old(Pipeline.Entries(w, conf)),
                                    Pipeline.Entries(w, conf), Pipeline.Capacity(w, conf))
    {
      if raw.contentLength > 0 {
        code := ReadBody(readStatus);
      } else {
        var out := Complete(w, env, now);
        code := Handled(out);
      }
    }

    /**
     * Lines 394-406: raise the body buffer to the maximum body size and ask
     * nginx for the body; a special response nginx answers with finishes the
     * request, otherwise it waits for the body.
     */
    method ReadBody(readStatus: int) returns (code: EntryCode)
      requires Valid() && phase == Start
      modifies this, core
      ensures Valid() && raw == old(raw) && result == None && runs == 0
      ensures core.bodyBufferSize == (if old(core.bodyBufferSize) < core.maxBodySize then core.maxBodySize
                                      else old(core.bodyBufferSize))
      ensures if readStatus >= NGX_HTTP_SPECIAL_RESPONSE then code == Rejected(readStatus) && phase == Finished
              else code == Pending && phase == AwaitingBody
    {
      if core.bodyBufferSize < core.maxBodySize {
        core.bodyBufferSize := core.maxBodySize;
      }
      if readStatus >= NGX_HTTP_SPECIAL_RESPONSE {
        phase := Finished;
        return Rejected(readStatus);
      }
      phase := AwaitingBody;
      code := Pending;
    }

    /** Runs the handler on the request and finishes it with the outcome. */
    method Complete(w: Worker.Worker, env: Env, now: int) returns (out: Pipeline.Outcome)
      requires Valid() && phase != Finished
      requires w.Valid() && WellFormed(raw) && Worker.FitsIn(conf, w.plugins, |w.caches|)
      modifies this, w, w.store, Pipeline.CacheFrame(w, conf)
      ensures Valid() && w.Valid()
      ensures raw == old(raw) && phase == Finished && runs == 1 && result == Some(out)
      ensures w.plugins == old(w.plugins) && w.caches == old(w.caches) && w.phpUp == old(w.phpUp)
      ensures var eff := Pipeline.Expected(env, conf, w.plugins, old(Pipeline.Entries(w, conf)),
                                           old(Pipeline.StateOf(w.store)), raw, now);
        && out == eff.out
        && Pipeline.StateOf(w.store) == eff.store
        && Pipeline.CacheMatches(eff.cache, Pipeline.CacheKeyOf(env, raw), old(Pipeline.Entries(w, conf)),
                                 Pipeline.Entries(w, conf), Pipeline.Capacity(w, conf))
    {
      var r := raw;
      out := Handle(w, env, r, now);
      phase, result, runs := Finished, Some(out), 1;
    }

    /** The handler on this request; its phase and result are left as they are. */
    method Handle(w: Worker.Worker, env: Env, raw: RawRequest, now: int) returns (out: Pipeline.Outcome)
      requires w.Valid() && WellFormed(raw) && Worker.FitsIn(conf, w.plugins, |w.caches|)
      modifies w, w.store, Pipeline.CacheFrame(w, conf)
      ensures w.Valid()
      ensures w.plugins == old(w.plugins) && w.caches == old(w.caches) && w.phpUp == old(w.phpUp)
      ensures var eff := Pipeline.Expected(env, conf, w.plugins, old(Pipeline.Entries(w, conf)),
                                           old(Pipeline.StateOf(w.store)), raw, now);
        && out == eff.out
        && Pipeline.StateOf(w.store) == eff.store
        && Pipeline.CacheMatches(eff.cache, Pipeline.CacheKeyOf(env, raw), old(Pipeline.Entries(w, conf)),
                                 Pipeline.Entries(w, conf), Pipeline.Capacity(w, conf))
    {
      var moves, res; ghost var calls;
      out, moves, res, calls := Pipeline.NormalHandler(w, env, conf, raw, now);
    }

    /** Line 602-604: once nginx has the body, run the pipeline on it and finish the request with its outcome. */
    method OnBody(w: Worker.Worker, env: Env, now: int, body: Body.RequestBody)
      requires Valid() && phase == AwaitingBody
      requires w.Valid() && WellFormed(raw) && Worker.FitsIn(conf, w.plugins, |w.caches|)
      modifies this, w, w.store, Pipeline.CacheFrame(w, conf)
      ensures Valid() && w.Valid()
      ensures raw == old(raw).(body := body)
      ensures w.plugins == old(w.plugins) && w.caches == old(w.caches) && w.phpUp == old(w.phpUp)
      ensures phase == Finished && runs == 1
      ensures var eff := Pipeline.Expected(env, conf, w.plugins, old(Pipeline.Entries(w, conf)),
                                           old(Pipeline.StateOf(w.store)), raw, now);
        && result == Some(eff.out)
        && Pipeline.StateOf(w.store) == eff.store
        && Pipeline.CacheMatches(eff.cache, Pipeline.CacheKeyOf(env, raw), old(Pipeline.Entries(w, conf)),
                                 Pipeline.Entries(w, conf), Pipeline.Capacity(w, conf))
    {
      raw := raw.(body := body);
      var out := Complete(w, env, now);
    }
  }
}
