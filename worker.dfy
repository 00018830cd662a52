/**
 * The worker process's shared state (lines 60-65): the registry of loaded
 * native modules, one response cache per cache-enabled location, the session
 * store client and the script engines, together with the registry side of
 * `merge_loc_conf` (lines 325-389).
 */
module Worker {
  import opened Base
  import opened Config
  import Lru
  import Session

  /** No path is registered twice. */
  predicate Distinct(paths: seq<string>)
  {
    forall i, j :: 0 <= i < j < |paths| ==> paths[i] != paths[j]
  }

  /**
   * A merged location can be served by registries holding `plugins` and
   * `cacheCount` caches: its cache index and, for a native backend, its
   * module index point at real entries, the latter at its own module path.
   */
  predicate FitsIn(conf: LocConf, plugins: seq<string>, cacheCount: nat)
  {
    && (conf.needCache == 1 ==> 0 <= conf.cacheIndex < cacheCount)
    && (conf.appType == Cpp ==>
          0 <= conf.moduleIndex < |plugins| && conf.modulePath == Some(plugins[conf.moduleIndex]))
  }

  /** Registries only grow, so a location that fits keeps fitting. */
  lemma FitsAfterGrowth(conf: LocConf, plugins: seq<string>, cacheCount: nat,
                        plugins': seq<string>, cacheCount': nat)
    requires FitsIn(conf, plugins, cacheCount)
    requires plugins <= plugins' && cacheCount <= cacheCount'
    ensures FitsIn(conf, plugins', cacheCount')
  {
    if conf.appType == Cpp {
      assert plugins'[conf.moduleIndex] == plugins[conf.moduleIndex];
    }
  }

  class Worker {
    /** `PLUGIN`: the module paths, in registration order. */
    var plugins: seq<string>
    /** `CACHE` */
    var caches: seq<Lru.LruCache>
    /** `REDIS`: created disconnected; never connected is the same as never created. */
    const store: Session.SessionStore
    /** Whether the `PYTHON`, `LUA` and `PHP` engines exist. */
    var pythonUp: bool
    var luaUp: bool
    var phpUp: bool

    ghost predicate Valid()
      reads this, caches
    {
      && (forall i :: 0 <= i < |caches| ==> caches[i].Valid())
      && (forall i, j :: 0 <= i < j < |caches| ==> caches[i] != caches[j])
      && Distinct(plugins)
    }

    constructor ()
      ensures Valid() && fresh(store)
      ensures plugins == [] && caches == [] && !store.connected && store.records == map[]
      ensures !pythonUp && !luaUp && !phpUp
    {
      plugins := [];
      caches := [];
      store := new Session.SessionStore();
      pythonUp, luaUp, phpUp := false, false, false;
    }

    /**
     * The registry search of lines 351-358: a counter that starts at
     * `NGX_CONF_UNSET` and is bumped once per entry visited.
     */
    method FindPlugin(path: string) returns (found: bool, index: int)
      ensures found <==> path in plugins
      ensures found ==> 0 <= index < |plugins| && plugins[index] == path && path !in plugins[..index]
    {
      index := UNSET;
      found := false;
      var k := 0;
      while k < |plugins|
        invariant 0 <= k <= |plugins|
        invariant index == k - 1 && !found
        invariant path !in plugins[..k]
      {
        index := index + 1;
        if plugins[k] == path {
          found := true;
          break;
        }
        assert plugins[..k + 1] == plugins[..k] + [plugins[k]];
        k := k + 1;
      }
      assert found || plugins[..k] == plugins;
    }

    /** Lines 350-363: the index of `path` in the registry, which gains the path when it is new. */
    method RegisterModule(path: string) returns (index: int)
      requires Valid()
      modifies this
      ensures Valid()
      ensures plugins == old(plugins) + (if path in old(plugins) then [] else [path])
      ensures 0 <= index < |plugins| && plugins[index] == path && path !in plugins[..index]
      ensures caches == old(caches)
      ensures pythonUp == old(pythonUp) && luaUp == old(luaUp) && phpUp == old(phpUp)
    {
      var found;
      found, index := FindPlugin(path);
      if !found {
        plugins := plugins + [path];
        index := |plugins| - 1;
        assert plugins[..index] == old(plugins);
      }
    }

    /** Lines 382-385: a new, empty cache of `size` entries at the end of `CACHE`, and its index. */
    method AddCache(size: nat) returns (index: int)
      requires Valid()
      modifies this
      ensures Valid()
      ensures |caches| == |old(caches)| + 1 && caches[..|old(caches)|] == old(caches)
      ensures index == |old(caches)|
      ensures fresh(caches[index]) && caches[index].capacity == size && caches[index].entries == map[]
      ensures plugins == old(plugins)
      ensures pythonUp == old(pythonUp) && luaUp == old(luaUp) && phpUp == old(phpUp)
    {
      var cache := new Lru.LruCache(size);
      caches := caches + [cache];
      index := |caches| - 1;
    }

    /**
     * `merge_loc_conf`: the inherited values, then the native module looked
     * up or registered by path, the backend selected, the PHP engine started
     * for a PHP location, and a new cache of the location's size for a
     * cache-enabled location that has none yet.
     */
    method MergeLocConf(prev: LocConf, child: LocConf) returns (conf: LocConf)
      requires Valid()
      modifies this
      ensures Valid()
      ensures var b := Inherit(prev, child);
        conf == b.(moduleIndex := conf.moduleIndex, cacheIndex := conf.cacheIndex, appType := SelectApp(b))
      ensures var b := Inherit(prev, child);
        if b.moduleIndex == UNSET && Given(b.modulePath) then
          && plugins == old(plugins) + (if b.modulePath.value in old(plugins) then [] else [b.modulePath.value])
          && 0 <= conf.moduleIndex < |plugins| && plugins[conf.moduleIndex] == b.modulePath.value
          && b.modulePath.value !in plugins[..conf.moduleIndex]
        else
          plugins == old(plugins) && conf.moduleIndex == b.moduleIndex
      ensures var b := Inherit(prev, child);
        if b.needCache == 1 && b.cacheIndex == UNSET then
          && |caches| == |old(caches)| + 1 && caches[..|old(caches)|] == old(caches)
          && fresh(caches[|old(caches)|])
          && caches[|old(caches)|].capacity == b.cacheSize && caches[|old(caches)|].entries == map[]
          && conf.cacheIndex == |old(caches)|
        else
          caches == old(caches) && conf.cacheIndex == b.cacheIndex
      ensures phpUp == (old(phpUp) || Given(Inherit(prev, child).phpScript))
      ensures pythonUp == old(pythonUp) && luaUp == old(luaUp)
      ensures old(plugins) <= plugins && |old(caches)| <= |caches|
      ensures Unindexed(child) ==> FitsIn(conf, plugins, |caches|)
    {
      var b := Inherit(prev, child);
      conf := b;
      if b.moduleIndex == UNSET && Given(b.modulePath) {
        var index := RegisterModule(b.modulePath.value);
        conf := conf.(moduleIndex := index);
      }
      conf := conf.(appType := SelectApp(b));
      if Given(b.phpScript) && !phpUp {
        phpUp := true;
      }
      if b.needCache == 1 && b.cacheIndex == UNSET {
        var index := AddCache(b.cacheSize);
        conf := conf.(cacheIndex := index);
      }
    }
  }
}
