/**
 * The session store client (`hi::redis`, lib/redis.hpp, which is not part of
 * this model): a connection flag plus the store's hashes and their expiry
 * settings, with the five commands the handler issues.
 */
module Session {

  /** The cookie that carries the session id, and the field a fresh record holds it in. */
  const SESSION_ID_NAME: string := "SESSIONID"

  /** The hash stored under `id`, empty when there is none. */
  function Record(records: map<string, map<string, string>>, id: string): map<string, string>
  {
    if id in records then records[id] else map[]
  }

  class SessionStore {
    var connected: bool
    var records: map<string, map<string, string>>
    var ttl: map<string, int>

    constructor ()
      ensures !connected && records == map[] && ttl == map[]
    {
      connected := false;
      records := map[];
      ttl := map[];
    }

    /** Network connect; whether the server answers is an input. */
    method Connect(reachable: bool)
      modifies this
      ensures connected == reachable
      ensures records == old(records) && ttl == old(ttl)
    {
      connected := reachable;
    }

    /** EXISTS id */
    method Exists(id: string) returns (b: bool)
      requires connected
      ensures b <==> id in records
    {
      b := id in records;
    }

    /** HSET id field value */
    method HSet(id: string, field: string, value: string)
      requires connected
      modifies this
      ensures connected && ttl == old(ttl)
      ensures records == old(records)[id := Record(old(records), id)[field := value]]
    {
      records := records[id := Record(records, id)[field := value]];
    }

    /** EXPIRE id seconds: applies to an existing key only. */
    method Expire(id: string, seconds: int)
      requires connected
      modifies this
      ensures connected && records == old(records)
      ensures ttl == if id in old(records) then old(ttl)[id := seconds] else old(ttl)
    {
      if id in records {
        ttl := ttl[id := seconds];
      }
    }

    /** HGETALL id */
    method HGetAll(id: string) returns (fields: map<string, string>)
      requires connected
      ensures fields == Record(records, id)
    {
      fields := Record(records, id);
    }

    /** HMSET id fields: sets every given field, keeps the others; an empty field set writes nothing. */
    method HMSet(id: string, fields: map<string, string>)
      requires connected
      modifies this
      ensures connected && ttl == old(ttl)
      ensures records == if fields == map[] then old(records)
                         else old(records)[id := Record(old(records), id) + fields]
    {
      if fields != map[] {
        records := records[id := Record(records, id) + fields];
      }
    }
  }
}
