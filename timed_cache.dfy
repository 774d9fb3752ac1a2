/**
 * The 60-second cache that both `pipelines/acl.py` and `pipelines/loader.py`
 * keep in a module-level `_cache = {"ts": ..., "data": ...}` dict.
 *
 * Each call reads the clock once (`now`). Cached data is served only when it
 * is non-empty and younger than 60 seconds; otherwise the backing file is
 * read again (`reread` is what that read yields, failures already replaced
 * by the empty value) and both fields are overwritten.
 */
module TimedCache {

  /** Seconds for which non-empty cached data is served without a re-read. */
  const Ttl: real := 60.0

  /** The two fields of `_cache`. */
  datatype Snapshot<T> = Snapshot(ts: real, data: seq<T>)

  /** `_cache["data"] and now - _cache["ts"] < 60`: the cached data is served. */
  predicate Serves<T>(s: Snapshot<T>, now: real) {
    |s.data| > 0 && now - s.ts < Ttl
  }

  /**
   * One call of the loader on cache state `s` at time `now`: the value
   * returned and the cache state afterwards.
   */
  function Lookup<T>(s: Snapshot<T>, now: real, reread: seq<T>): (r: (seq<T>, Snapshot<T>))
    ensures r.0 == r.1.data
  {
    if Serves(s, now) then (s.data, s) else (reread, Snapshot(now, reread))
  }

  /** The module-level `_cache` dict; it starts as `{"ts": 0.0, "data": <empty>}`. */
  class Cache<T> {
    var ts: real
    var data: seq<T>

    function State(): Snapshot<T>
      reads this
    {
      Snapshot(ts, data)
    }

    constructor ()
      ensures State() == Snapshot(0.0, [])
    {
      ts := 0.0;
      data := [];
    }

    /** One call of `load_acl` / `load_manifest`: serve or re-read, updating `ts` and `data`. */
    method Get(now: real, reread: seq<T>) returns (r: seq<T>)
      modifies this
      ensures (r, State()) == Lookup(old(State()), now, reread)
      ensures r == data
    {
      if |data| > 0 && now - ts < Ttl {
        return data;
      }
      ts := now;
      data := reread;
      r := reread;
    }
  }

  /**
   * Data written at `t0` is served, whatever the file now holds, by every call
   * within 60 seconds of `t0` (the cache may return stale data).
   */
  lemma StaleWithinTtl<T>(s: Snapshot<T>, t0: real, file0: seq<T>, t1: real, file1: seq<T>)
    requires !Serves(s, t0) && |file0| > 0
    requires t1 - t0 < Ttl
    ensures Lookup(Lookup(s, t0, file0).1, t1, file1).0 == file0
    ensures Lookup(Lookup(s, t0, file0).1, t1, file1).1 == Lookup(s, t0, file0).1
  {
  }

  /** From 60 seconds after the last re-read on, every call re-reads. */
  lemma FreshAfterTtl<T>(s: Snapshot<T>, now: real, file: seq<T>)
    requires now - s.ts >= Ttl
    ensures Lookup(s, now, file) == (file, Snapshot(now, file))
  {
  }

  /** Empty data is never served from the cache: every call re-reads. */
  lemma EmptyNeverCached<T>(s: Snapshot<T>, now: real, file: seq<T>)
    requires s.data == []
    ensures Lookup(s, now, file) == (file, Snapshot(now, file))
  {
  }
}
