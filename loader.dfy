/**
 * The manifest loader (`pipelines/loader.py`): `manifest.json` read through
 * the 60-second cache, a failed read or parse yielding the empty list.
 */
module Loader {
  import opened Wrappers
  import opened Manifest
  import TimedCache

  /** What reading `manifest.json` produced. */
  datatype ManifestFile =
    | Parsed(entries: seq<Entry>)   // the decoded list
    | Unreadable                    // missing file or invalid JSON

  /** The manifest the loader stores after a re-read. */
  function Reread(file: ManifestFile): seq<Entry> {
    match file
    case Parsed(entries) => entries
    case Unreadable => []
  }

  /** `load_manifest()` with the clock reading `now` and the file as it is at that moment. */
  method LoadManifest(cache: TimedCache.Cache<Entry>, now: real, file: ManifestFile) returns (manifest: seq<Entry>)
    modifies cache
    ensures (manifest, cache.State()) == TimedCache.Lookup(old(cache.State()), now, Reread(file))
    ensures manifest == cache.data
  {
    manifest := cache.Get(now, Reread(file));
  }

  /**
   * The loader's test as a client of the model: the file changes from [a] to
   * [b]; a call at the same instant still returns [a], one at t=61 returns [b].
   * Once the file becomes unreadable, [b] is served until it is 60 s old,
   * and then the loader falls back to [].
   */
  method CachingScenario() returns (first: seq<Entry>, second: seq<Entry>, third: seq<Entry>, fourth: seq<Entry>, fifth: seq<Entry>)
    ensures first == [Entry(Some("a"), None, None)] && second == first
    ensures third == [Entry(Some("b"), None, None)] && fourth == third
    ensures fifth == []
  {
    var cache := new TimedCache.Cache<Entry>();
    var a := Entry(Some("a"), None, None);
    var b := Entry(Some("b"), None, None);
    first := LoadManifest(cache, 0.0, Parsed([a]));
    second := LoadManifest(cache, 0.0, Parsed([b]));
    third := LoadManifest(cache, 61.0, Parsed([b]));
    fourth := LoadManifest(cache, 70.0, Unreadable);
    fifth := LoadManifest(cache, 121.0, Unreadable);
  }
}
