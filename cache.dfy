/**
  The module-level cache functions of rxvc/cache.py. The module keeps one global
  path, ~/.rxvc_cache; here that file is the `cachePath` each function is given.
*/
module Cache {
  import opened Wrappers
  import opened CacheFile

  /** Touches the cache file, then writes the receiver's record into it. */
  method CacheReceiver(cachePath: CachePath, receiver: Descriptor)
    modifies cachePath
    ensures cachePath.file == Saved(old(cachePath.file), receiver)
  {
    cachePath.Touch();
    cachePath.WriteText(JsonObject(Encode(receiver)));
  }

  /** The cached receiver, None when there is no cache file, or the exception loading raises. */
  method CachedReceiver(cachePath: CachePath) returns (r: Result<Option<Descriptor>, LoadError>)
    ensures r == Load(cachePath.file)
  {
    var present := cachePath.Exists();
    if !present {
      return Ok(None);
    }
    var text := cachePath.ReadText();
    var parsed := ParseJson(text);
    if parsed.Err? {
      return Err(parsed.error);
    }
    var receiver := Decode(parsed.value);
    if receiver.Err? {
      return Err(receiver.error);
    }
    r := Ok(Some(receiver.value));
  }

  /** Removes the cache file if there is one; on a missing file it does nothing. */
  method Clear(cachePath: CachePath)
    modifies cachePath
    ensures cachePath.file == None
  {
    var present := cachePath.Exists();
    if present {
      cachePath.Unlink();
    }
  }

  /** The round trip through the module's functions: what was cached is what is loaded. */
  method CacheThenLoad(cachePath: CachePath, receiver: Descriptor) returns (r: Result<Option<Descriptor>, LoadError>)
    modifies cachePath
    ensures r == Ok(Some(receiver))
  {
    CacheReceiver(cachePath, receiver);
    SaveLoadRoundTrip(old(cachePath.file), receiver);
    r := CachedReceiver(cachePath);
  }

  /** Clearing twice never fails, and afterwards nothing is loaded. */
  method ClearTwiceThenLoad(cachePath: CachePath) returns (r: Result<Option<Descriptor>, LoadError>)
    modifies cachePath
    ensures r == Ok(None) && cachePath.file == None
  {
    Clear(cachePath);
    Clear(cachePath);
    r := CachedReceiver(cachePath);
  }
}
