/**
 * llminfo_cli/cache.py: a per-provider model cache with a one-hour TTL.
 * The cache directory is the map `files` from file name to contents; the
 * clock is the parameter `now`, in microseconds (the resolution of the
 * timestamps the source stores).
 */
module Cache {
  import opened Wrappers
  import opened Schemas

  /** `CACHE_TTL = timedelta(hours=1)`, fixed for the class. */
  const CacheTtl: int := 60 * 60 * 1_000_000

  const CacheFileSuffix: string := "_models.json"

  /** The JSON document stored per provider: `cached_at`, `provider`, `models`. */
  datatype CacheFile = CacheFile(cachedAt: int, provider: string, models: seq<ModelInfo>)

  /** `_get_cache_file(provider_name)`, relative to the cache directory. */
  function CacheFileName(provider: string): string
  {
    provider + CacheFileSuffix
  }

  /** The cache file of a provider is its name followed by "_models.json", and nothing else. */
  lemma CacheFileNameParts(provider: string)
    ensures |CacheFileName(provider)| == |provider| + |CacheFileSuffix|
    ensures CacheFileName(provider)[..|provider|] == provider
    ensures CacheFileName(provider)[|provider|..] == CacheFileSuffix
  {
  }

  /** Distinct providers never share a cache file. */
  lemma CacheFileNameInjective(p: string, q: string)
    requires CacheFileName(p) == CacheFileName(q)
    ensures p == q
  {
    assert |p| == |q|;
    assert p == CacheFileName(p)[..|p|];
    assert q == CacheFileName(q)[..|q|];
  }

  /** `get` on a directory: missing file or an entry older than the TTL reads as None. */
  function Lookup(files: map<string, CacheFile>, provider: string, now: int): Option<seq<ModelInfo>>
  {
    var f := CacheFileName(provider);
    if f !in files then None
    else if now - files[f].cachedAt > CacheTtl then None
    else Some(files[f].models)
  }

  /** `set` on a directory: the provider's file is (over)written with the current time. */
  function Store(files: map<string, CacheFile>, provider: string, models: seq<ModelInfo>, now: int): map<string, CacheFile>
  {
    files[CacheFileName(provider) := CacheFile(now, provider, models)]
  }

  /** `invalidate` on a directory: the provider's file is deleted if it is there. */
  function Remove(files: map<string, CacheFile>, provider: string): map<string, CacheFile>
  {
    files - {CacheFileName(provider)}
  }

  class CacheManager {
    /** The cache directory: one file per provider, keyed by file name. */
    var files: map<string, CacheFile>

    /** `CacheManager()`: creating the directory leaves any files already in it as they are. */
    constructor(existing: map<string, CacheFile>)
      ensures files == existing
    {
      files := existing;
    }

    /** `get(provider_name)`: reads, never writes, even when the entry has expired. */
    method Get(provider: string, now: int) returns (r: Option<seq<ModelInfo>>)
      ensures r == Lookup(files, provider, now)
      ensures r.Some? <==> CacheFileName(provider) in files
                           && now - files[CacheFileName(provider)].cachedAt <= CacheTtl
      ensures r.Some? ==> r.value == files[CacheFileName(provider)].models
    {
      var f := CacheFileName(provider);
      if f !in files {
        return None;
      }
      var entry := files[f];
      if now - entry.cachedAt > CacheTtl {
        return None;
      }
      r := Some(entry.models);
    }

    /** `set(provider_name, models)` */
    method Set(provider: string, models: seq<ModelInfo>, now: int)
      modifies this
      ensures files == Store(old(files), provider, models, now)
    {
      files := files[CacheFileName(provider) := CacheFile(now, provider, models)];
    }

    /** `invalidate(provider_name)`; a file that is not there is no error. */
    method Invalidate(provider: string)
      modifies this
      ensures files == Remove(old(files), provider)
    {
      var f := CacheFileName(provider);
      if f in files {
        files := files - {f};
      }
    }
  }

  /** A provider that has never been cached reads as None. */
  lemma LookupWithoutEntry(files: map<string, CacheFile>, provider: string, now: int)
    requires CacheFileName(provider) !in files
    ensures Lookup(files, provider, now) == None
  {
  }

  /** `set` then `get` before the TTL has run out returns the stored models; the boundary is inclusive. */
  lemma StoreThenLookup(files: map<string, CacheFile>, provider: string, models: seq<ModelInfo>, stored: int, now: int)
    requires now - stored <= CacheTtl
    ensures Lookup(Store(files, provider, models, stored), provider, now) == Some(models)
  {
  }

  /** Once strictly more than the TTL has passed the entry reads as None, though the file is still there. */
  lemma LookupAfterExpiry(files: map<string, CacheFile>, provider: string, models: seq<ModelInfo>, stored: int, now: int)
    requires now - stored > CacheTtl
    ensures Lookup(Store(files, provider, models, stored), provider, now) == None
    ensures CacheFileName(provider) in Store(files, provider, models, stored)
  {
  }

  /** `set(p, _)` changes p's file only: every other provider reads as before. */
  lemma StoreKeepsOthers(files: map<string, CacheFile>, p: string, q: string, models: seq<ModelInfo>, stored: int, now: int)
    requires p != q
    ensures Lookup(Store(files, p, models, stored), q, now) == Lookup(files, q, now)
  {
    if CacheFileName(p) == CacheFileName(q) {
      CacheFileNameInjective(p, q);
    }
  }

  /** `invalidate(p)` leaves p uncached and every other provider as it was. */
  lemma RemoveEffect(files: map<string, CacheFile>, p: string, q: string, now: int)
    ensures Lookup(Remove(files, p), p, now) == None
    ensures p != q ==> Lookup(Remove(files, p), q, now) == Lookup(files, q, now)
  {
    if p != q && CacheFileName(p) == CacheFileName(q) {
      CacheFileNameInjective(p, q);
    }
  }

  /** Invalidating twice is the same as invalidating once. */
  lemma RemoveIdempotent(files: map<string, CacheFile>, p: string)
    ensures Remove(Remove(files, p), p) == Remove(files, p)
  {
  }
}
