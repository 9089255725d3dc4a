/** The cache-or-fetch protocol of `WeatherClient._get_weather`: read the
    cached record, drop it when it is expired or malformed, otherwise fetch a
    fresh document, persist it, and hand the chosen document to the loader. */
module Cache {
  import opened Errors
  import opened Json

  /** What a cache file holds: a JSON document, or bytes `json.load`
      rejects. */
  datatype Stored = Document(doc: Json) | Garbage

  /** The cache directory: a path maps to the file stored there. */
  class Disk {
    var files: map<string, Stored>

    constructor (files0: map<string, Stored>)
      ensures files == files0
    {
      files := files0;
    }

    /** `WeatherClient._save`: `json.dump` of the document to the path,
        replacing whatever was there. */
    method Save(path: string, doc: Json)
      modifies this
      ensures files == old(files)[path := Document(doc)]
    {
      files := files[path := Document(doc)];
    }
  }

  /** `WeatherClient._load_cached_data`: no file gives `None`; a file holding
      JSON `null` also gives `None`; a file that is not JSON raises. */
  function LoadCached(files: map<string, Stored>, path: string): (r: Result<Option<Json>>)
    ensures r.Err? <==> path in files && files[path].Garbage?
    ensures r.Err? ==> r.error == JsonDecodeError
    ensures r.Ok? && r.value.Some? ==> path in files && files[path] == Document(r.value.value) && r.value.value != JNull
  {
    if path !in files then Ok(None)
    else match files[path]
      case Garbage => Err(JsonDecodeError)
      case Document(JNull) => Ok(None)
      case Document(doc) => Ok(Some(doc))
  }

  /** What `_get_weather` does with the record it read. */
  datatype Decision =
    | UseCache(doc: Json)   // hand the record to the loader, no fetch
    | Refetch               // fetch, save, hand the fetched document to the loader
    | Fail(error: Error)    // an exception escapes before anything is fetched

  /** Lines 34-50 of `_get_weather` up to the fetch. The expiry predicate
      runs only when checking is enabled and the record is truthy; its
      `TypeError` and `KeyError` mark the record as malformed (so it is
      refetched) while any other exception escapes. A record that is present
      but not used up is never dropped: a falsy `{}` skips the check and is
      handed to the loader as it is. */
  function Decide(checkExpired: bool, loaded: Result<Option<Json>>, isExpired: Json -> Result<bool>): (d: Decision)
    ensures loaded.Err? ==> d == Fail(loaded.error)
    ensures loaded == Ok(None) ==> d == Refetch
    ensures d.UseCache? ==> loaded == Ok(Some(d.doc))
    ensures d.Fail? && loaded.Ok? ==>
              checkExpired && Truthy(loaded.value.value) && isExpired(loaded.value.value) == Err(d.error)
              && !IsCaughtByCacheCheck(d.error)
  {
    match loaded
    case Err(e) => Fail(e)
    case Ok(None) => Refetch
    case Ok(Some(doc)) =>
      if checkExpired && Truthy(doc) then
        match isExpired(doc)
        case Ok(true) => Refetch
        case Ok(false) => UseCache(doc)
        case Err(e) => if IsCaughtByCacheCheck(e) then Refetch else Fail(e)
      else UseCache(doc)
  }

  /** The document `load` receives (or the exception raised instead), given
      the decision and what `fetch()` returns or raises. */
  function Handed(d: Decision, fetched: Result<Json>): (r: Result<Json>)
    ensures d.Refetch? ==> r == fetched
    ensures d.UseCache? ==> r == Ok(d.doc)
    ensures d.Fail? ==> r == Err(d.error)
  {
    match d
    case UseCache(doc) => Ok(doc)
    case Refetch => fetched
    case Fail(e) => Err(e)
  }

  /** The cache directory afterwards: only a successful fetch writes, and it
      writes the fetched document to the one path. */
  function FilesAfter(files: map<string, Stored>, path: string, d: Decision, fetched: Result<Json>): (f: map<string, Stored>)
    ensures f.Keys == files.Keys + (if d.Refetch? && fetched.Ok? then {path} else {})
    ensures forall p :: p in files && p != path ==> f[p] == files[p]
    ensures d.Refetch? && fetched.Ok? ==> f[path] == Document(fetched.value)
    ensures !(d.Refetch? && fetched.Ok?) ==> f == files
  {
    if d.Refetch? && fetched.Ok? then files[path := Document(fetched.value)] else files
  }

  /** `_get_weather` up to the call of `load`: returns the document handed to
      the loader and whether `fetch()` was called. `fetched` is what the
      fetch returns or raises if it is called. */
  method FetchOrCache(disk: Disk, path: string, checkExpired: bool, isExpired: Json -> Result<bool>,
                      fetched: Result<Json>)
    returns (r: Result<Json>, fetchCalled: bool)
    modifies disk
    ensures var d := Decide(checkExpired, LoadCached(old(disk.files), path), isExpired);
            && fetchCalled == d.Refetch?
            && r == Handed(d, fetched)
            && disk.files == FilesAfter(old(disk.files), path, d, fetched)
  {
    var loaded := LoadCached(disk.files, path);
    if loaded.Err? {
      return Err(loaded.error), false;
    }
    var cacheCurrent := loaded.value;
    if checkExpired && cacheCurrent.Some? && Truthy(cacheCurrent.value) {
      var expired := isExpired(cacheCurrent.value);
      if expired.Err? && !IsCaughtByCacheCheck(expired.error) {
        return Err(expired.error), false;
      }
      if expired.Err? || expired.value {
        // an expired or malformed record is dropped
        cacheCurrent := None;
      }
    }
    if cacheCurrent.None? {
      fetchCalled := true;
      if fetched.Err? {
        return fetched, true;
      }
      disk.Save(path, fetched.value);
      r := fetched;
    } else {
      fetchCalled := false;
      r := Ok(cacheCurrent.value);
    }
  }

  // ------------------------------------------------------------ properties

  /** An absent cache (no file, or a `null` document) is fetched, the fetched
      document is written to the cache path verbatim and handed to the
      loader, and no other file changes. */
  lemma AbsentCacheFetches(files: map<string, Stored>, path: string, checkExpired: bool,
                           isExpired: Json -> Result<bool>, doc: Json)
    requires path !in files || files[path] == Document(JNull)
    ensures var d := Decide(checkExpired, LoadCached(files, path), isExpired);
            && d == Refetch
            && Handed(d, Ok(doc)) == Ok(doc)
            && FilesAfter(files, path, d, Ok(doc)) == files[path := Document(doc)]
  {
  }

  /** A present, truthy record is used with no fetch and no write exactly
      when checking is disabled or the predicate says it is fresh. */
  lemma {:induction false} FreshCacheIsUsed(files: map<string, Stored>, path: string, checkExpired: bool,
                                            isExpired: Json -> Result<bool>, fetched: Result<Json>)
    requires path in files && files[path].Document? && files[path].doc != JNull && Truthy(files[path].doc)
    ensures var d := Decide(checkExpired, LoadCached(files, path), isExpired);
            d.UseCache? <==> !checkExpired || isExpired(files[path].doc) == Ok(false)
    ensures var d := Decide(checkExpired, LoadCached(files, path), isExpired);
            d.UseCache? ==> Handed(d, fetched) == Ok(files[path].doc) && FilesAfter(files, path, d, fetched) == files
  {
    assert LoadCached(files, path) == Ok(Some(files[path].doc));
  }

  /** A present record on which the predicate raises: `TypeError` and
      `KeyError` make it a refetch, every other exception escapes without a
      fetch and without a write. */
  lemma {:induction false} PredicateErrors(files: map<string, Stored>, path: string,
                                           isExpired: Json -> Result<bool>, e: Error, fetched: Result<Json>)
    requires path in files && files[path].Document? && files[path].doc != JNull && Truthy(files[path].doc)
    requires isExpired(files[path].doc) == Err(e)
    ensures var d := Decide(true, LoadCached(files, path), isExpired);
            (d == Refetch <==> e == TypeError || e == KeyError)
            && (d != Refetch ==> Handed(d, fetched) == Err(e) && FilesAfter(files, path, d, fetched) == files)
  {
    assert LoadCached(files, path) == Ok(Some(files[path].doc));
  }

  /** An empty document (`{}`, `[]`, `""`, `0`, `false`) skips the expiry
      check, however the predicate would have failed on it, and is handed
      to the loader as it is: it is never refetched. */
  lemma {:induction false} EmptyCacheIsNotRefetched(files: map<string, Stored>, path: string, checkExpired: bool,
                                                    isExpired: Json -> Result<bool>, fetched: Result<Json>)
    requires path in files && files[path].Document? && files[path].doc != JNull && !Truthy(files[path].doc)
    ensures var d := Decide(checkExpired, LoadCached(files, path), isExpired);
            d == UseCache(files[path].doc) && Handed(d, fetched) == Ok(files[path].doc)
            && FilesAfter(files, path, d, fetched) == files
  {
    assert LoadCached(files, path) == Ok(Some(files[path].doc));
  }

  /** A file that is not JSON makes `_get_weather` raise before any fetch. */
  lemma CorruptCacheRaises(files: map<string, Stored>, path: string, checkExpired: bool,
                           isExpired: Json -> Result<bool>, fetched: Result<Json>)
    requires path in files && files[path] == Garbage
    ensures var d := Decide(checkExpired, LoadCached(files, path), isExpired);
            Handed(d, fetched) == Err(JsonDecodeError) && FilesAfter(files, path, d, fetched) == files
  {
  }

  /** A failing fetch propagates its exception and writes nothing. */
  lemma FailedFetchWritesNothing(files: map<string, Stored>, path: string, checkExpired: bool,
                                 isExpired: Json -> Result<bool>, e: Error)
    ensures var d := Decide(checkExpired, LoadCached(files, path), isExpired);
            d == Refetch ==> Handed(d, Err(e)) == Err(e) && FilesAfter(files, path, d, Err(e)) == files
  {
  }

  /** What one call writes, the next call reads: after a successful refetch
      of a non-null document, the next call uses that document without
      fetching as long as the predicate calls it fresh. */
  lemma {:induction false} WrittenRecordIsReused(files: map<string, Stored>, path: string, checkExpired: bool,
                                                 isExpired: Json -> Result<bool>, doc: Json,
                                                 isExpiredLater: Json -> Result<bool>, fetchedLater: Result<Json>)
    requires Decide(checkExpired, LoadCached(files, path), isExpired) == Refetch
    requires doc != JNull
    requires !checkExpired || !Truthy(doc) || isExpiredLater(doc) == Ok(false)
    ensures var files' := FilesAfter(files, path, Refetch, Ok(doc));
            var d' := Decide(checkExpired, LoadCached(files', path), isExpiredLater);
            d' == UseCache(doc) && Handed(d', fetchedLater) == Ok(doc) && FilesAfter(files', path, d', fetchedLater) == files'
  {
    var files' := FilesAfter(files, path, Refetch, Ok(doc));
    assert files'[path] == Document(doc);
    assert LoadCached(files', path) == Ok(Some(doc));
  }
}
