/** The persisted name-to-location cache.  The file system is an object whose
    `files` map sends a path to what is stored there; the outcome of writing the
    file and the platform's cache directory are inputs.  The pure functions
    below specify each operation; the class methods are proved to follow them. */
module NameCache {
  import opened Errors
  import opened Geo

  const CACHE_FILENAME: string := "location_cache.json"

  /** What the platform directory lookup for the application yields: no
      per-user cache directory, or one, together with whether creating it
      (`create_dir_all`) succeeds. */
  datatype ProjectDirs = NoProjectDirs | ProjectDirs(cacheDir: string, creatable: bool)

  /** What the file at a path holds: a readable cache JSON document and the map it
      encodes, or anything that does not parse as one. */
  datatype FileContent = CacheJson(data: map<string, Location>) | Unparsable

  /** How an attempt to rewrite the cache file goes: the file cannot be
      created; it is created (truncated) but the map cannot be encoded; it is
      created but the write fails part way; or everything is written. */
  datatype WriteOutcome = CreateFailed | EncodeFailed | WriteFailed | Written

  /** The result of `serialize_and_save` and the files afterwards. */
  datatype Saved = Saved(result: Result<()>, files: map<string, FileContent>)

  /** The result of `fetch`, the cache map and the files afterwards, and how
      many times the miss handler was run. */
  datatype FetchState = FetchState(
    result: Result<Location>,
    data: map<string, Location>,
    files: map<string, FileContent>,
    onMissCalls: nat)

  /** `path.join(name)` for a relative file name: an empty base gives the
      name itself, and a separator is added only when the base lacks one. */
  function JoinPath(dir: string, name: string): string
  {
    if |dir| == 0 then name
    else if dir[|dir| - 1] == '/' then dir + name else dir + "/" + name
  }

  /** `cache_file_path`: the cache file inside the application's cache
      directory; every failure to find or create the directory is a
      CacheLoadError. */
  function CacheFilePath(dirs: ProjectDirs): (r: Result<string>)
    ensures r.Ok? <==> dirs.ProjectDirs? && dirs.creatable
    ensures r.Err? ==> r.error == CacheLoadError
    ensures r.Ok? ==> dirs.cacheDir <= r.value
    ensures r.Ok? ==> |r.value| >= |CACHE_FILENAME| && r.value[|r.value| - |CACHE_FILENAME|..] == CACHE_FILENAME
  {
    match dirs
    case NoProjectDirs => Err(CacheLoadError)
    case ProjectDirs(dir, creatable) =>
      if !creatable then Err(CacheLoadError) else Ok(JoinPath(dir, CACHE_FILENAME))
  }

  /** `deserialize_json`: the map stored in the file; a missing file and a
      file that does not parse are both CacheLoadError. */
  function DeserializeJson(files: map<string, FileContent>, path: string): (r: Result<map<string, Location>>)
    ensures r.Ok? <==> path in files && files[path].CacheJson?
    ensures r.Ok? ==> r.value == files[path].data
    ensures r.Err? ==> r.error == CacheLoadError
  {
    if path in files then
      match files[path]
      case CacheJson(data) => Ok(data)
      case Unparsable => Err(CacheLoadError)
    else Err(CacheLoadError)
  }

  /** `serialize_and_save`: rewrite the file with the whole map.  A file that
      could not be created is left as it was; one that was created but not
      fully written no longer parses.  Every failure is a CacheWriteError. */
  function SerializeAndSave(files: map<string, FileContent>, path: string, data: map<string, Location>, w: WriteOutcome): (s: Saved)
    ensures s.result.Ok? <==> w == Written
    ensures s.result.Err? ==> s.result.error == CacheWriteError
    ensures w == Written ==> s.files == files[path := CacheJson(data)]
    ensures w == CreateFailed ==> s.files == files
    ensures forall p :: p in files && p != path ==> p in s.files && s.files[p] == files[p]
    ensures forall p :: p in s.files ==> p in files || p == path
  {
    match w
    case CreateFailed => Saved(Err(CacheWriteError), files)
    case EncodeFailed => Saved(Err(CacheWriteError), files[path := Unparsable])
    case WriteFailed => Saved(Err(CacheWriteError), files[path := Unparsable])
    case Written => Saved(Ok(()), files[path := CacheJson(data)])
  }

  /** `fetch`: a hit answers from memory; a miss runs the miss handler once and,
      if that succeeds, stores its location and saves the whole map. */
  function FetchSpec(data: map<string, Location>, files: map<string, FileContent>, path: string,
                     name: string, onMiss: Result<Location>, w: WriteOutcome): FetchState
  {
    if name in data then FetchState(Ok(data[name]), data, files, 0)
    else match onMiss
      case Err(e) => FetchState(Err(e), data, files, 1)
      case Ok(l) =>
        var data' := data[name := l];
        var saved := SerializeAndSave(files, path, data', w);
        if saved.result.Err? then FetchState(Err(CacheWriteError), data', saved.files, 1)
        else FetchState(Ok(l), data', saved.files, 1)
  }

  /** A hit returns the stored location, does not run the miss handler and
      changes neither the map nor the files; no miss handler and no write
      outcome make a difference. */
  lemma FetchHit(data: map<string, Location>, files: map<string, FileContent>, path: string,
                 name: string, onMiss: Result<Location>, w: WriteOutcome, onMiss': Result<Location>, w': WriteOutcome)
    requires name in data
    ensures FetchSpec(data, files, path, name, onMiss, w) == FetchState(Ok(data[name]), data, files, 0)
    ensures FetchSpec(data, files, path, name, onMiss, w) == FetchSpec(data, files, path, name, onMiss', w')
  {
  }

  /** A miss whose handler fails returns that very error, runs the handler
      once, and leaves the map and the files alone. */
  lemma FetchMissHandlerFails(data: map<string, Location>, files: map<string, FileContent>, path: string,
                              name: string, e: SunshineError, w: WriteOutcome)
    requires name !in data
    ensures FetchSpec(data, files, path, name, Err(e), w) == FetchState(Err(e), data, files, 1)
  {
  }

  /** A miss whose handler succeeds runs it exactly once and stores its
      location in memory whatever happens to the file; if the save succeeds
      the location is returned and the file holds the whole new map, and
      otherwise the result is CacheWriteError. */
  lemma FetchMissHandlerSucceeds(data: map<string, Location>, files: map<string, FileContent>, path: string,
                                 name: string, l: Location, w: WriteOutcome)
    requires name !in data
    ensures var st := FetchSpec(data, files, path, name, Ok(l), w);
      && st.onMissCalls == 1
      && st.data == data[name := l]
      && name in st.data && st.data[name] == l
      && (forall k :: k in data ==> k in st.data && st.data[k] == data[k])
      && (w == Written ==> st.result == Ok(l) && st.files == files[path := CacheJson(st.data)])
      && (w != Written ==> st.result == Err(CacheWriteError))
  {
  }

  /** The cache only ever stores successful resolutions: every entry after a
      fetch was there before or is the location the handler returned. */
  lemma FetchStoresOnlySuccesses(data: map<string, Location>, files: map<string, FileContent>, path: string,
                                 name: string, onMiss: Result<Location>, w: WriteOutcome)
    ensures var st := FetchSpec(data, files, path, name, onMiss, w);
      forall k :: k in st.data ==> (k in data && st.data[k] == data[k]) || (k == name && onMiss == Ok(st.data[k]))
  {
  }

  /** A fetch touches no file but the cache file. */
  lemma FetchTouchesOnlyCacheFile(data: map<string, Location>, files: map<string, FileContent>, path: string,
                                  name: string, onMiss: Result<Location>, w: WriteOutcome, p: string)
    requires p != path
    ensures var st := FetchSpec(data, files, path, name, onMiss, w);
      (p in st.files <==> p in files) && (p in files ==> st.files[p] == files[p])
  {
  }

  /** Loading after a successful save gives back the map that was saved. */
  lemma LoadAfterSave(files: map<string, FileContent>, path: string, data: map<string, Location>)
    ensures DeserializeJson(SerializeAndSave(files, path, data, Written).files, path) == Ok(data)
  {
  }

  /** After a fetch that returned a location, fetching the same name again
      is a hit with the same answer, whatever the handler would say. */
  lemma FetchAgainHits(data: map<string, Location>, files: map<string, FileContent>, path: string,
                       name: string, onMiss: Result<Location>, w: WriteOutcome,
                       onMiss': Result<Location>, w': WriteOutcome)
    requires FetchSpec(data, files, path, name, onMiss, w).result.Ok?
    ensures var st := FetchSpec(data, files, path, name, onMiss, w);
      FetchSpec(st.data, st.files, path, name, onMiss', w') == FetchState(st.result, st.data, st.files, 0)
  {
  }

  /** After a miss that was populated and saved, a cache loaded afresh from
      the file answers the name from memory without running any handler. */
  lemma SavedMissServesLaterLoads(data: map<string, Location>, files: map<string, FileContent>, path: string,
                                  name: string, l: Location, onMiss': Result<Location>, w': WriteOutcome)
    requires name !in data
    ensures var st := FetchSpec(data, files, path, name, Ok(l), Written);
      && DeserializeJson(st.files, path) == Ok(data[name := l])
      && FetchSpec(data[name := l], st.files, path, name, onMiss', w') == FetchState(Ok(l), data[name := l], st.files, 0)
  {
  }

  /** The file system: what each path holds. */
  class FileSystem {
    var files: map<string, FileContent>

    constructor (files: map<string, FileContent>)
      ensures this.files == files
    {
      this.files := files;
    }
  }

  /** `LocationCache`: the in-memory map and the path of the file it persists to. */
  class LocationCache {
    var data: map<string, Location>
    const filename: string

    constructor (filename: string, data: map<string, Location>)
      ensures this.filename == filename && this.data == data
    {
      this.filename := filename;
      this.data := data;
    }

    /** `new`: an empty cache bound to the cache file, or CacheLoadError when
        the cache directory cannot be found or created. */
    static method New(dirs: ProjectDirs) returns (r: Result<LocationCache>)
      ensures r.Ok? <==> CacheFilePath(dirs).Ok?
      ensures r.Err? ==> r.error == CacheLoadError
      ensures r.Ok? ==> fresh(r.value) && r.value.data == map[] && r.value.filename == CacheFilePath(dirs).value
    {
      var path := CacheFilePath(dirs);
      if path.Err? {
        return Err(path.error);
      }
      var cache := new LocationCache(path.value, map[]);
      return Ok(cache);
    }

    /** `load`: the cache as stored in the cache file; a missing directory, a
        missing or unreadable file and a file that does not parse are all
        CacheLoadError. */
    static method Load(dirs: ProjectDirs, fs: FileSystem) returns (r: Result<LocationCache>)
      ensures r.Ok? <==> CacheFilePath(dirs).Ok? && DeserializeJson(fs.files, CacheFilePath(dirs).value).Ok?
      ensures r.Err? ==> r.error == CacheLoadError
      ensures r.Ok? ==> fresh(r.value) && r.value.filename == CacheFilePath(dirs).value
      ensures r.Ok? ==> r.value.data == DeserializeJson(fs.files, r.value.filename).value
    {
      var path := CacheFilePath(dirs);
      if path.Err? {
        return Err(path.error);
      }
      var data := DeserializeJson(fs.files, path.value);
      if data.Err? {
        return Err(data.error);
      }
      var cache := new LocationCache(path.value, data.value);
      return Ok(cache);
    }

    /** `save`: rewrite the cache file with the whole in-memory map. */
    method Save(fs: FileSystem, w: WriteOutcome) returns (r: Result<()>)
      modifies fs
      ensures Saved(r, fs.files) == SerializeAndSave(old(fs.files), filename, data, w)
    {
      var saved := SerializeAndSave(fs.files, filename, data, w);
      fs.files := saved.files;
      r := saved.result;
    }

    /** `get`: the stored location for a name, looked up in memory only. */
    function Get(name: string): (r: Option<Location>)
      reads this
      ensures r.Some? <==> name in data
      ensures r.Some? ==> r.value == data[name]
    {
      if name in data then Some(data[name]) else None
    }

    /** `set`: insert or overwrite the in-memory entry for a name. */
    method Set(name: string, l: Location)
      modifies this
      ensures data == old(data)[name := l]
      ensures Get(name) == Some(l)
      ensures forall k :: k != name ==> Get(k) == old(Get(k))
    {
      data := data[name := l];
    }

    /** `fetch`: answer from memory on a hit; on a miss run the handler (its
        result is `onMiss`; `calls` counts the runs), store its location, save,
        and report a failed save as CacheWriteError. */
    method Fetch(name: string, onMiss: Result<Location>, fs: FileSystem, w: WriteOutcome)
      returns (r: Result<Location>, ghost calls: nat)
      modifies this, fs
      ensures FetchState(r, data, fs.files, calls) == FetchSpec(old(data), old(fs.files), filename, name, onMiss, w)
    {
      calls := 0;
      var hit := Get(name);
      if hit.Some? {
        return Ok(hit.value), calls;
      }
      calls := calls + 1;
      if onMiss.Err? {
        return Err(onMiss.error), calls;
      }
      var l := onMiss.value;
      Set(name, l);
      var saved := Save(fs, w);
      if saved.Err? {
        return Err(CacheWriteError), calls;
      }
      return Ok(l), calls;
    }
  }
}
