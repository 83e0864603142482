# sunshine: location resolution and the name cache, in Dafny

This project models the location resolver of `sunshine`, a command-line tool
that decides whether it is day or night at a place. A user names the place
with a *location descriptor*. Its first character selects a strategy:

- `@lat long`: explicit coordinates;
- `#name`: a place name, answered from a cache file or else from a geocoding API;
- `!fallback`: the automatic chain. It tries the native location service, then
  IP-based lookup, then resolves the embedded fallback descriptor;
- `.`: IP-based lookup.

The model also covers the persisted name cache (`LocationCache`), the older
resolver and day/night rule kept in the `sunshine` module (`src/sunshine/mod.rs`),
and the error type.

Files and modules:

- `errors.dfy` (`Errors`): the closed `SunshineError` sum type with its
  `Display` text, `description`, `cause` and the two `From` conversions. It also
  holds `Result<T>` and `Option<T>`.
- `geo.dfy` (`Geo`): the `Location` pair. It also models `str::split(' ')` as
  `Split`, with its inverse `Join`, and declares the number-parser type `NumParser`.
- `name_cache.dfy` (`NameCache`): pure specifications of `cache_file_path`,
  `deserialize_json`, `serialize_and_save` and `fetch`. The class
  `LocationCache` has a `data` map field, and its methods `New`, `Load`, `Save`,
  `Get`, `Set` and `Fetch` are proved to follow those specifications. The file
  system is an object, `FileSystem`, whose `files` map sends a path to what the
  file there holds.
- `locators.dfy` (`Locators`): the resolver `Resolve` / `Auto` as pure
  recursive functions. Each strategy is a function of what its collaborator
  answered (`Env`). The name lookup is given twice: `NameLookup` specifies it, and
  the method `LocationFromName` drives a `LocationCache` object and is proved to
  agree with it.
- `snapshot.dfy` (`Snapshot`): the older resolver from the `sunshine` module (`src/sunshine/mod.rs`) and the
  `time_of_day` rule of `calculate`, with lemmas relating it to the current resolver.

Collaborators that perform input/output are parameters:

- `Env.native`: the native-service capability. It is either the non-macOS stub
  or CoreLocation together with its answer.
- `Env.network`: the IP lookup's HTTP exchange.
- `Env.geocoder`: the geocoding exchange for each name.
- `Env.dirs`: the platform cache directory and whether it can be created.
- `Env.write`: how a save goes.
- `parse`: number parsing (`str::parse::<f64>`), uninterpreted.

Behaviour of the code that the model keeps:

- The code panics on an empty descriptor and on one whose first character is
  longer than one byte, because `&location[..1]` slices bytes. It panics the
  same way when a `!` chain reaches an empty fallback. The model excludes these
  inputs with the precondition `Locators.Defined`.
- The coordinate parser parses the first two space-separated tokens and ignores
  any further ones (`Locators.CoordsFromFirstTwoTokens`).
- Every cache-loading failure is `CacheLoadError`: a missing or uncreatable
  directory, an unreadable file and an unparsable file alike. Every save
  failure is `CacheWriteError`.
- A native service that is missing gives `CoreLocationUnavailable`, and one
  that answers with a failure gives `CoreLocationError` wrapping that failure.

## Model

| member | source | states |
|---|---|---|
| `Errors.FromHttp` | src/sunshine/errors.rs:50-54 | the converted transport error is an `ApiError` whose `cause` is that same error |
| `Errors.FromJson` | src/sunshine/errors.rs:56-60 | the converted JSON error is a `JsonError` whose `cause` is that same error |
| `Errors.CauseIsWrappedError` | src/sunshine/errors.rs:39-47 | `cause` is absent exactly for the payload-free variants; for `ApiError`, `JsonError` and `CoreLocationError` it is the wrapped error |
| `Errors.ConversionsRoundTrip` | src/sunshine/errors.rs:50-60 | `cause` inverts both `From` conversions, and the two conversions never give the same error |
| `Errors.DescriptionPrefixesDisplay` | src/sunshine/errors.rs:16-37 | `description` is a prefix of the `Display` text for every variant, and equal to it for every variant whose message does not print a payload |
| `Errors.DisplayDistinguishesVariants` | src/sunshine/errors.rs:17-25 | two errors with equal `Display` text are of the same variant |
| `Geo.JoinSplit` | src/sunshine/locators.rs:73 | joining the pieces of `split(' ')` with spaces gives back the input |
| `Geo.SplitJoin` | src/sunshine/locators.rs:73 | splitting a join of space-free pieces gives back the pieces |
| `Geo.SplitPiecesHaveNoSpace` | src/sunshine/locators.rs:73 | no piece of a split contains a space |
| `Geo.SplitWithoutSpace` | src/sunshine/locators.rs:73 | a string without a space splits into itself alone |
| `Geo.SplitAtFirstSpace` | src/sunshine/locators.rs:73 | the first piece is everything before the first space, and the rest is the split of what follows |
| `NameCache.CacheFilePath` | src/sunshine/name_cache.rs:95-104 | a path exists exactly when the cache directory is found and can be created; it starts with the directory and ends with `location_cache.json`; every failure is `CacheLoadError` |
| `NameCache.DeserializeJson` | src/sunshine/name_cache.rs:106-109 | loading succeeds exactly when the file exists and parses, gives the stored map, and otherwise fails with `CacheLoadError` |
| `NameCache.SerializeAndSave` | src/sunshine/name_cache.rs:111-122 | saving succeeds exactly when the write goes through, and the file then holds the whole map; every failure is `CacheWriteError`; no other file changes |
| `NameCache.FetchHit` | src/sunshine/name_cache.rs:77-78 | on a hit `fetch` returns the stored location, runs the handler zero times, and changes neither the map nor the files; the result is the same whatever the handler and the save would do |
| `NameCache.FetchMissHandlerFails` | src/sunshine/name_cache.rs:80 | on a miss with a failing handler, `fetch` returns that error unchanged, runs the handler once, and changes nothing |
| `NameCache.FetchMissHandlerSucceeds` | src/sunshine/name_cache.rs:80-83 | on a miss with a successful handler, `fetch` runs the handler once and the map gains the entry while keeping every old one; a saved write returns the location and puts the whole map in the file; a failed save returns `CacheWriteError` but keeps the entry in memory |
| `NameCache.FetchStoresOnlySuccesses` | src/sunshine/name_cache.rs:79-84 | every entry after `fetch` was there before or is the handler's successful location |
| `NameCache.FetchTouchesOnlyCacheFile` | src/sunshine/name_cache.rs:73-86 | `fetch` changes no file but the cache file |
| `NameCache.LoadAfterSave` | src/sunshine/name_cache.rs:106-122 | loading after a successful save gives back the saved map |
| `NameCache.FetchAgainHits` | src/sunshine/name_cache.rs:73-86 | after a `fetch` that returned a location, a second `fetch` of the name is a hit with the same answer |
| `NameCache.SavedMissServesLaterLoads` | src/sunshine/name_cache.rs:50-86 | after a miss that was filled and saved, a cache loaded from the file answers the name without running the handler |
| `NameCache.LocationCache.New` | src/sunshine/name_cache.rs:40-48 | gives a fresh empty cache bound to the cache file path, or `CacheLoadError` exactly when there is no path |
| `NameCache.LocationCache.Load` | src/sunshine/name_cache.rs:50-57 | gives a fresh cache holding the map in the cache file; it fails with `CacheLoadError` exactly when there is no path or that file cannot be loaded |
| `NameCache.LocationCache.Save` | src/sunshine/name_cache.rs:59-61 | the result and the new files are those of `SerializeAndSave` on the whole in-memory map |
| `NameCache.LocationCache.Get` | src/sunshine/name_cache.rs:63-65 | a pure in-memory lookup: present exactly when the name is a key, and then the stored location |
| `NameCache.LocationCache.Set` | src/sunshine/name_cache.rs:67-71 | afterwards `Get` of the name is the new location and every other name looks up as before |
| `NameCache.LocationCache.Fetch` | src/sunshine/name_cache.rs:73-86 | the result, the new map, the new files and the handler count are those of `FetchSpec` |
| `Locators.FromCoords` | src/sunshine/locators.rs:72-93 | every failure of the coordinate parser is `MalformedLocationString` |
| `Locators.CoordsFromFirstTwoTokens` | src/sunshine/locators.rs:72-93 | two space-free tokens give exactly their parsed latitude and longitude, or malformed when one does not parse; tokens after the second are ignored |
| `Locators.CoordsNeedTwoTokens` | src/sunshine/locators.rs:80-91 | a payload without a space is malformed whatever the number parser says |
| `Locators.CoordsSucceedExactlyWhenTokensParse` | src/sunshine/locators.rs:72-93 | the parser succeeds exactly when there are at least two tokens and the first two parse, and then gives those two numbers |
| `Locators.CoordsExample` | src/sunshine/locators.rs:174-177 | `"49.9 11.5"` gives (49.9, 11.5) |
| `Locators.CoordsMalformedExample` | src/sunshine/locators.rs:179-182 | `"foobar"` is malformed |
| `Locators.FromFreeGeo` | src/sunshine/locators.rs:39-46 | the IP lookup's latitude and longitude become the location's |
| `Locators.FromNetwork` | src/sunshine/locators.rs:139-150 | the IP lookup fails only with `ApiError` or `JsonError`, and a decoded body gives a location with its own latitude and longitude |
| `Locators.NetworkErrors` | src/sunshine/locators.rs:139-150 | the IP lookup succeeds exactly when the exchange yields a decoded body, and then gives that body's latitude and longitude; a transport failure is an error caused by it, and so is a JSON failure |
| `Locators.NetworkExample` | src/sunshine/locators.rs:184-203 | the body with latitude 45.8293 and longitude 15.9793 gives that location |
| `Locators.FromNominatim` | src/sunshine/locators.rs:48-54 | converting a geocoder candidate fails only with `MalformedLocationString` |
| `Locators.NominatimFields` | src/sunshine/locators.rs:48-54 | a candidate with space-free fields gives exactly its parsed `lat` and `lon` |
| `Locators.CandidateSelection` | src/sunshine/locators.rs:126-129 | an empty candidate list is `UnknownLocationName`; otherwise the result is the first candidate's conversion, whatever the later candidates are |
| `Locators.GeocodeOnMiss` | src/sunshine/locators.rs:104-130 | a transport failure is `ApiError` wrapping it and an undecodable body is `JsonError` wrapping it; a decoded empty list is `UnknownLocationName`, and a decoded non-empty list gives exactly the conversion of its first candidate, success or `MalformedLocationString` alike |
| `Locators.GeocodeExample` | src/sunshine/locators.rs:205-224 | of two Amsterdam candidates only the first one's coordinates are used; an empty reply is `UnknownLocationName` |
| `Locators.FromCoreLocation` | src/sunshine/locators.rs:152-163 | off macOS the result is always `CoreLocationUnavailable`; on macOS it is the fix, or `CoreLocationError` caused by the service's failure |
| `Locators.LocationFromName` | src/sunshine/locators.rs:101-131 | loading the cache, else creating an empty one, and then `fetch`, gives the result and files of `NameLookup` |
| `Locators.NameLookupHit` | src/sunshine/locators.rs:101-104 | a name present in the cache file is answered from it; no file changes, and the geocoder and the save outcome play no part |
| `Locators.NameLookupWithoutCacheFile` | src/sunshine/locators.rs:102-104 | with the cache file missing or corrupt, the lookup starts from an empty cache, and a successful save leaves a file holding just the new entry |
| `Locators.NameLookupWithoutCacheDir` | src/sunshine/locators.rs:102 | without a cache directory the lookup fails with `CacheLoadError` and changes nothing |
| `Locators.NameLookupRepeats` | src/sunshine/locators.rs:101-131 | once a lookup has produced a location, the same lookup in the resulting file system gives it again, changes nothing, and does not depend on the geocoder or the save outcome |
| `Locators.NameLookupTouchesOnlyCacheFile` | src/sunshine/locators.rs:101-131 | a name lookup changes no file but the cache file |
| `Locators.ResolveCoords` | src/sunshine/locators.rs:56-58 | `@` yields the coordinate parser's result on the rest of the descriptor; no other strategy, the cache or the file system plays any part |
| `Locators.ResolveUnknownSigil` | src/sunshine/locators.rs:56-63 | any one-byte first character other than `@ # ! .` is `MalformedLocationString` |
| `Locators.ResolveNetwork` | src/sunshine/locators.rs:61 | `.` yields the IP lookup result whatever follows it, and changes no file |
| `Locators.ResolveName` | src/sunshine/locators.rs:59 | `#` is a name lookup of the rest of the descriptor |
| `Locators.AutoNativeFirst` | src/sunshine/locators.rs:66-70 | a native fix is the result of the chain; the network, the fallback and the cache play no part |
| `Locators.AutoNetworkSecond` | src/sunshine/locators.rs:66-70 | after a native failure, a network fix is the result; the fallback and the cache play no part |
| `Locators.AutoFallbackLast` | src/sunshine/locators.rs:66-70 | when both fail, the chain is exactly the resolution of the fallback descriptor |
| `Locators.DefinedOnlyOnStrategies` | src/sunshine/locators.rs:56-70 | whether a descriptor resolves without panicking depends only on the native and network replies |
| `Locators.NoNameNoCache` | src/sunshine/locators.rs:56-70 | a descriptor without `#` changes no file, and its result depends on neither the geocoder, the cache directory, the save outcome nor the files |
| `Locators.ResolveTouchesOnlyCacheFile` | src/sunshine/locators.rs:56-70 | no resolution changes any file but the cache file |
| `Locators.AutoThenName` | src/sunshine/locators.rs:56-70 | `!#Amsterdam` with native and network failing is the cached name lookup of `Amsterdam` |
| `Locators.NestedFallback` | src/sunshine/locators.rs:56-70 | `!!@0 0` with native and network failing resolves the innermost coordinates (0, 0) |
| `Locators.EmptyCoordinates` | src/sunshine/locators.rs:56-93 | `@` alone is malformed |
| `Snapshot.DayExactlyInsideWindow` | src/sunshine/mod.rs:61-64 | day holds exactly when sunrise < now < sunset, so both boundaries are night |
| `Snapshot.EmptyWindowAlwaysNight` | src/sunshine/mod.rs:61-64 | with sunrise at or after sunset every moment is night |
| `Snapshot.DayIsContiguous` | src/sunshine/mod.rs:61-64 | every moment between two moments of day is day |
| `Snapshot.Coords` | src/sunshine/mod.rs:83-103 | every failure of the older coordinate parser is `MalformedLocationString` |
| `Snapshot.CoordsAgreeWithLocators` | src/sunshine/mod.rs:83-103 | the older coordinate parser accepts exactly what the current one accepts, with the same numbers |
| `Snapshot.CoordsExample` | src/sunshine/mod.rs:122-125 | `"49.9 11.5"` gives (49.9, 11.5) |
| `Snapshot.CoordsMalformedExample` | src/sunshine/mod.rs:127-130 | `"foobar"` is an error |
| `Snapshot.ResolveCoords` | src/sunshine/mod.rs:74-76 | `@` delegates to the older coordinate parser on the rest |
| `Snapshot.ResolveUnknownSigil` | src/sunshine/mod.rs:74-80 | `.` and every other one-byte character except `@ # !` is `MalformedLocationString` |
| `Snapshot.AutoChain` | src/sunshine/mod.rs:111-116 | a CoreLocation fix is returned; otherwise the result is exactly the fallback's, with no network step |
| `Snapshot.AgreesWithCurrentWhenNetworkDown` | src/sunshine/mod.rs:74-116 | with CoreLocation available and the network down, the current resolver succeeds exactly when the older one does, with the same coordinates |

## Left out

- HTTP requests, URL building, the User-Agent header and the test mock server
  are network input/output. Each exchange is an `ApiReply` input: a transport
  failure, a body of the wrong shape, or the decoded body.
- JSON encoding and decoding are foreign calls. The cache file is a
  `FileContent` value: the decoded map, or unparsable. The model assumes that
  the encoding round-trips exactly, which holds in `LoadAfterSave` by construction.
- Floating point is not modelled. Coordinates are `real`, and `str::parse::<f64>`
  is the uninterpreted parameter `parse`.
- CoreLocation on macOS is a foreign platform API. Only its answer, a
  `NativeReply`, is modelled.
- Platform directory discovery and `create_dir_all` are file-system
  input/output. Only their outcome (`ProjectDirs`) is kept. The model does not
  record that the directory exists afterwards.
- File reads fail in one way only. A read failure other than a missing file is
  folded into `Unparsable`, because both give `CacheLoadError`.
- A failed write models the file as `Unparsable`. The truncated or partial
  content is not modelled.
- The sunrise formula, chrono's clock and offset conversion, and `Local::now`
  are external numerics and clock input/output. Only the integer comparison of
  timestamps is kept, and the `Measurements` record is not built.
- `src/main.rs` (argument parsing and printing) is not part of this model.
- The cache file has a last-writer-wins race between concurrent processes.
  Concurrency is out of scope: one resolution runs alone.
- Collaborator answers are fixed for one resolution. A nested chain such as
  `!!x` asks the native service and the IP lookup once per `!`, and the model
  gives the same answer each time.
- Panics are not outcomes of the model. Where the code panics, the model has a
  precondition instead:
  - `Locators.Resolve` and `Locators.Auto` require `Defined` / `AutoDefined`:
    a non-empty descriptor with a one-byte first character, and a chain that
    does not run into an empty fallback;
  - the older resolver additionally requires that its unimplemented name
    lookup (`panic!`) is never reached (`Snapshot.SnapshotDefined`).
- `errors.rs` declares only five variants. `UnknownLocationName`,
  `CacheLoadError` and `CacheWriteError` are used by the locator and the cache,
  but their messages are not given in the files modelled here. The model gives
  them the texts "unknown location name", "cache load error" and "cache write
  error", with no cause.
- The miss handler of `fetch` is a closure that runs only on a miss. The model
  passes in the result the handler would give, and `Fetch` counts in a ghost
  out-parameter how often it uses that result.
- `LocationCache::filename` is the constant field `filename`.
- `From<(f64, f64)> for Location` is the datatype constructor `Location`.
