/** The location-descriptor resolver.  A descriptor's first character selects
    a strategy: `@` explicit coordinates, `#` a place name (cache, then
    geocoding), `!` the automatic chain native -> network -> embedded fallback
    descriptor, `.` IP-based network lookup.  The side-effecting collaborators
    are inputs (`Env`): what the native service, the IP lookup and the
    geocoder answer, the platform cache directory and how a save goes.  The
    persistent state is the file system's map of files. */
module Locators {
  import opened Errors
  import opened Geo
  import opened NameCache

  /** The body of the IP geolocation reply (`FreeGeoApiLocation`). */
  datatype FreeGeoApiLocation = FreeGeoApiLocation(latitude: real, longitude: real)

  /** One candidate of the geocoder's reply; coordinates come as text. */
  datatype NominatimLocation = NominatimLocation(lat: string, lon: string)

  /** An HTTP exchange whose JSON body is decoded into a `T`: a transport
      failure anywhere in building, sending or reading, a body of the wrong
      shape, or the decoded body. */
  datatype ApiReply<T> = ConnectionFailed(http: HttpFault) | Undecodable(json: JsonFault) | Decoded(body: T)

  /** The native location capability: the stub compiled on every platform but
      macOS, or CoreLocation on macOS together with what it answers. */
  datatype NativeLocator = NotMacOS | MacOS(reply: NativeReply)

  /** Everything a resolution consults besides the file system. */
  datatype Env = Env(
    parse: NumParser,
    native: NativeLocator,
    network: ApiReply<FreeGeoApiLocation>,
    geocoder: string -> ApiReply<seq<NominatimLocation>>,
    dirs: ProjectDirs,
    write: WriteOutcome)

  /** The outcome of a resolution and the files afterwards. */
  datatype Resolution = Resolution(result: Result<Location>, files: map<string, FileContent>)

  // ---------------------------------------------------------------------
  // Coordinates

  /** `location_from_coords`: split at single spaces and parse the first two
      pieces as latitude and longitude; anything else is malformed. */
  function FromCoords(parse: NumParser, coords: string): (r: Result<Location>)
    ensures r.Err? ==> r.error == MalformedLocationString
  {
    var pieces := Split(coords);
    var lat: Option<Option<real>> := if 0 < |pieces| then Some(parse(pieces[0])) else None;
    var long: Option<Option<real>> := if 1 < |pieces| then Some(parse(pieces[1])) else None;
    match (lat, long)
    case (Some(Some(a)), Some(Some(b))) => Ok(Location(a, b))
    case _ => Err(MalformedLocationString)
  }

  /** The result of parsing a latitude token and a longitude token. */
  function ParsedPair(lat: Option<real>, long: Option<real>): Result<Location>
  {
    if lat.Some? && long.Some? then Ok(Location(lat.value, long.value)) else Err(MalformedLocationString)
  }

  /** Two space-free tokens separated by one space are parsed as latitude and
      longitude; whatever follows a further space is ignored. */
  lemma CoordsFromFirstTwoTokens(parse: NumParser, a: string, b: string, rest: string)
    requires SPACE !in a && SPACE !in b
    ensures FromCoords(parse, a + [SPACE] + b) == ParsedPair(parse(a), parse(b))
    ensures FromCoords(parse, a + [SPACE] + b + [SPACE] + rest) == ParsedPair(parse(a), parse(b))
  {
    SplitAtFirstSpace(a, b);
    SplitWithoutSpace(b);
    assert Split(a + [SPACE] + b) == [a, b];
    SplitAtFirstSpace(b, rest);
    SplitAtFirstSpace(a, b + [SPACE] + rest);
    assert a + [SPACE] + b + [SPACE] + rest == a + [SPACE] + (b + [SPACE] + rest);
    assert Split(a + [SPACE] + b + [SPACE] + rest)[..2] == [a, b];
  }

  /** A payload without a space is a single token, so it is malformed
      whatever the number parser says. */
  lemma CoordsNeedTwoTokens(parse: NumParser, s: string)
    requires SPACE !in s
    ensures FromCoords(parse, s) == Err(MalformedLocationString)
  {
    SplitWithoutSpace(s);
  }

  /** The coordinate parser succeeds exactly when the first two tokens parse. */
  lemma CoordsSucceedExactlyWhenTokensParse(parse: NumParser, s: string)
    ensures FromCoords(parse, s).Ok? <==>
      |Split(s)| >= 2 && parse(Split(s)[0]).Some? && parse(Split(s)[1]).Some?
    ensures FromCoords(parse, s).Ok? ==>
      FromCoords(parse, s).value == Location(parse(Split(s)[0]).value, parse(Split(s)[1]).value)
  {
  }

  lemma CoordsExample(parse: NumParser)
    requires parse("49.9") == Some(49.9) && parse("11.5") == Some(11.5)
    ensures FromCoords(parse, "49.9 11.5") == Ok(Location(49.9, 11.5))
  {
    CoordsFromFirstTwoTokens(parse, "49.9", "11.5", "");
    assert "49.9" + [SPACE] + "11.5" == "49.9 11.5";
  }

  lemma CoordsMalformedExample(parse: NumParser)
    ensures FromCoords(parse, "foobar") == Err(MalformedLocationString)
  {
    CoordsNeedTwoTokens(parse, "foobar");
  }

  // ---------------------------------------------------------------------
  // Network strategies

  /** `From<FreeGeoApiLocation>`. */
  function FromFreeGeo(g: FreeGeoApiLocation): (l: Location)
    ensures l.lat == g.latitude && l.long == g.longitude
  {
    Location(g.latitude, g.longitude)
  }

  /** `location_from_network`: a transport failure becomes ApiError, a body of
      the wrong shape JsonError, and a decoded body its coordinates. */
  function FromNetwork(reply: ApiReply<FreeGeoApiLocation>): (r: Result<Location>)
    ensures r.Err? ==> r.error.ApiError? || r.error.JsonError?
    ensures reply.Decoded? ==> r == Ok(Location(reply.body.latitude, reply.body.longitude))
  {
    match reply
    case ConnectionFailed(h) => Err(FromHttp(h))
    case Undecodable(j) => Err(FromJson(j))
    case Decoded(g) => Ok(FromFreeGeo(g))
  }

  /** The IP lookup fails exactly when the exchange fails, and then with the
      error that wraps the failure; a decoded body gives its own coordinates. */
  lemma NetworkErrors(reply: ApiReply<FreeGeoApiLocation>)
    ensures FromNetwork(reply).Ok? <==> reply.Decoded?
    ensures reply.Decoded? ==> FromNetwork(reply) == Ok(Location(reply.body.latitude, reply.body.longitude))
    ensures reply.ConnectionFailed? ==> CauseOf(FromNetwork(reply).error) == Some(Http(reply.http))
    ensures reply.Undecodable? ==> CauseOf(FromNetwork(reply).error) == Some(Json(reply.json))
  {
  }

  lemma NetworkExample()
    ensures FromNetwork(Decoded(FreeGeoApiLocation(45.8293, 15.9793))) == Ok(Location(45.8293, 15.9793))
  {
  }

  /** `TryFrom<NominatimLocation>`: the two text fields joined by a space and
      handed to the coordinate parser. */
  function FromNominatim(parse: NumParser, n: NominatimLocation): (r: Result<Location>)
    ensures r.Err? ==> r.error == MalformedLocationString
  {
    FromCoords(parse, n.lat + " " + n.lon)
  }

  /** With space-free fields the candidate yields exactly its two parsed
      numbers. */
  lemma NominatimFields(parse: NumParser, n: NominatimLocation)
    requires SPACE !in n.lat && SPACE !in n.lon
    ensures FromNominatim(parse, n) == ParsedPair(parse(n.lat), parse(n.lon))
  {
    CoordsFromFirstTwoTokens(parse, n.lat, n.lon, "");
  }

  /** The candidate selection of `location_from_name`: the first candidate
      only, and an empty list is UnknownLocationName. */
  function FirstCandidate(parse: NumParser, candidates: seq<NominatimLocation>): Result<Location>
  {
    if |candidates| == 0 then Err(UnknownLocationName) else FromNominatim(parse, candidates[0])
  }

  /** No candidate is UnknownLocationName; otherwise the first candidate
      decides and those after it play no part. */
  lemma CandidateSelection(parse: NumParser, c: NominatimLocation, rest: seq<NominatimLocation>)
    ensures FirstCandidate(parse, []) == Err(UnknownLocationName)
    ensures FirstCandidate(parse, [c] + rest) == FromNominatim(parse, c)
  {
  }

  /** The miss handler of `location_from_name`: the geocoder exchange, with
      the same error conversions as the IP lookup, then candidate selection. */
  function GeocodeOnMiss(parse: NumParser, reply: ApiReply<seq<NominatimLocation>>): (r: Result<Location>)
    ensures r.Err? ==> r.error.ApiError? || r.error.JsonError? || r.error == UnknownLocationName || r.error == MalformedLocationString
    ensures r.Ok? ==> reply.Decoded? && |reply.body| > 0 && r == FromNominatim(parse, reply.body[0])
    ensures reply.ConnectionFailed? ==> r == Err(ApiError(reply.http))
    ensures reply.Undecodable? ==> r == Err(JsonError(reply.json))
    ensures reply.Decoded? && |reply.body| == 0 ==> r == Err(UnknownLocationName)
    ensures reply.Decoded? && |reply.body| > 0 ==> r == FromNominatim(parse, reply.body[0])
  {
    match reply
    case ConnectionFailed(h) => Err(FromHttp(h))
    case Undecodable(j) => Err(FromJson(j))
    case Decoded(candidates) => FirstCandidate(parse, candidates)
  }

  lemma GeocodeExample(parse: NumParser, second: NominatimLocation)
    requires parse("52.37454030000001") == Some(52.37454030000001)
    requires parse("4.897975505617977") == Some(4.897975505617977)
    ensures GeocodeOnMiss(parse, Decoded([NominatimLocation("52.37454030000001", "4.897975505617977"), second]))
      == Ok(Location(52.37454030000001, 4.897975505617977))
    ensures GeocodeOnMiss(parse, Decoded([])) == Err(UnknownLocationName)
  {
    CoordsFromFirstTwoTokens(parse, "52.37454030000001", "4.897975505617977", "");
  }

  // ---------------------------------------------------------------------
  // Native strategy

  /** `location_from_corelocation`: off macOS always CoreLocationUnavailable,
      without consulting anything; on macOS the service's fix, or its failure
      wrapped in CoreLocationError. */
  function FromCoreLocation(native: NativeLocator): (r: Result<Location>)
    ensures native == NotMacOS ==> r == Err(CoreLocationUnavailable)
    ensures r.Ok? <==> native.MacOS? && native.reply.Fix?
    ensures r.Ok? ==> r.value == Location(native.reply.latitude, native.reply.longitude)
    ensures native.MacOS? && native.reply.Failure? ==> CauseOf(r.error) == Some(Native(native.reply.fault))
  {
    match native
    case NotMacOS => Err(CoreLocationUnavailable)
    case MacOS(Fix(lat, long)) => Ok(Location(lat, long))
    case MacOS(Failure(cause)) => Err(CoreLocationError(cause))
  }

  // ---------------------------------------------------------------------
  // Name lookup

  /** `location_from_name`: load the cache, or start an empty one if loading
      fails (CacheLoadError if even that fails), then `fetch` with the
      geocoder as the miss handler. */
  function NameLookup(env: Env, files: map<string, FileContent>, name: string): Resolution
  {
    var path := CacheFilePath(env.dirs);
    if path.Err? then Resolution(Err(CacheLoadError), files)
    else
      var loaded := DeserializeJson(files, path.value);
      var data := if loaded.Ok? then loaded.value else map[];
      var st := FetchSpec(data, files, path.value, name, GeocodeOnMiss(env.parse, env.geocoder(name)), env.write);
      Resolution(st.result, st.files)
  }

  /** `location_from_name`, driving the cache object. */
  method LocationFromName(env: Env, fs: FileSystem, name: string) returns (r: Result<Location>)
    modifies fs
    ensures Resolution(r, fs.files) == NameLookup(env, old(fs.files), name)
  {
    var loaded := LocationCache.Load(env.dirs, fs);
    var cache: LocationCache;
    if loaded.Ok? {
      cache := loaded.value;
    } else {
      var created := LocationCache.New(env.dirs);
      if created.Err? {
        return Err(created.error);
      }
      cache := created.value;
    }
    ghost var calls;
    r, calls := cache.Fetch(name, GeocodeOnMiss(env.parse, env.geocoder(name)), fs, env.write);
  }

  /** A name already in the cache file is answered from it: the geocoder is
      not asked and no file changes. */
  lemma NameLookupHit(env: Env, files: map<string, FileContent>, name: string,
                      geocoder': string -> ApiReply<seq<NominatimLocation>>, write': WriteOutcome)
    requires CacheFilePath(env.dirs).Ok?
    requires DeserializeJson(files, CacheFilePath(env.dirs).value).Ok?
    requires name in DeserializeJson(files, CacheFilePath(env.dirs).value).value
    ensures NameLookup(env, files, name)
      == Resolution(Ok(DeserializeJson(files, CacheFilePath(env.dirs).value).value[name]), files)
    ensures NameLookup(env.(geocoder := geocoder', write := write'), files, name) == NameLookup(env, files, name)
  {
  }

  /** With no usable cache file the lookup starts from an empty cache, asks
      the geocoder, and a successful save leaves a file holding that one
      entry. */
  lemma NameLookupWithoutCacheFile(env: Env, files: map<string, FileContent>, name: string, l: Location)
    requires CacheFilePath(env.dirs).Ok?
    requires DeserializeJson(files, CacheFilePath(env.dirs).value).Err?
    requires GeocodeOnMiss(env.parse, env.geocoder(name)) == Ok(l) && env.write == Written
    ensures NameLookup(env, files, name)
      == Resolution(Ok(l), files[CacheFilePath(env.dirs).value := CacheJson(map[name := l])])
  {
  }

  /** Without a cache directory the lookup fails with CacheLoadError before
      anything else happens. */
  lemma NameLookupWithoutCacheDir(env: Env, files: map<string, FileContent>, name: string)
    requires CacheFilePath(env.dirs).Err?
    ensures NameLookup(env, files, name) == Resolution(Err(CacheLoadError), files)
  {
  }

  /** Once a lookup has produced a location, looking the same name up again
      gives the same location and changes nothing, whatever the geocoder and
      the file system would now do: repeated lookups are free. */
  lemma NameLookupRepeats(env: Env, files: map<string, FileContent>, name: string,
                          geocoder': string -> ApiReply<seq<NominatimLocation>>, write': WriteOutcome)
    requires NameLookup(env, files, name).result.Ok?
    ensures var first := NameLookup(env, files, name);
      NameLookup(env.(geocoder := geocoder', write := write'), first.files, name) == first
  {
    var path := CacheFilePath(env.dirs).value;
    var loaded := DeserializeJson(files, path);
    var data := if loaded.Ok? then loaded.value else map[];
    if name !in data {
      assert env.write == Written;
    }
  }

  /** A name lookup changes no file but the cache file. */
  lemma NameLookupTouchesOnlyCacheFile(env: Env, files: map<string, FileContent>, name: string, p: string)
    requires CacheFilePath(env.dirs).Ok? ==> p != CacheFilePath(env.dirs).value
    ensures var after := NameLookup(env, files, name).files;
      (p in after <==> p in files) && (p in files ==> after[p] == files[p])
  {
  }

  // ---------------------------------------------------------------------
  // Dispatch and the automatic chain

  /** The descriptors the resolver handles without panicking: slicing off the
      first byte needs a non-empty descriptor whose first character is one
      byte long, and an automatic chain whose native and network steps both
      fail goes on to resolve its payload. */
  predicate Defined(env: Env, s: string)
    decreases |s|, 1
  {
    |s| >= 1 && s[0] as int < 0x80 && (s[0] == '!' ==> AutoDefined(env, s[1..]))
  }

  predicate AutoDefined(env: Env, fallback: string)
    decreases |fallback|, 2
  {
    FromCoreLocation(env.native).Ok? || FromNetwork(env.network).Ok? || Defined(env, fallback)
  }

  /** `location_from_string`. */
  function Resolve(env: Env, files: map<string, FileContent>, s: string): Resolution
    requires Defined(env, s)
    decreases |s|, 1
  {
    if s[0] == '@' then Resolution(FromCoords(env.parse, s[1..]), files)
    else if s[0] == '#' then NameLookup(env, files, s[1..])
    else if s[0] == '!' then Auto(env, files, s[1..])
    else if s[0] == '.' then Resolution(FromNetwork(env.network), files)
    else Resolution(Err(MalformedLocationString), files)
  }

  /** `location_from_auto`: native, else network, else the fallback
      descriptor; the recursion is on a strictly shorter descriptor. */
  function Auto(env: Env, files: map<string, FileContent>, fallback: string): Resolution
    requires AutoDefined(env, fallback)
    decreases |fallback|, 2
  {
    var native := FromCoreLocation(env.native);
    if native.Ok? then Resolution(native, files)
    else
      var network := FromNetwork(env.network);
      if network.Ok? then Resolution(network, files)
      else Resolve(env, files, fallback)
  }

  /** `@` yields the coordinate parser's verdict on the rest, and no other
      strategy, the geocoder or the file system plays any part. */
  lemma ResolveCoords(env: Env, files: map<string, FileContent>, s: string, other: Env)
    requires |s| >= 1 && s[0] == '@'
    ensures Resolve(env, files, s) == Resolution(FromCoords(env.parse, s[1..]), files)
    ensures Resolve(other.(parse := env.parse), files, s) == Resolve(env, files, s)
  {
  }

  /** A one-byte first character other than the four sigils is malformed. */
  lemma ResolveUnknownSigil(env: Env, files: map<string, FileContent>, s: string)
    requires |s| >= 1 && s[0] as int < 0x80 && s[0] !in "@#!."
    ensures Resolve(env, files, s) == Resolution(Err(MalformedLocationString), files)
  {
  }

  /** `.` yields the IP lookup's result whatever follows it. */
  lemma ResolveNetwork(env: Env, files: map<string, FileContent>, t: string)
    ensures Resolve(env, files, ['.'] + t) == Resolution(FromNetwork(env.network), files)
  {
  }

  /** `#` is a name lookup of the rest. */
  lemma ResolveName(env: Env, files: map<string, FileContent>, name: string)
    ensures Resolve(env, files, ['#'] + name) == NameLookup(env, files, name)
  {
    assert (['#'] + name)[1..] == name;
  }

  /** A native fix wins: neither the network nor the fallback is consulted. */
  lemma AutoNativeFirst(env: Env, files: map<string, FileContent>, fallback: string, other: Env, fallback': string)
    requires FromCoreLocation(env.native).Ok?
    ensures Auto(env, files, fallback) == Resolution(FromCoreLocation(env.native), files)
    ensures Auto(other.(native := env.native), files, fallback') == Auto(env, files, fallback)
  {
  }

  /** With the native step failing, a network fix wins and the fallback is
      not consulted. */
  lemma AutoNetworkSecond(env: Env, files: map<string, FileContent>, fallback: string, other: Env, fallback': string)
    requires FromCoreLocation(env.native).Err? && FromNetwork(env.network).Ok?
    ensures Auto(env, files, fallback) == Resolution(FromNetwork(env.network), files)
    ensures Auto(other.(native := env.native, network := env.network), files, fallback') == Auto(env, files, fallback)
  {
  }

  /** With both failing, the chain is exactly the resolution of the fallback. */
  lemma AutoFallbackLast(env: Env, files: map<string, FileContent>, fallback: string)
    requires FromCoreLocation(env.native).Err? && FromNetwork(env.network).Err?
    requires Defined(env, fallback)
    ensures Auto(env, files, fallback) == Resolve(env, files, fallback)
  {
  }

  /** Whether a descriptor is handled depends only on the native and network
      replies. */
  lemma {:induction false} DefinedOnlyOnStrategies(env: Env, s: string, other: Env)
    requires Defined(env, s)
    ensures Defined(other.(native := env.native, network := env.network), s)
    decreases |s|
  {
    if s[0] == '!' && FromCoreLocation(env.native).Err? && FromNetwork(env.network).Err? {
      DefinedOnlyOnStrategies(env, s[1..], other);
    }
  }

  /** A descriptor that names no place is resolved without the geocoder, the
      cache directory or the file system: it changes no file, and its result
      does not depend on them. */
  lemma {:induction false} NoNameNoCache(env: Env, files: map<string, FileContent>, s: string, other: Env, files': map<string, FileContent>)
    requires Defined(env, s) && '#' !in s
    ensures Resolve(env, files, s).files == files
    ensures var env' := other.(parse := env.parse, native := env.native, network := env.network);
      Defined(env', s) && Resolve(env', files', s).result == Resolve(env, files, s).result
    decreases |s|
  {
    DefinedOnlyOnStrategies(env, s, other.(parse := env.parse));
    if s[0] == '!' && FromCoreLocation(env.native).Err? && FromNetwork(env.network).Err? {
      assert '#' !in s[1..] by {
        forall i | 0 <= i < |s[1..]| ensures s[1..][i] != '#' { assert s[1..][i] == s[i + 1]; }
      }
      NoNameNoCache(env, files, s[1..], other, files');
    }
  }

  /** Every resolution changes no file but the cache file. */
  lemma {:induction false} ResolveTouchesOnlyCacheFile(env: Env, files: map<string, FileContent>, s: string, p: string)
    requires Defined(env, s)
    requires CacheFilePath(env.dirs).Ok? ==> p != CacheFilePath(env.dirs).value
    ensures var after := Resolve(env, files, s).files;
      (p in after <==> p in files) && (p in files ==> after[p] == files[p])
    decreases |s|
  {
    if s[0] == '#' {
      NameLookupTouchesOnlyCacheFile(env, files, s[1..], p);
    } else if s[0] == '!' && FromCoreLocation(env.native).Err? && FromNetwork(env.network).Err? {
      ResolveTouchesOnlyCacheFile(env, files, s[1..], p);
    }
  }

  /** `!#Amsterdam` with native and network failing is a name lookup of
      Amsterdam, through the cache. */
  lemma AutoThenName(env: Env, files: map<string, FileContent>)
    requires FromCoreLocation(env.native).Err? && FromNetwork(env.network).Err?
    ensures Resolve(env, files, "!#Amsterdam") == NameLookup(env, files, "Amsterdam")
  {
    assert "!#Amsterdam"[1..] == "#Amsterdam";
    assert "#Amsterdam"[1..] == "Amsterdam";
  }

  /** Nested fallbacks: `!!@0 0` with native and network failing resolves the
      innermost coordinates. */
  lemma NestedFallback(env: Env, files: map<string, FileContent>)
    requires FromCoreLocation(env.native).Err? && FromNetwork(env.network).Err?
    requires env.parse("0") == Some(0.0)
    ensures Resolve(env, files, "!!@0 0") == Resolution(Ok(Location(0.0, 0.0)), files)
  {
    assert "!!@0 0"[1..] == "!@0 0";
    assert "!@0 0"[1..] == "@0 0";
    assert "@0 0"[1..] == "0 0";
    CoordsFromFirstTwoTokens(env.parse, "0", "0", "");
    assert "0" + [SPACE] + "0" == "0 0";
  }

  /** `@` with nothing after it has a single empty token and is malformed. */
  lemma EmptyCoordinates(env: Env, files: map<string, FileContent>)
    ensures Resolve(env, files, "@") == Resolution(Err(MalformedLocationString), files)
  {
    CoordsNeedTwoTokens(env.parse, "");
  }
}
