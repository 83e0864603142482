/** The older generation of the resolver, kept in the `sunshine` module
    (`src/sunshine/mod.rs`), and the day/night rule of `calculate`.  This resolver knows `@`, `#` and `!`; its
    automatic chain asks CoreLocation and then resolves the fallback, with no
    network step; its name lookup is not implemented (it panics). */
module Snapshot {
  import opened Errors
  import opened Geo
  import Locators
  import NameCache

  // ---------------------------------------------------------------------
  // Day or night

  datatype TimeOfDay = Day | Night

  /** The classification in `calculate`: day strictly between sunrise and
      sunset, night otherwise. */
  function TimeOfDayAt(now: int, sunriseTs: int, sunsetTs: int): TimeOfDay
  {
    if now > sunriseTs && now < sunsetTs then Day else Night
  }

  /** Day exactly strictly inside the window; both boundaries are night. */
  lemma DayExactlyInsideWindow(now: int, sunriseTs: int, sunsetTs: int)
    ensures TimeOfDayAt(now, sunriseTs, sunsetTs) == Day <==> sunriseTs < now < sunsetTs
    ensures TimeOfDayAt(sunriseTs, sunriseTs, sunsetTs) == Night
    ensures TimeOfDayAt(sunsetTs, sunriseTs, sunsetTs) == Night
  {
  }

  /** With sunrise at or after sunset it is night at every moment. */
  lemma EmptyWindowAlwaysNight(now: int, sunriseTs: int, sunsetTs: int)
    requires sunriseTs >= sunsetTs
    ensures TimeOfDayAt(now, sunriseTs, sunsetTs) == Night
  {
  }

  /** The day is one unbroken stretch: between two moments of day every
      moment is day. */
  lemma DayIsContiguous(t1: int, t2: int, t3: int, sunriseTs: int, sunsetTs: int)
    requires t1 <= t2 <= t3
    requires TimeOfDayAt(t1, sunriseTs, sunsetTs) == Day && TimeOfDayAt(t3, sunriseTs, sunsetTs) == Day
    ensures TimeOfDayAt(t2, sunriseTs, sunsetTs) == Day
  {
  }

  // ---------------------------------------------------------------------
  // Resolver

  /** This generation's `location_from_coords`, answering a pair. */
  function Coords(parse: NumParser, coords: string): (r: Result<(real, real)>)
    ensures r.Err? ==> r.error == MalformedLocationString
  {
    var pieces := Split(coords);
    var lat: Option<Option<real>> := if 0 < |pieces| then Some(parse(pieces[0])) else None;
    var lng: Option<Option<real>> := if 1 < |pieces| then Some(parse(pieces[1])) else None;
    match (lat, lng)
    case (Some(Some(a)), Some(Some(b))) => Ok((a, b))
    case _ => Err(MalformedLocationString)
  }

  /** Both generations' coordinate parsers accept the same payloads and
      produce the same numbers. */
  lemma CoordsAgreeWithLocators(parse: NumParser, coords: string)
    ensures Coords(parse, coords).Ok? <==> Locators.FromCoords(parse, coords).Ok?
    ensures Coords(parse, coords).Ok? ==>
      Locators.FromCoords(parse, coords).value == Location(Coords(parse, coords).value.0, Coords(parse, coords).value.1)
  {
  }

  lemma CoordsExample(parse: NumParser)
    requires parse("49.9") == Some(49.9) && parse("11.5") == Some(11.5)
    ensures Coords(parse, "49.9 11.5") == Ok((49.9, 11.5))
  {
    CoordsAgreeWithLocators(parse, "49.9 11.5");
    Locators.CoordsExample(parse);
  }

  lemma CoordsMalformedExample(parse: NumParser)
    ensures Coords(parse, "foobar").Err?
  {
    CoordsAgreeWithLocators(parse, "foobar");
    Locators.CoordsMalformedExample(parse);
  }

  /** The descriptors this resolver handles without panicking: a non-empty
      descriptor with a one-byte first character that never reaches the
      unimplemented name lookup; an automatic chain whose CoreLocation query
      fails goes on to resolve its payload. */
  predicate SnapshotDefined(native: NativeReply, s: string)
    decreases |s|
  {
    && |s| >= 1 && s[0] as int < 0x80 && s[0] != '#'
    && (s[0] == '!' && native.Failure? ==> SnapshotDefined(native, s[1..]))
  }

  /** This generation's `location_from_string`. */
  function Resolve(parse: NumParser, native: NativeReply, s: string): Result<(real, real)>
    requires SnapshotDefined(native, s)
    decreases |s|, 1
  {
    if s[0] == '@' then Coords(parse, s[1..])
    else if s[0] == '!' then Auto(parse, native, s[1..])
    else Err(MalformedLocationString)
  }

  /** This generation's `location_from_auto`: CoreLocation, else the fallback. */
  function Auto(parse: NumParser, native: NativeReply, fallback: string): Result<(real, real)>
    requires native.Failure? ==> SnapshotDefined(native, fallback)
    decreases |fallback|, 2
  {
    match native
    case Fix(lat, long) => Ok((lat, long))
    case Failure(_) => Resolve(parse, native, fallback)
  }

  /** `@` delegates to the coordinate parser on the rest. */
  lemma ResolveCoords(parse: NumParser, native: NativeReply, s: string)
    requires |s| >= 1 && s[0] == '@'
    ensures Resolve(parse, native, s) == Coords(parse, s[1..])
  {
  }

  /** `.` and every other one-byte character but `@`, `#` and `!` is
      malformed here. */
  lemma ResolveUnknownSigil(parse: NumParser, native: NativeReply, s: string)
    requires |s| >= 1 && s[0] as int < 0x80 && s[0] !in "@#!"
    ensures Resolve(parse, native, s) == Err(MalformedLocationString)
  {
  }

  /** A CoreLocation fix is returned; otherwise the result is the fallback's. */
  lemma AutoChain(parse: NumParser, native: NativeReply, fallback: string)
    requires native.Failure? ==> SnapshotDefined(native, fallback)
    ensures native.Fix? ==> Auto(parse, native, fallback) == Ok((native.latitude, native.longitude))
    ensures native.Failure? ==> Auto(parse, native, fallback) == Resolve(parse, native, fallback)
  {
  }

  /** The two generations agree on success when the IP lookup fails: the
      current resolver, with CoreLocation available and the network down,
      succeeds exactly when the older one does, with the same coordinates. */
  lemma {:induction false} AgreesWithCurrentWhenNetworkDown(env: Locators.Env, files: map<string, NameCache.FileContent>, s: string, native: NativeReply)
    requires env.native == Locators.MacOS(native) && !env.network.Decoded?
    requires SnapshotDefined(native, s) && Locators.Defined(env, s)
    ensures Locators.Resolve(env, files, s).result.Ok? <==> Resolve(env.parse, native, s).Ok?
    ensures Resolve(env.parse, native, s).Ok? ==>
      Locators.Resolve(env, files, s).result.value == Location(Resolve(env.parse, native, s).value.0, Resolve(env.parse, native, s).value.1)
    decreases |s|
  {
    if s[0] == '@' {
      CoordsAgreeWithLocators(env.parse, s[1..]);
    } else if s[0] == '!' && native.Failure? {
      AgreesWithCurrentWhenNetworkDown(env, files, s[1..], native);
    }
  }
}
