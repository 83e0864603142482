/** The closed error type of the location resolver and the `Result` alias every
    fallible operation returns.  The payloads of the three foreign errors
    (transport, JSON, native service) are opaque: all the program ever observes
    of them is their debug rendering, which is what `Display` prints. */
module Errors {

  datatype Option<T> = None | Some(value: T)

  /** A transport-level failure of the HTTP client. */
  datatype HttpFault = HttpFault(debug: string)
  /** A response body that does not have the expected JSON shape. */
  datatype JsonFault = JsonFault(debug: string)
  /** A failure reported by the platform's native location service. */
  datatype NativeFault = NativeFault(debug: string)

  /** The union of the variants declared in errors.rs and the three that the
      locator and the name cache add (UnknownLocationName, CacheLoadError,
      CacheWriteError). */
  datatype SunshineError =
    | MalformedLocationString
    | CoreLocationUnavailable
    | CoreLocationError(native: NativeFault)
    | ApiError(http: HttpFault)
    | JsonError(json: JsonFault)
    | UnknownLocationName
    | CacheLoadError
    | CacheWriteError

  datatype Result<T> = Ok(value: T) | Err(error: SunshineError)

  /** The wrapped lower-level error that `cause` hands out. */
  datatype Cause = Http(http: HttpFault) | Json(json: JsonFault) | Native(native: NativeFault)

  /** True of the variants that carry no wrapped error. */
  predicate PayloadFree(e: SunshineError)
  {
    !(e.CoreLocationError? || e.ApiError? || e.JsonError?)
  }

  /** The `Display` text of an error. */
  function Display(e: SunshineError): string
  {
    match e
    case MalformedLocationString => "malformed location string"
    case CoreLocationError(_) => "corelocation failure"
    case CoreLocationUnavailable => "corelocation unavailable"
    case ApiError(err) => "api connection error: " + err.debug
    case JsonError(err) => "api deserialization error: " + err.debug
    case UnknownLocationName => "unknown location name"
    case CacheLoadError => "cache load error"
    case CacheWriteError => "cache write error"
  }

  /** The short, payload-free description of an error. */
  function Description(e: SunshineError): string
  {
    match e
    case MalformedLocationString => "malformed location string"
    case CoreLocationError(_) => "corelocation failure"
    case CoreLocationUnavailable => "corelocation unavailable"
    case ApiError(_) => "api connection error"
    case JsonError(_) => "api deserialization error"
    case UnknownLocationName => "unknown location name"
    case CacheLoadError => "cache load error"
    case CacheWriteError => "cache write error"
  }

  /** The wrapped error, if the variant wraps one. */
  function CauseOf(e: SunshineError): Option<Cause>
  {
    match e
    case ApiError(err) => Some(Http(err))
    case CoreLocationError(err) => Some(Native(err))
    case JsonError(err) => Some(Json(err))
    case MalformedLocationString => None
    case CoreLocationUnavailable => None
    case UnknownLocationName => None
    case CacheLoadError => None
    case CacheWriteError => None
  }

  /** `From<reqwest::Error>`: the conversion `?` applies to a transport error. */
  function FromHttp(err: HttpFault): (e: SunshineError)
    ensures CauseOf(e) == Some(Http(err))
    ensures Description(e) == "api connection error"
  {
    ApiError(err)
  }

  /** `From<serde_json::Error>`: the conversion `?` applies to a JSON error. */
  function FromJson(err: JsonFault): (e: SunshineError)
    ensures CauseOf(e) == Some(Json(err))
    ensures Description(e) == "api deserialization error"
  {
    JsonError(err)
  }

  /** The variant of an error, as a number (helper for stating distinctness). */
  function Kind(e: SunshineError): nat
  {
    match e
    case MalformedLocationString => 0
    case CoreLocationUnavailable => 1
    case CoreLocationError(_) => 2
    case ApiError(_) => 3
    case JsonError(_) => 4
    case UnknownLocationName => 5
    case CacheLoadError => 6
    case CacheWriteError => 7
  }

  /** `cause` is absent exactly for the payload-free variants, and otherwise
      it is the very error the variant wraps. */
  lemma CauseIsWrappedError(e: SunshineError)
    ensures CauseOf(e).None? <==> PayloadFree(e)
    ensures e.ApiError? ==> CauseOf(e) == Some(Http(e.http))
    ensures e.JsonError? ==> CauseOf(e) == Some(Json(e.json))
    ensures e.CoreLocationError? ==> CauseOf(e) == Some(Native(e.native))
  {
  }

  /** The conversions are inverted by `cause`: converting a foreign error and
      asking for the cause gives the foreign error back. */
  lemma ConversionsRoundTrip(h: HttpFault, j: JsonFault)
    ensures CauseOf(FromHttp(h)).value.http == h
    ensures CauseOf(FromJson(j)).value.json == j
    ensures FromHttp(h) != FromJson(j)
  {
  }

  /** `description` is a prefix of the `Display` text, and the two coincide
      for every variant whose message does not print its payload. */
  lemma DescriptionPrefixesDisplay(e: SunshineError)
    ensures Description(e) <= Display(e)
    ensures !(e.ApiError? || e.JsonError?) ==> Description(e) == Display(e)
  {
  }

  /** The first fourteen characters of every message tell the variants apart. */
  function Signature(k: nat): string
  {
    match k
    case 0 => "malformed loca"
    case 1 => "corelocation u"
    case 2 => "corelocation f"
    case 3 => "api connection"
    case 4 => "api deserializ"
    case 5 => "unknown locati"
    case 6 => "cache load err"
    case _ => "cache write er"
  }

  lemma DisplayStartsWithSignature(e: SunshineError)
    ensures |Display(e)| >= 14 && Display(e)[..14] == Signature(Kind(e))
  {
  }

  /** Two errors with the same `Display` text are of the same variant: the
      messages are pairwise distinct. */
  lemma DisplayDistinguishesVariants(a: SunshineError, b: SunshineError)
    ensures Display(a) == Display(b) ==> Kind(a) == Kind(b)
  {
    DisplayStartsWithSignature(a);
    DisplayStartsWithSignature(b);
    if Kind(a) != Kind(b) {
      SignaturesDistinct(Kind(a), Kind(b));
    }
  }

  lemma SignaturesDistinct(k: nat, l: nat)
    requires k <= 7 && l <= 7 && k != l
    ensures Signature(k) != Signature(l)
  {
  }
}
