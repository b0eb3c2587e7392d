/** The kit's error codes and their conversion to a Foundation error. */
module Errors {
  import opened Wrappers

  const ErrorDomain: string := "LIFXHTTPKitErrorDomain"

  datatype ErrorCode =
    | JSONInvalid
    | UnacceptableSelector
    | UnexpectedHTTPStatusCode
    | Unauthorized
    | Forbidden
    | TooManyRequests
    | ServerError

  /** The enum's implicit raw values: ordinals in declaration order. */
  function RawValue(c: ErrorCode): (n: int)
    ensures 0 <= n <= 6
  {
    match c
    case JSONInvalid => 0
    case UnacceptableSelector => 1
    case UnexpectedHTTPStatusCode => 2
    case Unauthorized => 3
    case Forbidden => 4
    case TooManyRequests => 5
    case ServerError => 6
  }

  /** `ErrorCode(rawValue:)`. */
  function CodeFromRawValue(n: int): (r: Option<ErrorCode>)
    ensures r.Some? <==> 0 <= n <= 6
  {
    if n == 0 then Some(JSONInvalid)
    else if n == 1 then Some(UnacceptableSelector)
    else if n == 2 then Some(UnexpectedHTTPStatusCode)
    else if n == 3 then Some(Unauthorized)
    else if n == 4 then Some(Forbidden)
    else if n == 5 then Some(TooManyRequests)
    else if n == 6 then Some(ServerError)
    else None
  }

  /** Raw values and codes determine each other. */
  lemma RawValueRoundTrip(c: ErrorCode, n: int)
    ensures CodeFromRawValue(RawValue(c)) == Some(c)
    ensures CodeFromRawValue(n) == Some(c) ==> RawValue(c) == n
  {
  }

  datatype Error = Error(code: ErrorCode, message: string)

  /** An NSError reduced to what the kit sets: domain, code and localized description. */
  datatype NSError = NSError(domain: string, code: int, localizedDescription: string)

  /** `toNSError()`. */
  function ToNSError(e: Error): (r: NSError)
    ensures r.domain == ErrorDomain
    ensures r.code == RawValue(e.code)
    ensures r.localizedDescription == e.message
  {
    NSError(ErrorDomain, RawValue(e.code), e.message)
  }

  /** The kit's error code carried by an NSError of the kit's domain. */
  function KitErrorCode(r: NSError): Option<ErrorCode>
  {
    if r.domain == ErrorDomain then CodeFromRawValue(r.code) else None
  }

  /** Converting loses nothing: the code and message are recovered from the NSError. */
  lemma ToNSErrorRecoversError(e: Error)
    ensures KitErrorCode(ToNSError(e)) == Some(e.code)
    ensures Error(KitErrorCode(ToNSError(e)).value, ToNSError(e).localizedDescription) == e
  {
    RawValueRoundTrip(e.code, 0);
  }

  /** What the session's decoders report for a missing body. */
  const NoDataError: NSError := ToNSError(Error(JSONInvalid, "No data"))

  /** What the all-or-nothing decoders report when an element lacks a required field. */
  const MissingPropertiesError: NSError :=
    ToNSError(Error(JSONInvalid, "JSON object is missing required properties"))
}
