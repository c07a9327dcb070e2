/** The `HttpError` value of src/core/HttpError.js and the two-way status table
    it exposes as `HttpError.Status` (axios's `HttpStatusCode`, which maps each
    name to its code and each code back to its name). */
module HttpError {
  import opened Values

  // ----- the names of axios's `HttpStatusCode` table, grouped by class -----
  // (200 is spelt `OK` here so that it does not clash with `Result.Ok`; its
  // name is still "Ok")

  /** The names listed for the codes 100 to 103. */
  datatype InformationalStatus =
    | Continue | SwitchingProtocols | Processing | EarlyHints

  /** The names listed for the codes 200 to 226. */
  datatype SuccessfulStatus =
    | OK | Created | Accepted | NonAuthoritativeInformation | NoContent
    | ResetContent | PartialContent | MultiStatus | AlreadyReported | ImUsed

  /** The names listed for the codes 300 to 308. */
  datatype RedirectionStatus =
    | MultipleChoices | MovedPermanently | Found | SeeOther | NotModified
    | UseProxy | Unused | TemporaryRedirect | PermanentRedirect

  /** The names listed for the codes 400 to 409. */
  datatype ClientErrorLowStatus =
    | BadRequest | Unauthorized | PaymentRequired | Forbidden | NotFound
    | MethodNotAllowed | NotAcceptable | ProxyAuthenticationRequired
    | RequestTimeout | Conflict

  /** The names listed for the codes 410 to 418. */
  datatype ClientErrorMidStatus =
    | Gone | LengthRequired | PreconditionFailed | PayloadTooLarge | UriTooLong
    | UnsupportedMediaType | RangeNotSatisfiable | ExpectationFailed | ImATeapot

  /** The names listed for the codes 421 to 451. */
  datatype ClientErrorHighStatus =
    | MisdirectedRequest | UnprocessableEntity | Locked | FailedDependency
    | TooEarly | UpgradeRequired | PreconditionRequired | TooManyRequests
    | RequestHeaderFieldsTooLarge | UnavailableForLegalReasons

  /** The names listed for the codes 500 to 511. */
  datatype ServerErrorStatus =
    | InternalServerError | NotImplemented | BadGateway | ServiceUnavailable
    | GatewayTimeout | HttpVersionNotSupported | VariantAlsoNegotiates
    | InsufficientStorage | LoopDetected | NotExtended
    | NetworkAuthenticationRequired

  /** A name of the table: its class, then the name within the class. */
  datatype StatusKey =
    | Informational(informational: InformationalStatus)
    | Successful(successful: SuccessfulStatus)
    | Redirection(redirection: RedirectionStatus)
    | ClientErrorLow(clientErrorLow: ClientErrorLowStatus)
    | ClientErrorMid(clientErrorMid: ClientErrorMidStatus)
    | ClientErrorHigh(clientErrorHigh: ClientErrorHighStatus)
    | ServerError(serverError: ServerErrorStatus)

  /** `Status[name]`: the numeric code of a name. */
  function Code(k: StatusKey): (c: int)
    ensures 100 <= c < 600
  {
    match k
    case Informational(s) => InformationalCode(s)
    case Successful(s) => SuccessfulCode(s)
    case Redirection(s) => RedirectionCode(s)
    case ClientErrorLow(s) => ClientErrorLowCode(s)
    case ClientErrorMid(s) => ClientErrorMidCode(s)
    case ClientErrorHigh(s) => ClientErrorHighCode(s)
    case ServerError(s) => ServerErrorCode(s)
  }

  /** The name under which a code is listed (the property name itself). */
  function Name(k: StatusKey): (n: string)
    ensures n != ""
  {
    match k
    case Informational(s) => InformationalName(s)
    case Successful(s) => SuccessfulName(s)
    case Redirection(s) => RedirectionName(s)
    case ClientErrorLow(s) => ClientErrorLowName(s)
    case ClientErrorMid(s) => ClientErrorMidName(s)
    case ClientErrorHigh(s) => ClientErrorHighName(s)
    case ServerError(s) => ServerErrorName(s)
  }

  function InformationalCode(s: InformationalStatus): (c: int)
    ensures 100 <= c < 200
  {
    match s
    case Continue => 100
    case SwitchingProtocols => 101
    case Processing => 102
    case EarlyHints => 103
  }

  function InformationalName(s: InformationalStatus): (n: string)
    ensures n != ""
  {
    match s
    case Continue => "Continue"
    case SwitchingProtocols => "SwitchingProtocols"
    case Processing => "Processing"
    case EarlyHints => "EarlyHints"
  }

  function SuccessfulCode(s: SuccessfulStatus): (c: int)
    ensures 200 <= c < 300
  {
    match s
    case OK => 200
    case Created => 201
    case Accepted => 202
    case NonAuthoritativeInformation => 203
    case NoContent => 204
    case ResetContent => 205
    case PartialContent => 206
    case MultiStatus => 207
    case AlreadyReported => 208
    case ImUsed => 226
  }

  function SuccessfulName(s: SuccessfulStatus): (n: string)
    ensures n != ""
  {
    match s
    case OK => "Ok"
    case Created => "Created"
    case Accepted => "Accepted"
    case NonAuthoritativeInformation => "NonAuthoritativeInformation"
    case NoContent => "NoContent"
    case ResetContent => "ResetContent"
    case PartialContent => "PartialContent"
    case MultiStatus => "MultiStatus"
    case AlreadyReported => "AlreadyReported"
    case ImUsed => "ImUsed"
  }

  function RedirectionCode(s: RedirectionStatus): (c: int)
    ensures 300 <= c < 400
  {
    match s
    case MultipleChoices => 300
    case MovedPermanently => 301
    case Found => 302
    case SeeOther => 303
    case NotModified => 304
    case UseProxy => 305
    case Unused => 306
    case TemporaryRedirect => 307
    case PermanentRedirect => 308
  }

  function RedirectionName(s: RedirectionStatus): (n: string)
    ensures n != ""
  {
    match s
    case MultipleChoices => "MultipleChoices"
    case MovedPermanently => "MovedPermanently"
    case Found => "Found"
    case SeeOther => "SeeOther"
    case NotModified => "NotModified"
    case UseProxy => "UseProxy"
    case Unused => "Unused"
    case TemporaryRedirect => "TemporaryRedirect"
    case PermanentRedirect => "PermanentRedirect"
  }

  function ClientErrorLowCode(s: ClientErrorLowStatus): (c: int)
    ensures 400 <= c < 410
  {
    match s
    case BadRequest => 400
    case Unauthorized => 401
    case PaymentRequired => 402
    case Forbidden => 403
    case NotFound => 404
    case MethodNotAllowed => 405
    case NotAcceptable => 406
    case ProxyAuthenticationRequired => 407
    case RequestTimeout => 408
    case Conflict => 409
  }

  function ClientErrorLowName(s: ClientErrorLowStatus): (n: string)
    ensures n != ""
  {
    match s
    case BadRequest => "BadRequest"
    case Unauthorized => "Unauthorized"
    case PaymentRequired => "PaymentRequired"
    case Forbidden => "Forbidden"
    case NotFound => "NotFound"
    case MethodNotAllowed => "MethodNotAllowed"
    case NotAcceptable => "NotAcceptable"
    case ProxyAuthenticationRequired => "ProxyAuthenticationRequired"
    case RequestTimeout => "RequestTimeout"
    case Conflict => "Conflict"
  }

  function ClientErrorMidCode(s: ClientErrorMidStatus): (c: int)
    ensures 410 <= c < 420
  {
    match s
    case Gone => 410
    case LengthRequired => 411
    case PreconditionFailed => 412
    case PayloadTooLarge => 413
    case UriTooLong => 414
    case UnsupportedMediaType => 415
    case RangeNotSatisfiable => 416
    case ExpectationFailed => 417
    case ImATeapot => 418
  }

  function ClientErrorMidName(s: ClientErrorMidStatus): (n: string)
    ensures n != ""
  {
    match s
    case Gone => "Gone"
    case LengthRequired => "LengthRequired"
    case PreconditionFailed => "PreconditionFailed"
    case PayloadTooLarge => "PayloadTooLarge"
    case UriTooLong => "UriTooLong"
    case UnsupportedMediaType => "UnsupportedMediaType"
    case RangeNotSatisfiable => "RangeNotSatisfiable"
    case ExpectationFailed => "ExpectationFailed"
    case ImATeapot => "ImATeapot"
  }

  function ClientErrorHighCode(s: ClientErrorHighStatus): (c: int)
    ensures 420 <= c < 500
  {
    match s
    case MisdirectedRequest => 421
    case UnprocessableEntity => 422
    case Locked => 423
    case FailedDependency => 424
    case TooEarly => 425
    case UpgradeRequired => 426
    case PreconditionRequired => 428
    case TooManyRequests => 429
    case RequestHeaderFieldsTooLarge => 431
    case UnavailableForLegalReasons => 451
  }

  function ClientErrorHighName(s: ClientErrorHighStatus): (n: string)
    ensures n != ""
  {
    match s
    case MisdirectedRequest => "MisdirectedRequest"
    case UnprocessableEntity => "UnprocessableEntity"
    case Locked => "Locked"
    case FailedDependency => "FailedDependency"
    case TooEarly => "TooEarly"
    case UpgradeRequired => "UpgradeRequired"
    case PreconditionRequired => "PreconditionRequired"
    case TooManyRequests => "TooManyRequests"
    case RequestHeaderFieldsTooLarge => "RequestHeaderFieldsTooLarge"
    case UnavailableForLegalReasons => "UnavailableForLegalReasons"
  }

  function ServerErrorCode(s: ServerErrorStatus): (c: int)
    ensures 500 <= c < 600
  {
    match s
    case InternalServerError => 500
    case NotImplemented => 501
    case BadGateway => 502
    case ServiceUnavailable => 503
    case GatewayTimeout => 504
    case HttpVersionNotSupported => 505
    case VariantAlsoNegotiates => 506
    case InsufficientStorage => 507
    case LoopDetected => 508
    case NotExtended => 510
    case NetworkAuthenticationRequired => 511
  }

  function ServerErrorName(s: ServerErrorStatus): (n: string)
    ensures n != ""
  {
    match s
    case InternalServerError => "InternalServerError"
    case NotImplemented => "NotImplemented"
    case BadGateway => "BadGateway"
    case ServiceUnavailable => "ServiceUnavailable"
    case GatewayTimeout => "GatewayTimeout"
    case HttpVersionNotSupported => "HttpVersionNotSupported"
    case VariantAlsoNegotiates => "VariantAlsoNegotiates"
    case InsufficientStorage => "InsufficientStorage"
    case LoopDetected => "LoopDetected"
    case NotExtended => "NotExtended"
    case NetworkAuthenticationRequired => "NetworkAuthenticationRequired"
  }

  /** The reverse direction of the table: the name listed under a code, if any.
      Looked up by class of code, so that each part stays small. */
  function KeyOfCode(c: int): (r: Option<StatusKey>)
    ensures r.Some? ==> Code(r.value) == c
  {
    if 100 <= c < 200 then
      match InformationalKey(c) case Some(s) => Some(Informational(s)) case None => None
    else if 200 <= c < 300 then
      match SuccessfulKey(c) case Some(s) => Some(Successful(s)) case None => None
    else if 300 <= c < 400 then
      match RedirectionKey(c) case Some(s) => Some(Redirection(s)) case None => None
    else if 400 <= c < 410 then
      match ClientErrorLowKey(c) case Some(s) => Some(ClientErrorLow(s)) case None => None
    else if 410 <= c < 420 then
      match ClientErrorMidKey(c) case Some(s) => Some(ClientErrorMid(s)) case None => None
    else if 420 <= c < 500 then
      match ClientErrorHighKey(c) case Some(s) => Some(ClientErrorHigh(s)) case None => None
    else if 500 <= c < 600 then
      match ServerErrorKey(c) case Some(s) => Some(ServerError(s)) case None => None
    else None
  }

  function InformationalKey(c: int): (r: Option<InformationalStatus>)
    ensures r.Some? ==> InformationalCode(r.value) == c
  {
    if c == 100 then Some(Continue)
    else if c == 101 then Some(SwitchingProtocols)
    else if c == 102 then Some(Processing)
    else if c == 103 then Some(EarlyHints)
    else None
  }

  function SuccessfulKey(c: int): (r: Option<SuccessfulStatus>)
    ensures r.Some? ==> SuccessfulCode(r.value) == c
  {
    if c == 200 then Some(OK)
    else if c == 201 then Some(Created)
    else if c == 202 then Some(Accepted)
    else if c == 203 then Some(NonAuthoritativeInformation)
    else if c == 204 then Some(NoContent)
    else if c == 205 then Some(ResetContent)
    else if c == 206 then Some(PartialContent)
    else if c == 207 then Some(MultiStatus)
    else if c == 208 then Some(AlreadyReported)
    else if c == 226 then Some(ImUsed)
    else None
  }

  function RedirectionKey(c: int): (r: Option<RedirectionStatus>)
    ensures r.Some? ==> RedirectionCode(r.value) == c
  {
    if c == 300 then Some(MultipleChoices)
    else if c == 301 then Some(MovedPermanently)
    else if c == 302 then Some(Found)
    else if c == 303 then Some(SeeOther)
    else if c == 304 then Some(NotModified)
    else if c == 305 then Some(UseProxy)
    else if c == 306 then Some(Unused)
    else if c == 307 then Some(TemporaryRedirect)
    else if c == 308 then Some(PermanentRedirect)
    else None
  }

  function ClientErrorLowKey(c: int): (r: Option<ClientErrorLowStatus>)
    ensures r.Some? ==> ClientErrorLowCode(r.value) == c
  {
    if c == 400 then Some(BadRequest)
    else if c == 401 then Some(Unauthorized)
    else if c == 402 then Some(PaymentRequired)
    else if c == 403 then Some(Forbidden)
    else if c == 404 then Some(NotFound)
    else if c == 405 then Some(MethodNotAllowed)
    else if c == 406 then Some(NotAcceptable)
    else if c == 407 then Some(ProxyAuthenticationRequired)
    else if c == 408 then Some(RequestTimeout)
    else if c == 409 then Some(Conflict)
    else None
  }

  function ClientErrorMidKey(c: int): (r: Option<ClientErrorMidStatus>)
    ensures r.Some? ==> ClientErrorMidCode(r.value) == c
  {
    if c == 410 then Some(Gone)
    else if c == 411 then Some(LengthRequired)
    else if c == 412 then Some(PreconditionFailed)
    else if c == 413 then Some(PayloadTooLarge)
    else if c == 414 then Some(UriTooLong)
    else if c == 415 then Some(UnsupportedMediaType)
    else if c == 416 then Some(RangeNotSatisfiable)
    else if c == 417 then Some(ExpectationFailed)
    else if c == 418 then Some(ImATeapot)
    else None
  }

  function ClientErrorHighKey(c: int): (r: Option<ClientErrorHighStatus>)
    ensures r.Some? ==> ClientErrorHighCode(r.value) == c
  {
    if c == 421 then Some(MisdirectedRequest)
    else if c == 422 then Some(UnprocessableEntity)
    else if c == 423 then Some(Locked)
    else if c == 424 then Some(FailedDependency)
    else if c == 425 then Some(TooEarly)
    else if c == 426 then Some(UpgradeRequired)
    else if c == 428 then Some(PreconditionRequired)
    else if c == 429 then Some(TooManyRequests)
    else if c == 431 then Some(RequestHeaderFieldsTooLarge)
    else if c == 451 then Some(UnavailableForLegalReasons)
    else None
  }

  function ServerErrorKey(c: int): (r: Option<ServerErrorStatus>)
    ensures r.Some? ==> ServerErrorCode(r.value) == c
  {
    if c == 500 then Some(InternalServerError)
    else if c == 501 then Some(NotImplemented)
    else if c == 502 then Some(BadGateway)
    else if c == 503 then Some(ServiceUnavailable)
    else if c == 504 then Some(GatewayTimeout)
    else if c == 505 then Some(HttpVersionNotSupported)
    else if c == 506 then Some(VariantAlsoNegotiates)
    else if c == 507 then Some(InsufficientStorage)
    else if c == 508 then Some(LoopDetected)
    else if c == 510 then Some(NotExtended)
    else if c == 511 then Some(NetworkAuthenticationRequired)
    else None
  }

  /** Every name of the table is found again from its code: with the ensures
      of `KeyOfCode`, the two directions of the table are inverse. */
  lemma KeyOfCodeComplete(k: StatusKey)
    ensures KeyOfCode(Code(k)) == Some(k)
  {
    match k
    case Informational(s) => InformationalKeyComplete(s);
    case Successful(s) => SuccessfulKeyComplete(s);
    case Redirection(s) => RedirectionKeyComplete(s);
    case ClientErrorLow(s) => ClientErrorLowKeyComplete(s);
    case ClientErrorMid(s) => ClientErrorMidKeyComplete(s);
    case ClientErrorHigh(s) => ClientErrorHighKeyComplete(s);
    case ServerError(s) => ServerErrorKeyComplete(s);
  }

  lemma InformationalKeyComplete(s: InformationalStatus)
    ensures InformationalKey(InformationalCode(s)) == Some(s)
  {
  }

  lemma SuccessfulKeyComplete(s: SuccessfulStatus)
    ensures SuccessfulKey(SuccessfulCode(s)) == Some(s)
  {
  }

  lemma RedirectionKeyComplete(s: RedirectionStatus)
    ensures RedirectionKey(RedirectionCode(s)) == Some(s)
  {
  }

  lemma ClientErrorLowKeyComplete(s: ClientErrorLowStatus)
    ensures ClientErrorLowKey(ClientErrorLowCode(s)) == Some(s)
  {
  }

  lemma ClientErrorMidKeyComplete(s: ClientErrorMidStatus)
    ensures ClientErrorMidKey(ClientErrorMidCode(s)) == Some(s)
  {
  }

  lemma ClientErrorHighKeyComplete(s: ClientErrorHighStatus)
    ensures ClientErrorHighKey(ClientErrorHighCode(s)) == Some(s)
  {
  }

  lemma ServerErrorKeyComplete(s: ServerErrorStatus)
    ensures ServerErrorKey(ServerErrorCode(s)) == Some(s)
  {
  }

  /** `Status[code]` for a numeric code: the listed name, or `undefined` (None). */
  function StatusName(code: int): (r: Option<string>)
    ensures r.Some? ==> exists k :: Code(k) == code && r.value == Name(k)
    ensures r.Some? ==> r.value != ""
  {
    match KeyOfCode(code)
    case Some(k) => Some(Name(k))
    case None => None
  }

  /** Anything a handler can throw or pass to `next(err)`: an `HttpError`, or
      a plain `Error`/`TypeError`/database error, which has no `status`
      property (`status == 0` stands for that absent, falsy property). */
  datatype Err = Err(status: int, message: string)

  /** `new HttpError(statusCode, message)`. A falsy (absent or 0) status code
      becomes 500; a falsy (absent or empty) message becomes the status name,
      and when the code has no name `Error`'s own message is the empty string. */
  function NewHttpError(statusCode: int, message: string): (e: Err)
    ensures e.status != 0
    ensures statusCode != 0 ==> e.status == statusCode
    ensures statusCode == 0 ==> e.status == 500
    ensures message != "" ==> e.message == message
    ensures message == "" && StatusName(statusCode).Some? ==> e.message == StatusName(statusCode).value
    ensures message == "" && StatusName(statusCode).None? ==> e.message == ""
  {
    var text := if message != "" then message
                else match StatusName(statusCode) case Some(n) => n case None => "";
    Err(if statusCode != 0 then statusCode else 500, text)
  }

  /** The `HttpError(status)` thrown with only a named status carries that
      status and, as its message, the status's own name: the statement a test
      makes for `new HttpError(401)` answering 'Unauthorized'. */
  lemma NamedStatusCarriesItsName(k: StatusKey)
    ensures NewHttpError(Code(k), "") == Err(Code(k), Name(k))
    ensures StatusName(Code(k)) == Some(Name(k))
  {
    KeyOfCodeComplete(k);
  }

  /** The named codes the handlers use, read both ways through the table. */
  lemma UsedCodes()
    ensures StatusName(400) == Some("BadRequest") && StatusName(401) == Some("Unauthorized")
    ensures StatusName(404) == Some("NotFound") && StatusName(409) == Some("Conflict")
    ensures StatusName(500) == Some("InternalServerError")
    ensures NewHttpError(401, "") == Err(401, "Unauthorized")
  {
    NamedStatusCarriesItsName(ClientErrorLow(BadRequest));
    NamedStatusCarriesItsName(ClientErrorLow(Unauthorized));
    NamedStatusCarriesItsName(ClientErrorLow(NotFound));
    NamedStatusCarriesItsName(ClientErrorLow(Conflict));
    NamedStatusCarriesItsName(ServerError(InternalServerError));
  }
}
