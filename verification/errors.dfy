/** The application's exception hierarchy (app/errors.py) and the error-type
    enumeration it draws on (app/enums.py). Every exception is a plain value:
    its class, its HTTP status code, its error type and its optional details. */
module Errors {
  import opened Wrappers

  /** The members of `ErrorTypes`, plus the `FORBIDDEN` member that the
      `Forbidden` class names but the enumeration does not define, plus a
      caller-supplied string (the constructor's `error_type` is typed `str`). */
  datatype ErrorType =
    | UnknownType        // "unknown"
    | UnauthorizedType   // "unauthorized"
    | BadRequestType     // "bad_request"
    | ConverterErrorType // "converter_error"
    | ForbiddenType      // not a member of ErrorTypes
    | Text(text: string)

  /** The four values the `ErrorTypes` enumeration actually declares. */
  predicate IsEnumMember(t: ErrorType) {
    t.UnknownType? || t.UnauthorizedType? || t.BadRequestType? || t.ConverterErrorType?
  }

  /** The exception classes of the hierarchy. */
  datatype Kind =
    | AppExc          // AppException
    | ApiExc          // ApiException(AppException)
    | UnauthorizedExc // Unauthorized(ApiException)
    | ForbiddenExc    // Forbidden(ApiException)
    | BadRequestExc   // BadRequest(ApiException)
    | ConverterExc    // ConverterException(AppException)

  /** Whether the class derives from `ApiException`. Every kind derives from
      `AppException`. */
  predicate IsApi(k: Kind) {
    match k
    case AppExc | ConverterExc => false
    case ApiExc | UnauthorizedExc | ForbiddenExc | BadRequestExc => true
  }

  /** Class attribute `http_status_code`; a class that does not set it
      inherits its parent's. */
  function DefaultStatus(k: Kind): int {
    match k
    case AppExc | ApiExc => 500
    case UnauthorizedExc => 401
    case ForbiddenExc => 403
    case BadRequestExc => 400
    case ConverterExc => 424
  }

  /** Class attribute `error_type`. */
  function DefaultType(k: Kind): ErrorType {
    match k
    case AppExc | ApiExc => UnknownType
    case UnauthorizedExc => UnauthorizedType
    case ForbiddenExc => ForbiddenType
    case BadRequestExc => BadRequestType
    case ConverterExc => ConverterErrorType
  }

  /** Class attribute `details`; the base class leaves it `None`. */
  function DefaultDetails(k: Kind): Option<string> {
    match k
    case AppExc | ApiExc => None
    case UnauthorizedExc => Some("Invalid API key")
    case ForbiddenExc => Some("Access forbidden")
    case BadRequestExc => Some("Bad request")
    case ConverterExc => Some("Unknown forex exception occurred")
  }

  /** A raised exception: its class and the three instance attributes. */
  datatype AppException = AppException(kind: Kind, status: int, errorType: ErrorType, details: Option<string>)

  /** Python truthiness of each constructor argument: `None`, `0` and `""`
      are falsy. Every enumeration member is a non-empty `str`, so truthy. */
  predicate StatusTruthy(a: Option<int>) {
    a.Some? && a.value != 0
  }

  predicate TypeTruthy(a: Option<ErrorType>) {
    a.Some? && a.value != Text("")
  }

  predicate DetailsTruthy(a: Option<string>) {
    a.Some? && a.value != ""
  }

  /** `AppException.__init__`: each attribute is `argument or class default`,
      decided independently of the other two. */
  function Construct(k: Kind, status: Option<int>, errorType: Option<ErrorType>, details: Option<string>): (e: AppException)
    ensures e.kind == k
    ensures e.status == (if StatusTruthy(status) then status.value else DefaultStatus(k))
    ensures e.errorType == (if TypeTruthy(errorType) then errorType.value else DefaultType(k))
    ensures e.details == (if DetailsTruthy(details) then details else DefaultDetails(k))
    // every attribute of a constructed exception is itself truthy, or None
    ensures e.status != 0 && TypeTruthy(Some(e.errorType))
    ensures e.details.Some? ==> e.details.value != ""
    // details end up None exactly for the two base classes called without details
    ensures e.details.None? <==> (!IsDetailsClass(k) && !DetailsTruthy(details))
  {
    AppException(
      k,
      if StatusTruthy(status) then status.value else DefaultStatus(k),
      if TypeTruthy(errorType) then errorType.value else DefaultType(k),
      if DetailsTruthy(details) then details else DefaultDetails(k))
  }

  /** The classes that declare their own `details` default. */
  predicate IsDetailsClass(k: Kind) {
    !(k.AppExc? || k.ApiExc?)
  }

  /** The exception raised with no arguments, `Forbidden()`, say. */
  function Default(k: Kind): AppException {
    Construct(k, None, None, None)
  }

  /** `BadRequest(details="Invalid currency")`, raised by both validators. */
  const InvalidCurrency: AppException := Construct(BadRequestExc, None, None, Some("Invalid currency"))

  /** The class defaults, class by class. */
  lemma ClassDefaults()
    ensures Default(AppExc) == AppException(AppExc, 500, UnknownType, None)
    ensures Default(ApiExc) == AppException(ApiExc, 500, UnknownType, None)
    ensures Default(UnauthorizedExc) == AppException(UnauthorizedExc, 401, UnauthorizedType, Some("Invalid API key"))
    ensures Default(ForbiddenExc) == AppException(ForbiddenExc, 403, ForbiddenType, Some("Access forbidden"))
    ensures Default(BadRequestExc) == AppException(BadRequestExc, 400, BadRequestType, Some("Bad request"))
    ensures Default(ConverterExc) == AppException(ConverterExc, 424, ConverterErrorType, Some("Unknown forex exception occurred"))
    ensures InvalidCurrency == AppException(BadRequestExc, 400, BadRequestType, Some("Invalid currency"))
  {
  }

  /** `Forbidden` is the only class whose type falls outside the enumeration. */
  lemma OnlyForbiddenTypeIsOutsideEnum(k: Kind)
    ensures !IsEnumMember(DefaultType(k)) <==> k == ForbiddenExc
  {
  }

  /** Falsy arguments are as good as missing ones. */
  lemma FalsyArgumentsKeepDefaults(k: Kind)
    ensures Construct(k, Some(0), Some(Text("")), Some("")) == Default(k)
  {
  }

  /** Overriding one attribute leaves the other two at their class defaults. */
  lemma FieldsFallBackIndependently(k: Kind, status: int, t: ErrorType, details: string)
    requires status != 0 && t != Text("") && details != ""
    ensures Construct(k, None, None, Some(details)) == Default(k).(details := Some(details))
    ensures Construct(k, Some(status), None, None) == Default(k).(status := status)
    ensures Construct(k, None, Some(t), None) == Default(k).(errorType := t)
  {
  }

  /** Re-raising an exception with its own attributes reproduces it exactly. */
  lemma ReconstructIsIdentity(k: Kind, status: Option<int>, t: Option<ErrorType>, details: Option<string>)
    ensures var e := Construct(k, status, t, details);
            Construct(k, Some(e.status), Some(e.errorType), e.details) == e
  {
  }

  /** `Unauthorized`, `Forbidden` and `BadRequest` are API exceptions;
      `ConverterException` derives from `AppException` directly. */
  lemma ClassHierarchy()
    ensures IsApi(UnauthorizedExc) && IsApi(ForbiddenExc) && IsApi(BadRequestExc)
    ensures !IsApi(ConverterExc) && !IsApi(AppExc)
  {
  }
}
