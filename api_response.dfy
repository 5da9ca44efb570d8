/** The standard response envelope, the predefined error codes and messages, and required-field validation. */
module ApiResponse {
  import opened Wrappers
  import opened Seqs

  datatype ApiError = ApiError(code: string, details: Option<string>)

  /** A response; the timestamp is kept in milliseconds. */
  datatype Response<T> = Response(
    success: bool,
    data: Option<T>,
    message: string,
    timestamp: int,
    error: Option<ApiError>)

  /** Success and the absence of an error block go together. */
  predicate WellFormed<T>(r: Response<T>)
  {
    r.success <==> r.error.None?
  }

  const DefaultSuccessMessage: string := "Operación exitosa"
  const DefaultErrorCode: string := "ERROR"

  /** `createSuccessResponse(data, message = 'Operación exitosa')`, stamped with `now`. */
  function CreateSuccessResponse<T>(data: T, now: int, message: string := DefaultSuccessMessage): (r: Response<T>)
    ensures r.success && r.data == Some(data) && r.message == message && r.timestamp == now
    ensures WellFormed(r)
  {
    Response(true, Some(data), message, now, None)
  }

  /** `createErrorResponse(message, code = 'ERROR', details)`, stamped with `now`: no data, an error block. */
  function CreateErrorResponse<T>(message: string, now: int, code: string := DefaultErrorCode,
                                  details: Option<string> := None): (r: Response<T>)
    ensures !r.success && r.data.None? && r.message == message && r.timestamp == now
    ensures r.error == Some(ApiError(code, details))
    ensures WellFormed(r)
  {
    Response(false, None, message, now, Some(ApiError(code, details)))
  }

  /** The defaults: the success message and the generic error code. */
  lemma DefaultsApplied<T>(data: T, message: string, now: int)
    ensures CreateSuccessResponse(data, now).message == "Operación exitosa"
    ensures CreateErrorResponse<T>(message, now).error.value.code == "ERROR"
    ensures CreateErrorResponse<T>(message, now).error.value.details.None?
  {
  }

  datatype ErrorCode =
    | ValidationError | ProductNotFound | OrderNotFound | LockerNotAvailable | LockerNotFound
    | InvalidUrl | ExtractionFailed | StoreNotSupported | InvalidStatus | InternalError

  /** `ErrorCodes`: each code's text is its own constant name. */
  function CodeString(c: ErrorCode): string
  {
    match c
    case ValidationError => "VALIDATION_ERROR"
    case ProductNotFound => "PRODUCT_NOT_FOUND"
    case OrderNotFound => "ORDER_NOT_FOUND"
    case LockerNotAvailable => "LOCKER_NOT_AVAILABLE"
    case LockerNotFound => "LOCKER_NOT_FOUND"
    case InvalidUrl => "INVALID_URL"
    case ExtractionFailed => "EXTRACTION_FAILED"
    case StoreNotSupported => "STORE_NOT_SUPPORTED"
    case InvalidStatus => "INVALID_STATUS"
    case InternalError => "INTERNAL_ERROR"
  }

  /** `ErrorMessages`, keyed by the code texts. */
  const ErrorMessages: map<string, string> := map[
    "VALIDATION_ERROR" := "Error de validación en los datos proporcionados",
    "PRODUCT_NOT_FOUND" := "Producto no encontrado",
    "ORDER_NOT_FOUND" := "Orden no encontrada",
    "LOCKER_NOT_AVAILABLE" := "Casillero no disponible",
    "LOCKER_NOT_FOUND" := "Casillero no encontrado",
    "INVALID_URL" := "URL inválida o no soportada",
    "EXTRACTION_FAILED" := "No se pudo extraer información del producto",
    "STORE_NOT_SUPPORTED" := "Tienda no soportada",
    "INVALID_STATUS" := "Estado de orden inválido",
    "INTERNAL_ERROR" := "Error interno del sistema"
  ]

  /** Every error code has a message. */
  lemma MessagesCoverCodes()
    ensures forall c: ErrorCode :: CodeString(c) in ErrorMessages
  {
    forall c: ErrorCode ensures CodeString(c) in ErrorMessages {
      match c
      case ValidationError =>
      case ProductNotFound =>
      case OrderNotFound =>
      case LockerNotAvailable =>
      case LockerNotFound =>
      case InvalidUrl =>
      case ExtractionFailed =>
      case StoreNotSupported =>
      case InvalidStatus =>
      case InternalError =>
    }
  }

  /** The message for a code. */
  function MessageFor(c: ErrorCode): (m: string)
    ensures m == ErrorMessages[CodeString(c)]
  {
    MessagesCoverCodes();
    ErrorMessages[CodeString(c)]
  }

  /** A JavaScript value as far as truthiness is concerned; `JsOther` is any object. */
  datatype JsValue = JsUndefined | JsNull | JsBool(b: bool) | JsNumber(n: real) | JsNaN | JsString(s: string) | JsOther

  /** The falsy values: undefined, null, false, 0, NaN and the empty string. */
  predicate Falsy(v: JsValue)
  {
    match v
    case JsUndefined => true
    case JsNull => true
    case JsBool(b) => !b
    case JsNumber(n) => n == 0.0
    case JsNaN => true
    case JsString(s) => s == ""
    case JsOther => false
  }

  /** `!obj[field]`: an absent property reads as undefined. */
  predicate FieldMissing(obj: map<string, JsValue>, field: string)
  {
    field !in obj || Falsy(obj[field])
  }

  datatype Validation = Validation(valid: bool, missing: Option<seq<string>>)

  /**
   * `validateRequired`: valid exactly when no required field is falsy; otherwise the
   * falsy fields, in the order they were asked for.
   */
  function ValidateRequired(obj: map<string, JsValue>, requiredFields: seq<string>): (r: Validation)
    ensures r.valid <==> forall i :: 0 <= i < |requiredFields| ==> !FieldMissing(obj, requiredFields[i])
    ensures r.valid <==> r.missing.None?
    ensures r.missing.Some? ==> forall f :: f in r.missing.value <==> f in requiredFields && FieldMissing(obj, f)
    ensures r.missing.Some? ==>
              forall f :: multiset(r.missing.value)[f] == if FieldMissing(obj, f) then multiset(requiredFields)[f] else 0
    ensures r.missing.Some? ==> IsSubsequence(r.missing.value, requiredFields) && r.missing.value != []
  {
    var missing := Filter(requiredFields, (f: string) => FieldMissing(obj, f));
    if |missing| > 0 then
      Validation(false, Some(missing))
    else
      assert forall i :: 0 <= i < |requiredFields| ==> requiredFields[i] in requiredFields;
      Validation(true, None)
  }

  /** Asking for no fields is always valid; asking for an absent field never is. */
  lemma ValidationExamples(obj: map<string, JsValue>, field: string)
    ensures ValidateRequired(obj, []).valid
    ensures field !in obj ==> ValidateRequired(obj, [field]) == Validation(false, Some([field]))
  {
    if field !in obj {
      assert Filter([field], (f: string) => FieldMissing(obj, f)) == [field];
    }
  }
}
