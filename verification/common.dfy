/** Values shared by every controller of the finance tracker: optional values,
    the error outcomes a request can end in, and the HTTP status each maps to. */
module Common {

  /** A value that may be absent (JavaScript `null` / `undefined`). */
  datatype Option<+T> = None | Some(value: T) {
    function GetOr(default: T): T {
      match this
      case Some(v) => v
      case None => default
    }
  }

  /** Record identifiers. The database hands them out; the model uses a counter. */
  type Id = nat

  /** Why a request was refused. */
  datatype Error =
    | MissingFields        // required body fields absent or falsy
    | InvalidType          // a transaction type other than income/expense
    | AlreadyExists        // a budget for the same (user, category, month)
    | NonPositiveAmount    // addProgress with an amount that is not > 0
    | Forbidden            // the record belongs to another user
    | NotFound             // no such record (or not the caller's)
    | KeyNotConfigured     // the AI provider key is missing or a placeholder
    | QuotaExceeded        // the AI provider reported insufficient quota
    | ServerError          // anything else that was caught

  /** The HTTP status the controllers answer each error with. */
  function Status(e: Error): (code: nat)
    ensures 400 <= code <= 503
    ensures code == 400 <==> e in {MissingFields, InvalidType, AlreadyExists, NonPositiveAmount}
    ensures code == 404 <==> e == NotFound
    ensures code == 403 <==> e == Forbidden
  {
    match e
    case MissingFields => 400
    case InvalidType => 400
    case AlreadyExists => 400
    case NonPositiveAmount => 400
    case Forbidden => 403
    case NotFound => 404
    case KeyNotConfigured => 503
    case QuotaExceeded => 402
    case ServerError => 500
  }

  datatype Result<+T> = Ok(value: T) | Err(error: Error)

  /** JavaScript truthiness of an optional number: `undefined`, `null` and 0 are falsy
      (NaN is not modelled). */
  predicate TruthyNumber(x: Option<real>) {
    x.Some? && x.value != 0.0
  }

  /** JavaScript truthiness of an optional string: `undefined`, `null` and "" are falsy. */
  predicate TruthyString(s: Option<string>) {
    s.Some? && s.value != ""
  }

  /** `s || null`: the string when it is non-empty, otherwise null. */
  function NullIfEmpty(s: Option<string>): (r: Option<string>)
    ensures r.Some? <==> TruthyString(s)
    ensures r.Some? ==> r == s
  {
    if TruthyString(s) then s else None
  }
}
