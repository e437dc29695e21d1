/** Optional values: Python's `None` versus a present value. */
module Wrappers {

  datatype Option<+T> = None | Some(value: T) {

    /** The present value, or `default` when absent (Python's `x if x is not None else default`). */
    function GetOr(default: T): T {
      match this
      case Some(v) => v
      case None => default
    }
  }
}

/**
 The exceptions the library raises, one constructor per raise site kind,
 and the `Result` type that carries either a value or the exception a
 Python call would have raised.
 */
module Errors {
  import opened Wrappers

  datatype Error =
    // eocanvas.exceptions
    | MalformedCredentials
    | QuotaExceeded
    | JobFailed(jobId: string)
    | NotDownloadable
    | UnknownResultType(rel: string)
    | SnapOperatorNotFound(operator: string)
    | RetriesExhausted(maxRetries: int)
    // requests' raise_for_status
    | HttpStatus(code: int)
    // the `assert status in [...]` of the job runner
    | StatusAssertion(status: Option<string>)
    // ValueError raise sites
    | InvalidKeyType(keyType: string)
    | KeyWithoutConfig
    | EndpointNotUrl(endpoint: string)
    | InvalidArea(area: string)
    | BadDate(field: string, value: string)
    | EndpointNotFound(endpoint: string)
    | InvalidComplexParameter(param: string)
    | FormatSyntax
    // KeyError raise sites
    | MalformedUrlFile(key: string)
    | MissingPlaceholder(name: string)
    // IndexError raise sites
    | PositionalPlaceholder(field: string)
    | EmptyParameterValue(param: string)
    // TypeError / AttributeError raised by the interpreter
    | UnexpectedKeyword(name: string)
    | DuplicateKeyword(name: string)
    | NotAString(what: string)
    | MissingAttribute(what: string)
    | NotSubscriptable(what: string)
    // behaviour this model does not describe
    | Unsupported(what: string)

  /** The Python exception class each error surfaces as. */
  function ExceptionClass(e: Error): string {
    match e
    case MalformedCredentials => "MalformedCredentialsError"
    case QuotaExceeded => "QuotaExceededError"
    case JobFailed(_) => "JobFailed"
    case NotDownloadable => "NotDownloadableError"
    case UnknownResultType(_) => "UnknownResultTypeError"
    case SnapOperatorNotFound(_) => "SnapOperatorNotFound"
    case RetriesExhausted(_) => "HTTPError"
    case HttpStatus(_) => "requests.HTTPError"
    case StatusAssertion(_) => "AssertionError"
    case InvalidKeyType(_) => "ValueError"
    case KeyWithoutConfig => "ValueError"
    case EndpointNotUrl(_) => "ValueError"
    case InvalidArea(_) => "ValueError"
    case BadDate(_, _) => "ValueError"
    case EndpointNotFound(_) => "ValueError"
    case InvalidComplexParameter(_) => "ValueError"
    case FormatSyntax => "ValueError"
    case MalformedUrlFile(_) => "KeyError"
    case MissingPlaceholder(_) => "KeyError"
    case PositionalPlaceholder(_) => "IndexError"
    case EmptyParameterValue(_) => "IndexError"
    case UnexpectedKeyword(_) => "TypeError"
    case DuplicateKeyword(_) => "TypeError"
    case NotAString(_) => "TypeError"
    case MissingAttribute(_) => "AttributeError"
    case NotSubscriptable(_) => "TypeError"
    case Unsupported(_) => "unmodelled"
  }

  datatype Result<+T> = Ok(value: T) | Err(error: Error) {

    predicate IsFailure() {
      Err?
    }

    function PropagateFailure<U>(): Result<U>
      requires Err?
    {
      Err(error)
    }

    function Extract(): T
      requires Ok?
    {
      value
    }
  }
}

/** JSON/YAML values as the library builds and exchanges them. */
module Json {

  datatype Value =
    | Null
    | Bool(b: bool)
    | Int(i: int)
    | Str(s: string)
    | List(items: seq<Value>)
    | Dict(fields: map<string, Value>)

  /** Python truthiness of a value (`x or default`, `not x`). */
  predicate Truthy(v: Value) {
    match v
    case Null => false
    case Bool(b) => b
    case Int(i) => i != 0
    case Str(s) => s != ""
    case List(xs) => xs != []
    case Dict(m) => m != map[]
  }

  /** `dec` undoes `enc`: the hypothesis under which an external codec is used. */
  ghost predicate IsCodec<A(!new), B>(enc: A -> B, dec: B -> A) {
    forall a: A :: dec(enc(a)) == a
  }
}
