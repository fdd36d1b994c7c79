/** Request values as the controllers see them: JavaScript values with their truthiness,
    the `x || y` idiom, the parse functions the handlers call, the enum value sets of the
    store schema, the upload adapter's outcome, and the HTTP status codes of the responses. */
module Values {

  datatype Option<+T> = None | Some(value: T) {
    function GetOr(default: T): T {
      if Some? then value else default
    }
  }

  /** What a handler step yields: the value it normalised, or the status code of the
      response it sends and the request field the failing check was about. */
  datatype Result<+T> = Success(value: T) | Failure(status: int, field: string) {
    predicate IsFailure() {
      Failure?
    }

    function PropagateFailure<U>(): Result<U>
      requires Failure?
    {
      Failure(status, field)
    }

    function Extract(): T
      requires Success?
    {
      value
    }
  }

  /** A value of a request body: absent (`undefined`), `null`, a string (every multipart
      field is one), a JSON number or a JSON boolean. */
  datatype Value = Undefined | Null | Str(s: string) | Num(n: real) | Bool(b: bool)

  /** JavaScript truthiness: `undefined`, `null`, `""`, `0` and `false` are falsy. */
  predicate Truthy(v: Value) {
    match v
    case Undefined => false
    case Null => false
    case Str(s) => s != ""
    case Num(n) => n != 0.0
    case Bool(b) => b
  }

  /** `v !== undefined && v !== null` */
  predicate Given(v: Value) {
    v != Undefined && v != Null
  }

  /** `v || fallback` */
  function Or(v: Value, fallback: Value): Value {
    if Truthy(v) then v else fallback
  }

  /** `v || null` */
  function OrNull(v: Value): Value {
    Or(v, Null)
  }

  /** A field of an update object that is `undefined` is dropped before the write;
      `None` marks a dropped field. */
  function UnlessUndefined(v: Value): Option<Value> {
    if v == Undefined then None else Some(v)
  }

  /** `v || undefined`, then dropped when undefined: only a truthy value is written. */
  function IfTruthy(v: Value): Option<Value> {
    if Truthy(v) then Some(v) else None
  }

  /** The fields of a parsed request body (`req.body`). */
  type Body = map<string, Value>

  /** `req.body.name`: a field that was not sent reads as `undefined`. */
  function Field(body: Body, name: string): Value {
    if name in body then body[name] else Undefined
  }

  /** The JavaScript conversions the handlers rely on, left abstract: `parseInt`,
      `parseFloat` (`None` stands for NaN) and `new Date(v).toISOString()` (`None` stands
      for an Invalid Date). */
  datatype Parsers = Parsers(
    parseInt: Value -> Option<int>,
    parseFloat: Value -> Option<real>,
    isoDate: Value -> Option<string>)

  /** `v ? parseFloat(v) : null` for an optional number that is stored without a range
      check: a NaN would reach the store, which refuses it (500). */
  function OptionalFloat(env: Env, v: Value, field: string): Result<Option<real>> {
    if !Truthy(v) then Success(None)
    else if env.parse.parseFloat(v).None? then Failure(SERVER_ERROR, field)
    else Success(env.parse.parseFloat(v))
  }

  /** `v ? parseInt(v) : null`, the integer counterpart of `OptionalFloat`. */
  function OptionalInt(env: Env, v: Value, field: string): Result<Option<int>> {
    if !Truthy(v) then Success(None)
    else if env.parse.parseInt(v).None? then Failure(SERVER_ERROR, field)
    else Success(env.parse.parseInt(v))
  }

  /** The value sets of the store schema's enums `Brand`, `ItemStatus`, `AccessoryType`
      and `ServiceType`. */
  datatype Enums = Enums(
    brand: set<string>,
    itemStatus: set<string>,
    accessoryType: set<string>,
    serviceType: set<string>)

  /** Everything a handler consults besides the request and the store. */
  datatype Env = Env(parse: Parsers, enums: Enums)

  /** `Object.values(E).includes(v)`: strict equality with one of the enum's strings. */
  predicate IsOneOf(values: set<string>, v: Value) {
    v.Str? && v.s in values
  }

  /** `parseInt(req.params.id)` for a route parameter. */
  function ParseId(env: Env, param: string): Option<int> {
    env.parse.parseInt(Str(param))
  }

  /** What the image upload adapter produced for a request: no file was sent, the
      uploads succeeded with this result, or an upload threw. */
  datatype Upload<+T> = NoFile | Uploaded(result: T) | UploadFailed

  const OK: int := 200
  const CREATED: int := 201
  const NO_CONTENT: int := 204
  const BAD_REQUEST: int := 400
  const NOT_FOUND: int := 404
  const CONFLICT: int := 409
  const UNPROCESSABLE: int := 422
  const SERVER_ERROR: int := 500

  /** The response a handler sends: a success status with the record in its body, or an
      error status with the request field the failing check was about (the error text
      itself is not modelled). */
  datatype Reply<+T> = Ok(status: int, data: Option<T>) | Err(status: int, field: string)

  /** The error response for a failed pipeline step. */
  function Refusal<T, U>(r: Result<T>): Reply<U>
    requires r.Failure?
  {
    Err(r.status, r.field)
  }
}
