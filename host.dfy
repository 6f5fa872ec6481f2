/**
  Values and outcomes shared by every part of the model: the JavaScript values
  that flow through the library, the errors it throws or rejects with, and the
  settlement of a deferred promise.
 */
module Host {

  /** A JavaScript value as the library sees it. Numbers are finite integers
      (`Num`) or one of NaN and the infinities (`NonFinite`). */
  datatype Value =
    | Undefined
    | Null
    | Bool(b: bool)
    | Num(n: int)
    | NonFinite
    | Str(s: string)
    | Obj(fields: map<string, Value>)
    | Arr(items: seq<Value>)

  /** The properties of a plain result object. */
  type Fields = map<string, Value>

  /** JavaScript's `typeof` on a value. */
  function TypeOf(v: Value): string
  {
    match v
    case Undefined => "undefined"
    case Bool(_) => "boolean"
    case Num(_) => "number"
    case NonFinite => "number"
    case Str(_) => "string"
    case Null => "object"
    case Obj(_) => "object"
    case Arr(_) => "object"
  }

  predicate IsNullish(v: Value)
  {
    v.Undefined? || v.Null?
  }

  /** One column of a driver row: `{ metadata: { colName }, value }`. */
  datatype Cell = Cell(colName: string, value: Value)

  type Row = seq<Cell>

  /** A plain JavaScript object whose properties are enumerated in order. */
  datatype Property = Property(key: string, value: Value)

  type RowObject = seq<Property>

  function Keys(r: RowObject): seq<string>
  {
    seq(|r|, i requires 0 <= i < |r| => r[i].key)
  }

  /** An input parameter binding `{ name, type, value, options }`. */
  datatype Parameter = Parameter(name: string, sqlType: Value, value: Value, options: Value)

  datatype Option<T> = None | Some(value: T)

  /** The outcome of a call that may throw. */
  datatype Result<T> = Ok(value: T) | Err(error: Error)
  {
    predicate IsFailure()
    {
      Err?
    }

    function PropagateFailure<U>(): Result<U>
      requires Err?
    {
      Err(error)
    }

    function Extract(): T
      requires Ok?
    {
      value
    }
  }

  /** An argument the library checks with `typeof f === 'function'`. */
  datatype Callable<F> = Function(fn: F) | NonFunction(v: Value)

  /** What is thrown or rejected. Fixed messages are one constructor each;
      `Raised` stands for an error raised by code outside the model (the
      driver, a caller's callback). */
  datatype Error =
    | NameNotString
    | PathNotString
    | ArgumentNotFunction
    | CannotConvertToBoolean(value: Value)
    | InvalidModeArguments
    | SqlAlreadySet
    | SqlNotString(received: string)
    | UnexpectedColumnMappingType(received: string)
    | RowTransformerNotDefined(name: string)
    | RowTransformerWrongType
    | CallbackNotFunction
    | NotAfterColumn
    | TypeError
    | ConnectionPoolRequired
    | ConnectionConfigRequired
    | NotConfigured(message: string)
    | NamedLibraryNotFound(name: string)
    | LibraryNotObject
    | LibraryDeferMissing
    | LibraryRejectMissing
    | LibraryResolveMissing
    | DeferredRejectMissing
    | DeferredResolveMissing
    | DeferredPromiseMissing
    | PromiseThenMissing
    | MockDataNotArray
    | MissingParameters(missing: seq<string>)
    | ExtraParameters(extra: set<string>)
    | NoMockData
    | NoMockDataFound(criteria: Fields)
    | Raised(code: nat)

  /** The state of a deferred promise. Only the first settlement counts. */
  datatype Settlement<T> = Pending | Resolved(value: T) | Rejected(error: Error)

  function Settle<T>(s: Settlement<T>, next: Settlement<T>): (r: Settlement<T>)
    ensures s.Pending? ==> r == next
    ensures !s.Pending? ==> r == s
  {
    if s.Pending? then next else s
  }

  /** What a mock-data callback does when called. */
  datatype MockReturn =
    | NoData                     // returns null or undefined
    | Rows(rows: seq<RowObject>) // returns an array of plain row objects
    | NotRows(v: Value)          // returns anything else
    | Throws(error: Error)       // throws

  /** `function (sql, parameters)`: the SQL (null until set) and the parameter table. */
  type MockCallback = (Option<string>, map<string, Parameter>) -> MockReturn
}
