// The dynamic value universe that effects compute with.  Python programs
// pass arbitrary objects through effects; the model keeps the kinds of value
// the library itself creates or inspects: None, booleans, integers, strings,
// tuples and lists, Either and Option values, contexts, exceptions, and
// opaque objects (anything else, told apart by an identity number).

module Values {
  import opened Options
  import opened Eithers

  /** A service tag: the name of the class a service is registered under. */
  type Tag = string

  /**
   * The exception classes the library raises, plus user classes.  A user
   * class is either an `Exception` subclass or a bare `BaseException`
   * subclass (such as KeyboardInterrupt); only the former is caught by
   * `try_sync` and `try_async`.
   */
  datatype ExnClass =
    | RuntimeError
    | ValueError
    | RecursionError
    | MissingServiceError
    | UserException(name: string)
    | UserBaseException(name: string)

  datatype Value =
    | NoneV
    | Bool(b: bool)
    | Int(i: int)
    | Str(s: string)
    | Tuple(items: seq<Value>)
    | List(elems: seq<Value>)
    | EitherV(either: Either<Value, Value>)
    | OptionV(option: Option<Value>)
    | CtxV(services: map<Tag, Value>)
    | Exn(exn: PyException)
    | Object(id: int)

  /**
   * An exception object: its class, its message, the value it carries
   * (the missing tag, the failed error, ...) and its `__cause__`.
   */
  datatype PyException = PyException(cls: ExnClass, message: string, payload: Value, cause: Option<PyException>)

  /** Whether `except Exception` catches the exception. */
  predicate IsException(x: PyException)
  {
    !x.cls.UserBaseException?
  }

  /** What calling a user thunk does: return a value or raise. */
  datatype Call<A> = Returns(value: A) | Throws(exn: PyException)

  /**
   * The part of the program's state that user thunks can read and change
   * (the counters and lists that tests observe), as named cells.
   */
  type World = map<string, Value>

  /** Python truthiness of the values above (`if value:`). */
  predicate Truthy(v: Value)
  {
    match v
    case NoneV => false
    case Bool(b) => b
    case Int(i) => i != 0
    case Str(s) => s != ""
    case Tuple(items) => items != []
    case List(elems) => elems != []
    case _ => true
  }

  /** `option.from_optional`: None becomes Nothing, anything else Some. */
  function FromOptional(v: Value): (r: Option<Value>)
    ensures r.Nothing? <==> v == NoneV
    ensures r.Some? ==> r.value == v
  {
    if v == NoneV then Nothing else Some(v)
  }

  /** `option.get_or_none`: the value of a Some, None for Nothing. */
  function GetOrNone(opt: Option<Value>): (r: Value)
    ensures opt.Nothing? ==> r == NoneV
    ensures opt.Some? ==> r == opt.value
  {
    match opt
    case Some(v) => v
    case Nothing => NoneV
  }

  /** Converting to an Option and back gives the original value. */
  lemma GetOrNoneFromOptional(v: Value)
    ensures GetOrNone(FromOptional(v)) == v
  {
  }

  /**
   * The other direction holds except for `Some(None)`, which collapses to
   * Nothing: Python's None cannot tell "absent" from "present and None".
   */
  lemma FromOptionalGetOrNone(opt: Option<Value>)
    ensures FromOptional(GetOrNone(opt)) == opt <==> opt != Some(NoneV)
  {
  }

  /** The exception `context.get` raises for a missing tag. */
  function MissingService(tag: Tag): (x: PyException)
    ensures x.cls == MissingServiceError && x.payload == Str(tag)
  {
    PyException(MissingServiceError,
      "Service '" + tag + "' not found in context. Did you forget to provide it?",
      Str(tag), Nothing)
  }
}
