/** Python values as the job handler sees them: the arguments found in a job's
    input mapping, the exceptions that can be raised while a job is handled, and
    the outcome of a call that either returns or raises. */
module PyValues {

  datatype Option<+T> = None | Some(value: T)

  /** A value taken from the job's input mapping. Strings and integers are kept
      exactly; every other Python object (None, a bool, a float, a list, a dict, ...)
      is seen only through what the handler does with it: its type name, the text
      `str()` gives for it and its truthiness; a dict field value, for one, is an
      `Object` named `dict` whose text is its repr. An `Object` named `str` or `int`
      stands for no Python object, since those have their own cases. */
  datatype Arg =
    | Str(s: string)
    | Int(i: int)
    | Object(typeName: string, text: string, truthy: bool)
  {
    /** Python's `bool(value)`, as used by a conditional expression. */
    predicate Truthy() {
      match this
      case Str(s) => s != ""
      case Int(i) => i != 0
      case Object(_, _, t) => t
    }

    /** Python's `str(value)`, which an f-string inserts. */
    function Text(): string {
      match this
      case Str(s) => s
      case Int(i) => DecimalText(i)
      case Object(_, t, _) => t
    }

    /** Python's `type(value).__name__`. */
    function TypeName(): string {
      match this
      case Str(_) => "str"
      case Int(_) => "int"
      case Object(n, _, _) => n
    }
  }

  /** `str(i)` for a Python int: optional minus sign, then decimal digits. */
  function DecimalText(i: int): string {
    if i < 0 then "-" + Digits(-i) else Digits(i)
  }

  function Digits(n: nat): string
    decreases n
  {
    if n < 10 then [DigitChar(n)] else Digits(n / 10) + [DigitChar(n % 10)]
  }

  function DigitChar(d: nat): char
    requires d < 10
  {
    "0123456789"[d]
  }

  /** Where an exception sits in Python's class hierarchy, as far as the handler's
      `except` clauses can tell. */
  datatype ExceptionClass =
    | ImportError        // ImportError, or its subclass ModuleNotFoundError
    | AttributeError     // e.g. calling `.get` on something that is not a mapping
    | OtherException     // any other subclass of Exception
    | BaseExceptionOnly  // KeyboardInterrupt, SystemExit, GeneratorExit: outside Exception

  /** A raised exception; `message` is what `str(e)` gives. */
  datatype Exception = Exception(cls: ExceptionClass, message: string) {
    /** True when an `except Exception` clause catches it. */
    predicate IsExceptionSubclass() {
      cls != BaseExceptionOnly
    }
  }

  /** The outcome of a Python call: it returned a value or it raised. */
  datatype Outcome<+T> = Ok(value: T) | Raise(error: Exception)
}
