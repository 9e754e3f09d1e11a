/**
 * The part of Ruby's object universe that the classnt library touches:
 * the values that flow through a pipeline, the `Classnt::Result` record,
 * raised exceptions, and an `Outcome` that turns "returned normally" and
 * "raised" into data.
 */
module RubyValues {

  datatype Option<T> = None | Some(value: T)

  /** The three type symbols a Result is built with: `:ok`, `:error`, `:failure`. */
  datatype Tag = Ok | Error | Failure

  /** A Ruby value, as far as the library inspects it. */
  datatype Value =
    | Nil
    | Bool(b: bool)
    | Int(i: int)
    | Str(s: string)
    | Sym(name: string)
    | Arr(elems: seq<Value>)
    | Res(r: Result)
    | Obj(cls: string)      // any other object, known only by its class name

  /**
   * `Classnt::Result`: a type symbol and a payload, both set once by
   * `initialize` and read through `attr_reader :type, :value`.
   */
  datatype Result = Result(tag: Tag, value: Value) {

    /** Result#ok?: the type symbol is `:ok`. */
    predicate IsOk()
      ensures IsOk() <==> TagName(tag) == "ok"
    {
      tag == Ok
    }

    /** Result#failure?: `:error` and `:failure` are both failures. */
    predicate IsFailure()
      ensures IsFailure() <==> TagName(tag) == "error" || TagName(tag) == "failure"
    {
      tag == Error || tag == Failure
    }
  }

  /** For each of the three tags exactly one of `ok?` and `failure?` holds. */
  lemma KindsExclusive(r: Result)
    ensures r.IsOk() <==> !r.IsFailure()
  {
  }

  /** The symbol name of a tag. */
  function TagName(t: Tag): string {
    match t
    case Ok => "ok"
    case Error => "error"
    case Failure => "failure"
  }

  /** The tag whose symbol is `name`, if there is one. */
  function TagOf(name: string): (t: Option<Tag>)
    ensures t.Some? <==> name == "ok" || name == "error" || name == "failure"
    ensures t.Some? ==> TagName(t.value) == name
  {
    if name == "ok" then Some(Ok)
    else if name == "error" then Some(Error)
    else if name == "failure" then Some(Failure)
    else None
  }

  lemma TagNameRoundTrip(t: Tag)
    ensures TagOf(TagName(t)) == Some(t)
  {
  }

  /** `array[i]` in Ruby: an index past the end reads `nil`. */
  function At(es: seq<Value>, i: nat): (v: Value)
    ensures i < |es| ==> v == es[i]
    ensures i >= |es| ==> v == Nil
  {
    if i < |es| then es[i] else Nil
  }

  /** The tag named by the first element of an array, when it is one of the three symbols. */
  function HeadTag(es: seq<Value>): (t: Option<Tag>)
    ensures t.Some? <==> |es| > 0 && es[0].Sym? && TagOf(es[0].name).Some?
    ensures t.Some? ==> es[0] == Sym(TagName(t.value))
  {
    if |es| > 0 && es[0].Sym? then TagOf(es[0].name) else None
  }

  /** The class of a raised exception, as far as the library tells them apart. */
  datatype ExcKind =
    | StandardError(cls: string)   // RuntimeError, NoMethodError, ...: any StandardError not listed below
    | ClassntError                 // Classnt::Error, raised by `wrap` for a shape it does not accept
    | Rollback(result: Result)     // Classnt::Rollback, carrying the failure that triggered it
    | UnwrapError(payload: Value)  // raised by Result#value! on a failure
    | NonStandard(cls: string)     // an Exception outside StandardError (Interrupt, NoMemoryError, ...)

  datatype Exc = Exc(kind: ExcKind, message: string) {

    /** Whether `rescue StandardError` catches it (Classnt::Rollback and Classnt::Error do). */
    predicate IsStandardError() {
      !kind.NonStandard?
    }
  }

  /** How a Ruby call ends: it returns a value or raises an exception. */
  datatype Outcome<T> = Normal(val: T) | Raised(exc: Exc) {

    /** Run `f` on a normal value; a raised exception unwinds past it. */
    function Then<U>(f: T -> Outcome<U>): (o: Outcome<U>)
      ensures Raised? ==> o == Raised(exc)
      ensures Normal? ==> o == f(val)
    {
      match this
      case Normal(v) => f(v)
      case Raised(e) => Raised(e)
    }
  }

  /** A Ruby callable (proc, lambda, method): one argument, returns or raises. */
  type Callable = Value -> Outcome<Value>

  function DigitChar(d: nat): char
    requires d < 10
  {
    "0123456789"[d]
  }

  /** Integer#to_s in base 10 for a non-negative integer. */
  function NatToString(n: nat): (s: string)
    ensures |s| > 0
    ensures forall k :: 0 <= k < |s| ==> '0' <= s[k] <= '9'
    decreases n
  {
    if n < 10 then [DigitChar(n)] else NatToString(n / 10) + [DigitChar(n % 10)]
  }

  /** Integer#to_s in base 10. */
  function IntToString(i: int): string {
    if i < 0 then "-" + NatToString(-i) else NatToString(i)
  }

  /**
   * Object#inspect. String escapes and the object address that Ruby
   * prints for a plain object are not modelled.
   */
  function Inspect(v: Value): string
    decreases v
  {
    match v
    case Nil => "nil"
    case Bool(b) => if b then "true" else "false"
    case Int(i) => IntToString(i)
    case Str(s) => "\"" + s + "\""
    case Sym(n) => ":" + n
    case Arr(es) => "[" + InspectAll(es) + "]"
    case Res(r) => "#<Classnt::Result @type=:" + TagName(r.tag) + ", @value=" + Inspect(r.value) + ">"
    case Obj(c) => "#<" + c + ">"
  }

  /** The elements of an array, inspected and joined by ", ". */
  function InspectAll(es: seq<Value>): string
    decreases es
  {
    if es == [] then ""
    else if |es| == 1 then Inspect(es[0])
    else Inspect(es[0]) + ", " + InspectAll(es[1..])
  }

  /** Object#to_s: a string is itself, a symbol its name, nil the empty string. */
  function ToS(v: Value): string {
    match v
    case Str(s) => s
    case Sym(n) => n
    case Nil => ""
    case Res(_) => "#<Classnt::Result>"
    case _ => Inspect(v)
  }
}
