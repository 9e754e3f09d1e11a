/**
 * The instance methods of `Classnt::Result` (lib/classnt/result.rb) and
 * the `Matcher` that `match` hands to its block. A Ruby block given to
 * these methods is a `Callable`; an exception it raises unwinds through
 * the method unchanged.
 */
module Results {
  import opened RubyValues
  import Classnt

  /**
   * The message of an exception raised as `raise cls, payload` by a class
   * that keeps Exception's own constructor: `to_s` of the payload, and the
   * class name when the payload is nil.
   */
  function RaisedMessage(cls: string, payload: Value): (m: string)
    ensures payload.Nil? ==> m == cls
    ensures payload.Str? ==> m == payload.s
  {
    if payload.Nil? then cls else ToS(payload)
  }

  /** Result#value!: the payload of an ok, an UnwrapError carrying the payload otherwise. */
  function ValueBang(r: Result): (o: Outcome<Value>)
    ensures r.IsOk() <==> o.Normal?
    ensures o.Normal? ==> o.val == r.value
    ensures o.Raised? ==> o.exc.kind == UnwrapError(r.value)
    ensures o.Raised? ==> o.exc.message == RaisedMessage("Classnt::UnwrapError", r.value)
  {
    if r.IsOk() then Normal(r.value)
    else Raised(Exc(UnwrapError(r.value), RaisedMessage("Classnt::UnwrapError", r.value)))
  }

  /**
   * Result#pipe, alias `then`: a failure is returned as it is and the
   * callable is not called; on any other Result the callable's return
   * value goes through Classnt.wrap.
   */
  function Pipe(r: Result, callable: Callable): (o: Outcome<Result>)
    ensures r.IsFailure() ==> o == Normal(r)
    ensures r.IsOk() ==> o == callable(r.value).Then(Classnt.Wrap)
  {
    if r.IsFailure() then Normal(r)
    else
      match callable(r.value)
      case Normal(out) => Classnt.Wrap(out)
      case Raised(e) => Raised(e)
  }

  /**
   * Result#map: a failure is returned as it is and the block is not
   * called; on an ok the block's value becomes an ok, whatever its shape.
   */
  function Map(r: Result, f: Callable): (o: Outcome<Result>)
    ensures r.IsFailure() ==> o == Normal(r)
    ensures r.IsOk() && f(r.value).Normal? ==> o == Normal(Classnt.Ok(f(r.value).val))
    ensures r.IsOk() && f(r.value).Raised? ==> o == Raised(f(r.value).exc)
  {
    if r.IsFailure() then Normal(r)
    else
      match f(r.value)
      case Normal(out) => Normal(Classnt.Ok(out))
      case Raised(e) => Raised(e)
  }

  /**
   * Result#on_success, alias `tap_ok`: the observer runs only on an ok;
   * what it returns is dropped and the receiver comes back unchanged.
   */
  function OnSuccess(r: Result, observer: Callable): (o: Outcome<Result>)
    ensures !r.IsOk() ==> o == Normal(r)
    ensures r.IsOk() && observer(r.value).Normal? ==> o == Normal(r)
    ensures r.IsOk() && observer(r.value).Raised? ==> o == Raised(observer(r.value).exc)
  {
    if r.IsOk() then observer(r.value).Then(_ => Normal(r)) else Normal(r)
  }

  /** Result#on_failure: the observer runs only on a failure; the receiver comes back unchanged. */
  function OnFailure(r: Result, observer: Callable): (o: Outcome<Result>)
    ensures !r.IsFailure() ==> o == Normal(r)
    ensures r.IsFailure() && observer(r.value).Normal? ==> o == Normal(r)
    ensures r.IsFailure() && observer(r.value).Raised? ==> o == Raised(observer(r.value).exc)
  {
    if r.IsFailure() then observer(r.value).Then(_ => Normal(r)) else Normal(r)
  }

  /** Result#unwrap: the pair `[type, value]`. */
  function Unwrap(r: Result): (t: Value)
    ensures t.Arr? && |t.elems| == 2
    ensures Classnt.Wrap(t) == Normal(r)
  {
    TagNameRoundTrip(r.tag);
    Arr([Sym(TagName(r.tag)), r.value])
  }

  /** Result#deconstruct, for array patterns: the same pair as `unwrap`. */
  function Deconstruct(r: Result): (t: Value)
    ensures t == Unwrap(r)
  {
    Arr([Sym(TagName(r.tag)), r.value])
  }

  /** Result#deconstruct_keys, for hash patterns: `{type:, value:}` whatever keys are asked for. */
  function DeconstructKeys(r: Result, keys: seq<string>): (h: map<string, Value>)
    ensures h.Keys == {"type", "value"}
    ensures h["type"] == Sym(TagName(r.tag)) && h["value"] == r.value
  {
    map["type" := Sym(TagName(r.tag)), "value" := r.value]
  }

  /** A tuple with a legal tag survives `wrap` and then `unwrap` unchanged. */
  lemma TupleRoundTrip(t: Tag, v: Value)
    ensures Classnt.Wrap(Arr([Sym(TagName(t)), v])).Normal?
    ensures Unwrap(Classnt.Wrap(Arr([Sym(TagName(t)), v])).val) == Arr([Sym(TagName(t)), v])
  {
    Classnt.WrapTuple(t, v);
  }

  /** A failure is a fixed point of `pipe` and `map`, whatever the callable would do. */
  lemma FailureShortCircuits(r: Result, f: Callable, g: Callable)
    requires r.IsFailure()
    ensures Pipe(r, f) == Pipe(r, g) == Normal(r)
    ensures Map(r, f) == Map(r, g) == Normal(r)
  {
  }

  /** `map f` is `pipe` with a callable that returns `ok(f(v))`. */
  lemma MapIsPipeOfOk(r: Result, f: Callable)
    ensures Map(r, f) == Pipe(r, v => f(v).Then(out => Normal(Res(Classnt.Ok(out)))))
  {
  }

  /** A callable that hands back `ok(v)` leaves any Result as it is (right identity of `pipe`). */
  lemma PipeRightIdentity(r: Result)
    ensures Pipe(r, v => Normal(Res(Classnt.Ok(v)))) == Normal(r)
  {
  }

  /** Piping from `ok(v)` is calling the callable and wrapping its value (left identity). */
  lemma PipeLeftIdentity(v: Value, f: Callable)
    ensures Pipe(Classnt.Ok(v), f) == f(v).Then(Classnt.Wrap)
  {
  }

  /** The identity handler a new Matcher starts with. */
  function Identity(v: Value): Outcome<Value> {
    Normal(v)
  }

  /** Classnt::Matcher: the two handlers `match` dispatches to, overwritten by `success`/`failure`. */
  class Matcher {
    var successHandler: Callable
    var failureHandler: Callable

    constructor ()
      ensures successHandler == Identity && failureHandler == Identity
    {
      successHandler := Identity;
      failureHandler := Identity;
    }

    /** Matcher#success */
    method Success(handler: Callable)
      modifies this
      ensures successHandler == handler && failureHandler == old(failureHandler)
    {
      successHandler := handler;
    }

    /** Matcher#failure */
    method Failure(handler: Callable)
      modifies this
      ensures failureHandler == handler && successHandler == old(successHandler)
    {
      failureHandler := handler;
    }

    /** Matcher#call_success */
    method CallSuccess(v: Value) returns (o: Outcome<Value>)
      ensures o == successHandler(v)
    {
      o := successHandler(v);
    }

    /** Matcher#call_failure */
    method CallFailure(e: Value) returns (o: Outcome<Value>)
      ensures o == failureHandler(e)
    {
      o := failureHandler(e);
    }
  }

  /**
   * Result#match. The block given to `match` is modelled by the handlers
   * it registers: `onSuccess` and `onFailure` are the blocks passed to
   * `on.success` and `on.failure`, or None when the block leaves one out.
   * Exactly one handler runs, the success one for an ok and the failure
   * one otherwise, and its value is the value of `match`; a handler left
   * out is the identity.
   */
  method Match(r: Result, onSuccess: Option<Callable>, onFailure: Option<Callable>) returns (o: Outcome<Value>)
    ensures r.IsOk() && onSuccess.Some? ==> o == onSuccess.value(r.value)
    ensures r.IsOk() && onSuccess.None? ==> o == Normal(r.value)
    ensures !r.IsOk() && onFailure.Some? ==> o == onFailure.value(r.value)
    ensures !r.IsOk() && onFailure.None? ==> o == Normal(r.value)
  {
    var matcher := new Matcher();
    if onSuccess.Some? {
      matcher.Success(onSuccess.value);
    }
    if onFailure.Some? {
      matcher.Failure(onFailure.value);
    }
    if r.IsOk() {
      o := matcher.CallSuccess(r.value);
    } else {
      o := matcher.CallFailure(r.value);
    }
  }
}
