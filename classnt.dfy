/**
 * The module functions of `Classnt` (lib/classnt.rb): the two Result
 * constructors, `pipe` as the start of a chain, `wrap`, which sorts a
 * step's return value into a Result or an error, and the transaction
 * adapter with its `Rollback` signal.
 */
module Classnt {
  import opened RubyValues

  /** Classnt.ok */
  function Ok(v: Value): (r: Result)
    ensures r.IsOk() && !r.IsFailure()
    ensures r.value == v
  {
    Result(Tag.Ok, v)
  }

  /** Classnt.error */
  function Error(v: Value): (r: Result)
    ensures r.IsFailure() && !r.IsOk()
    ensures r.tag == Tag.Error && r.value == v
  {
    Result(Tag.Error, v)
  }

  /** Classnt.pipe(value): the start of a hand-written chain. */
  function Start(v: Value): (r: Result)
    ensures r == Ok(v)
  {
    Ok(v)
  }

  /** The message of the Classnt::Error that `wrap` raises. */
  function InvalidShapeMessage(obj: Value): string {
    "Invalid return value in pipeline: " + Inspect(obj)
      + ". Expected [:ok, val], [:error, err] or Classnt::Result"
  }

  /** The shapes `wrap` accepts: a Result, or an array whose first element is `:ok`, `:error` or `:failure`. */
  predicate Wrappable(obj: Value) {
    obj.Res? || (obj.Arr? && HeadTag(obj.elems).Some?)
  }

  /**
   * Classnt.wrap: a Result passes through unchanged, a tagged array
   * becomes a Result with that tag and its second element (nil when
   * missing), and anything else raises Classnt::Error.
   */
  function Wrap(obj: Value): (o: Outcome<Result>)
    ensures obj.Res? ==> o == Normal(obj.r)
    ensures obj.Arr? && HeadTag(obj.elems).Some? ==>
              o == Normal(Result(HeadTag(obj.elems).value, At(obj.elems, 1)))
    ensures o.Raised? <==> !Wrappable(obj)
    ensures o.Raised? ==> o.exc == Exc(ClassntError, InvalidShapeMessage(obj))
  {
    if obj.Res? then Normal(obj.r)
    else if obj.Arr? && HeadTag(obj.elems).Some? then
      Normal(Result(HeadTag(obj.elems).value, At(obj.elems, 1)))
    else Raised(Exc(ClassntError, InvalidShapeMessage(obj)))
  }

  lemma WrapTuple(t: Tag, v: Value)
    ensures Wrap(Arr([Sym(TagName(t)), v])) == Normal(Result(t, v))
  {
    TagNameRoundTrip(t);
  }

  /** Classnt::Rollback.new(result) */
  function RollbackSignal(r: Result): (e: Exc)
    ensures e.kind == Rollback(r) && e.IsStandardError()
  {
    Exc(Rollback(r), "Rollback triggered by failure result")
  }

  /** A raw array tagged `:error` or `:failure`. */
  predicate IsFailureTuple(v: Value) {
    v.Arr? && HeadTag(v.elems).Some? && HeadTag(v.elems).value != Tag.Ok
  }

  /**
   * The block handed to the transactional resource: run the caller's
   * block, then raise Rollback for a failure Result or a failure tuple.
   */
  function ScopeBody(blockOut: Outcome<Value>): (o: Outcome<Value>)
    ensures blockOut.Raised? ==> o == blockOut
    ensures blockOut.Normal? && blockOut.val.Res? && blockOut.val.r.IsFailure() ==>
              o == Raised(RollbackSignal(blockOut.val.r))
    ensures blockOut.Normal? && IsFailureTuple(blockOut.val) ==>
              o == Raised(RollbackSignal(Result(HeadTag(blockOut.val.elems).value, At(blockOut.val.elems, 1))))
    ensures blockOut.Normal? && !(blockOut.val.Res? && blockOut.val.r.IsFailure()) && !IsFailureTuple(blockOut.val) ==>
              o == blockOut
  {
    match blockOut
    case Raised(_) => blockOut
    case Normal(result) =>
      if result.Res? && result.r.IsFailure() then Raised(RollbackSignal(result.r))
      else if IsFailureTuple(result) then
        match Wrap(result)
        case Normal(r) => Raised(RollbackSignal(r))
        case Raised(e) => Raised(e)
      else blockOut
  }

  /** Whether the transactional scope ends by an exception, and so aborts. */
  predicate Aborts(blockOut: Outcome<Value>) {
    ScopeBody(blockOut).Raised?
  }

  /** `rescue Rollback => e; e.result`, around the whole of Classnt.transaction. */
  function RescueRollback(o: Outcome<Value>): (o': Outcome<Value>)
    ensures o.Raised? && o.exc.kind.Rollback? ==> o' == Normal(Res(o.exc.kind.result))
    ensures !(o.Raised? && o.exc.kind.Rollback?) ==> o' == o
  {
    if o.Raised? && o.exc.kind.Rollback? then Normal(Res(o.exc.kind.result)) else o
  }

  /**
   * What Classnt.transaction returns, given whether a transactional
   * resource is configured and how the caller's block ended.
   */
  function TransactionOutcome(configured: bool, blockOut: Outcome<Value>): (o: Outcome<Value>)
    ensures o.Raised? ==> o == blockOut
    ensures !configured && blockOut.Normal? ==> o == blockOut
    ensures configured && blockOut.Normal? && !Aborts(blockOut) ==> o == blockOut
    ensures configured && blockOut.Normal? && Aborts(blockOut) ==> o.Normal? && o.val.Res? && o.val.r.IsFailure()
  {
    RescueRollback(if configured then ScopeBody(blockOut) else blockOut)
  }

  /** Where a transactional scope stands. */
  datatype ScopeState = Idle | Committed | Aborted

  /**
   * A transactional resource (ActiveRecord::Base in the source): it runs a
   * block in a scope, commits when the block returns and aborts when the
   * block raises, passing the exception on to its caller.
   */
  class Resource {
    var state: ScopeState

    constructor ()
      ensures state == Idle
    {
      state := Idle;
    }

    method RunInScope(block: () -> Outcome<Value>) returns (o: Outcome<Value>)
      modifies this
      ensures o == block()
      ensures state == if o.Raised? then Aborted else Committed
    {
      o := block();
      if o.Raised? {
        state := Aborted;
      } else {
        state := Committed;
      }
    }
  }

  /**
   * Classnt.transaction. `res` is the configured resource, or null when
   * there is none; then the block runs directly.
   */
  method Transaction(res: Resource?, block: () -> Outcome<Value>) returns (o: Outcome<Value>)
    modifies res
    ensures o == TransactionOutcome(res != null, block())
    ensures res != null ==> res.state == if Aborts(block()) then Aborted else Committed
  {
    if res != null {
      o := res.RunInScope(() => ScopeBody(block()));
    } else {
      o := block();
    }
    if o.Raised? && o.exc.kind.Rollback? {
      o := Normal(Res(o.exc.kind.result));
    }
  }

  /** With no resource, the block's value comes back unchanged, raw tuples included. */
  lemma NoResourcePassesThrough(v: Value)
    ensures TransactionOutcome(false, Normal(v)) == Normal(v)
  {
  }

  /**
   * With a resource, a failure Result or a failure tuple aborts the scope,
   * and the caller gets the failure as a Result, with no exception.
   */
  lemma FailureRollsBack(v: Value)
    requires (v.Res? && v.r.IsFailure()) || IsFailureTuple(v)
    ensures Aborts(Normal(v))
    ensures TransactionOutcome(true, Normal(v)) == Normal(Res(if v.Res? then v.r else Result(HeadTag(v.elems).value, At(v.elems, 1))))
    ensures TransactionOutcome(true, Normal(v)).val.r.IsFailure()
  {
  }

  /** With a resource, any other value is returned unchanged and the scope commits. */
  lemma OtherValuesCommit(v: Value)
    requires !(v.Res? && v.r.IsFailure()) && !IsFailureTuple(v)
    ensures !Aborts(Normal(v))
    ensures TransactionOutcome(true, Normal(v)) == Normal(v)
  {
  }

  /**
   * A business failure never reaches the caller as an exception: when the
   * block returns, so does the adapter, and the Rollback signal never
   * escapes it on either path.
   */
  lemma RollbackNeverEscapes(configured: bool, blockOut: Outcome<Value>)
    ensures blockOut.Normal? ==> TransactionOutcome(configured, blockOut).Normal?
    ensures TransactionOutcome(configured, blockOut).Raised? ==>
              !TransactionOutcome(configured, blockOut).exc.kind.Rollback?
  {
  }

  /** Any other exception passes through the adapter unchanged, aborting the scope. */
  lemma FaultsPropagate(configured: bool, e: Exc)
    requires !e.kind.Rollback?
    ensures TransactionOutcome(configured, Raised(e)) == Raised(e)
    ensures Aborts(Raised(e))
  {
  }
}
