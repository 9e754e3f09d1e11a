/**
 * `Classnt::Pipeline` (lib/classnt.rb): the step fold `pipe(input, *steps)`,
 * the `Builder` that collects `step` declarations, and `pipeline`, which
 * defines an entry point on the host that runs the fold, optionally
 * turns a raised StandardError into an error Result (safe mode), and
 * optionally runs inside Classnt.transaction.
 *
 * The host is modelled by its step methods, a map from method name to
 * callable, that `send` dispatches to; the entry points `pipeline`
 * defines are kept in a second table.
 */
module Pipeline {
  import opened RubyValues
  import Classnt
  import Results

  /** The host's methods that steps can name. */
  type Receiver = map<string, Callable>

  /** What a step designates: a method of the host by name (a Symbol), or a callable. */
  datatype StepTarget = Named(name: string) | Proc(f: Callable)

  /** A step as `pipe` receives it: bare, or a `{name:, map:}` hash built by `Builder#step`. */
  datatype Step = Bare(target: StepTarget) | Hash(name: StepTarget, mapOnly: bool)

  /** `step[:name]` for a hash, the step itself otherwise. */
  function Target(s: Step): StepTarget {
    match s
    case Bare(t) => t
    case Hash(t, _) => t
  }

  /** `step[:map]` for a hash, false otherwise. */
  function IsMap(s: Step): bool {
    match s
    case Bare(_) => false
    case Hash(_, m) => m
  }

  /** The NoMethodError that `send` raises for a name the host does not define. */
  function NoMethod(name: string): (e: Exc)
    ensures e.IsStandardError()
  {
    Exc(StandardError("NoMethodError"), "undefined method '" + name + "'")
  }

  /**
   * `send(name, value)` for a Symbol, `call(value)` for anything else. A
   * name the host does not define raises a NoMethodError, which is a
   * StandardError and so is captured in safe mode.
   */
  function Dispatch(recv: Receiver, t: StepTarget, v: Value): (o: Outcome<Value>)
    ensures t.Named? && t.name in recv ==> o == recv[t.name](v)
    ensures t.Named? && t.name !in recv ==> o.Raised? && o.exc.kind == StandardError("NoMethodError")
    ensures t.Proc? ==> o == t.f(v)
  {
    match t
    case Named(n) => if n in recv then recv[n](v) else Raised(NoMethod(n))
    case Proc(f) => f(v)
  }

  /** The block `pipe` gives to Result#then for one step: dispatch, and wrap as ok for a map step. */
  function Invoke(recv: Receiver, s: Step, v: Value): (o: Outcome<Value>)
    ensures !IsMap(s) ==> o == Dispatch(recv, Target(s), v)
    ensures IsMap(s) ==> (o.Normal? <==> Dispatch(recv, Target(s), v).Normal?)
    ensures IsMap(s) && o.Normal? ==> o.val == Res(Classnt.Ok(Dispatch(recv, Target(s), v).val))
    ensures o.Raised? ==> o == Dispatch(recv, Target(s), v)
  {
    match Dispatch(recv, Target(s), v)
    case Raised(e) => Raised(e)
    case Normal(output) => if IsMap(s) then Normal(Res(Classnt.Ok(output))) else Normal(output)
  }

  /** One turn of the reduce: `result.then { |value| ... }` for one step. */
  function StepOnce(recv: Receiver, acc: Result, s: Step): (o: Outcome<Result>)
    ensures acc.IsFailure() ==> o == Normal(acc)
    ensures acc.IsOk() ==> o == Invoke(recv, s, acc.value).Then(Classnt.Wrap)
  {
    Results.Pipe(acc, v => Invoke(recv, s, v))
  }

  /**
   * The reduce over the steps from an accumulated Result. An exception in
   * a step ends the reduce. A failure accumulator comes out untouched,
   * whatever the remaining steps are.
   */
  function Fold(recv: Receiver, acc: Result, steps: seq<Step>): (o: Outcome<Result>)
    ensures acc.IsFailure() ==> o == Normal(acc)
    decreases |steps|
  {
    if steps == [] then Normal(acc)
    else
      match StepOnce(recv, acc, steps[0])
      case Raised(e) => Raised(e)
      case Normal(r) => Fold(recv, r, steps[1..])
  }

  /**
   * Pipeline#pipe(input, *steps): the fold seeded with `ok(input)`. With
   * no steps it is `ok(input)`; with one step it is that step's turn.
   */
  function Run(recv: Receiver, input: Value, steps: seq<Step>): (o: Outcome<Result>)
    ensures steps == [] ==> o == Normal(Classnt.Ok(input))
    ensures |steps| == 1 ==> o == StepOnce(recv, Classnt.Ok(input), steps[0])
  {
    var acc := Classnt.Ok(input);
    if |steps| == 1 then
      FoldSingle(recv, acc, steps[0]);
      assert steps == [steps[0]];
      Fold(recv, acc, steps)
    else
      Fold(recv, acc, steps)
  }

  /** A single step folds as its one turn of the reduce. */
  lemma FoldSingle(recv: Receiver, acc: Result, s: Step)
    ensures Fold(recv, acc, [s]) == StepOnce(recv, acc, s)
  {
    assert [s][1..] == [];
  }

  /** Folding over two lists of steps is folding over the first, then over the second from its result. */
  lemma {:induction false} FoldAppend(recv: Receiver, acc: Result, xs: seq<Step>, ys: seq<Step>)
    ensures Fold(recv, acc, xs + ys) == Fold(recv, acc, xs).Then(r => Fold(recv, r, ys))
    decreases |xs|
  {
    if xs == [] {
      assert xs + ys == ys;
    } else {
      assert (xs + ys)[0] == xs[0];
      assert (xs + ys)[1..] == xs[1..] + ys;
      match StepOnce(recv, acc, xs[0])
      case Raised(e) =>
      case Normal(r) => FoldAppend(recv, r, xs[1..], ys);
    }
  }

  /** Steps run left to right: the last step receives the result of all those before it. */
  lemma StepsRunInOrder(recv: Receiver, input: Value, steps: seq<Step>, last: Step)
    ensures Run(recv, input, steps + [last]) == Run(recv, input, steps).Then(r => StepOnce(recv, r, last))
  {
    FoldAppend(recv, Classnt.Ok(input), steps, [last]);
    forall r: Result ensures Fold(recv, r, [last]) == StepOnce(recv, r, last) {
      FoldSingle(recv, r, last);
    }
  }

  /**
   * Short circuit: once the steps so far have produced a failure, or
   * raised, no later step changes the outcome, whatever it would do.
   */
  lemma ShortCircuit(recv: Receiver, input: Value, done: seq<Step>, later: seq<Step>)
    requires Run(recv, input, done).Raised? || Run(recv, input, done).val.IsFailure()
    ensures Run(recv, input, done + later) == Run(recv, input, done)
  {
    FoldAppend(recv, Classnt.Ok(input), done, later);
  }

  /**
   * First failure wins: when the steps before step k succeed and step k
   * produces a failure, the pipeline's result is that failure, value for
   * value, whatever the steps after k are.
   */
  lemma FirstFailureWins(recv: Receiver, input: Value, steps: seq<Step>, k: nat, before: Result, failure: Result)
    requires k < |steps|
    requires Run(recv, input, steps[..k]) == Normal(before)
    requires StepOnce(recv, before, steps[k]) == Normal(failure) && failure.IsFailure()
    ensures Run(recv, input, steps) == Normal(failure)
  {
    assert steps == steps[..k] + steps[k..];
    FoldAppend(recv, Classnt.Ok(input), steps[..k], steps[k..]);
    assert Fold(recv, before, steps[k..]) == Fold(recv, failure, steps[k + 1..]);
  }

  /** A step that raises ends the pipeline with that exception; the later steps do not run. */
  lemma FirstFaultWins(recv: Receiver, input: Value, steps: seq<Step>, k: nat, before: Result, e: Exc)
    requires k < |steps|
    requires Run(recv, input, steps[..k]) == Normal(before)
    requires StepOnce(recv, before, steps[k]) == Raised(e)
    ensures Run(recv, input, steps) == Raised(e)
  {
    assert steps == steps[..k] + steps[k..];
    FoldAppend(recv, Classnt.Ok(input), steps[..k], steps[k..]);
  }

  /**
   * A map step's output is wrapped as ok and never read as a tuple or a
   * Result, even when it looks like a failure.
   */
  lemma MapStepIsOk(recv: Receiver, acc: Result, t: StepTarget, output: Value)
    requires acc.IsOk() && Dispatch(recv, t, acc.value) == Normal(output)
    ensures StepOnce(recv, acc, Hash(t, true)) == Normal(Classnt.Ok(output))
  {
  }

  /** A plain step's output goes through Classnt.wrap, so an unknown shape raises Classnt::Error. */
  lemma PlainStepIsWrapped(recv: Receiver, acc: Result, s: Step)
    requires acc.IsOk() && !IsMap(s)
    ensures StepOnce(recv, acc, s) == Dispatch(recv, Target(s), acc.value).Then(Classnt.Wrap)
  {
  }

  /** The definition of one generated entry point, fixed when `pipeline` runs. */
  datatype Definition = Definition(steps: seq<Step>, transaction: bool, safe: bool)

  /**
   * The `run_pipeline` lambda: the fold, and in safe mode a rescue that
   * turns any StandardError into `error(e.message)`; without safe mode the
   * exception is raised again.
   */
  function Thunk(recv: Receiver, steps: seq<Step>, input: Value, safe: bool): (o: Outcome<Value>)
    ensures o.Normal? ==> o.val.Res?
    ensures safe && o.Raised? ==> !o.exc.IsStandardError()
    ensures Run(recv, input, steps).Normal? ==> o == Normal(Res(Run(recv, input, steps).val))
  {
    match Run(recv, input, steps)
    case Normal(r) => Normal(Res(r))
    case Raised(e) => if safe && e.IsStandardError() then Normal(Res(Classnt.Error(Str(e.message)))) else Raised(e)
  }

  /**
   * What a call of a generated entry point returns: the thunk, run through
   * Classnt.transaction when the definition asks for it. `configured`
   * tells whether a transactional resource is available.
   */
  function EntryOutcome(recv: Receiver, d: Definition, input: Value, configured: bool): (o: Outcome<Value>)
    ensures d.transaction && o.Raised? ==> !o.exc.kind.Rollback?
    ensures d.safe && o.Raised? ==> !o.exc.IsStandardError()
    ensures o.Raised? ==> o == Thunk(recv, d.steps, input, d.safe)
  {
    var run := Thunk(recv, d.steps, input, d.safe);
    if d.transaction then Classnt.TransactionOutcome(configured, run) else run
  }

  /** Safe mode: a StandardError raised in the fold becomes `error(message)`. */
  lemma SafeCapturesFaults(recv: Receiver, steps: seq<Step>, input: Value, e: Exc)
    requires Run(recv, input, steps) == Raised(e) && e.IsStandardError()
    ensures Thunk(recv, steps, input, true) == Normal(Res(Classnt.Error(Str(e.message))))
  {
  }

  /** Without safe mode the same exception reaches the caller, and no Result does. */
  lemma UnsafePropagatesFaults(recv: Receiver, steps: seq<Step>, input: Value)
    ensures Thunk(recv, steps, input, false) == Run(recv, input, steps).Then(r => Normal(Res(r)))
  {
  }

  /**
   * The invalid-shape Classnt::Error of `wrap` is a StandardError too:
   * when step k of a plain kind returns an unknown shape, safe mode
   * answers `error` with wrap's message, and unsafe mode raises it.
   */
  lemma InvalidShapeInSafeMode(recv: Receiver, input: Value, steps: seq<Step>, k: nat, before: Result, obj: Value)
    requires k < |steps| && !IsMap(steps[k])
    requires Run(recv, input, steps[..k]) == Normal(before) && before.IsOk()
    requires Dispatch(recv, Target(steps[k]), before.value) == Normal(obj) && !Classnt.Wrappable(obj)
    ensures Thunk(recv, steps, input, true) == Normal(Res(Classnt.Error(Str(Classnt.InvalidShapeMessage(obj)))))
    ensures Thunk(recv, steps, input, false) == Raised(Exc(ClassntError, Classnt.InvalidShapeMessage(obj)))
  {
    FirstFaultWins(recv, input, steps, k, before, Exc(ClassntError, Classnt.InvalidShapeMessage(obj)));
  }

  /** A generated entry point that returns normally always returns a Result. */
  lemma EntryReturnsResult(recv: Receiver, d: Definition, input: Value, configured: bool)
    ensures EntryOutcome(recv, d, input, configured).Normal? ==> EntryOutcome(recv, d, input, configured).val.Res?
  {
  }

  /** Without `transaction:` the entry point is the thunk, a resource or not. */
  lemma PlainEntryIgnoresResource(recv: Receiver, d: Definition, input: Value)
    requires !d.transaction
    ensures EntryOutcome(recv, d, input, true) == EntryOutcome(recv, d, input, false) == Thunk(recv, d.steps, input, d.safe)
  {
  }

  /**
   * A transactional entry point whose fold ends in a failure aborts the
   * scope and returns the failure to the caller as a Result.
   */
  lemma TransactionalFailureRollsBack(recv: Receiver, d: Definition, input: Value, failure: Result)
    requires d.transaction && Run(recv, input, d.steps) == Normal(failure) && failure.IsFailure()
    ensures Classnt.Aborts(Thunk(recv, d.steps, input, d.safe))
    ensures EntryOutcome(recv, d, input, true) == Normal(Res(failure))
  {
  }

  /** A transactional entry point whose fold ends in an ok commits and returns it. */
  lemma TransactionalSuccessCommits(recv: Receiver, d: Definition, input: Value, success: Result)
    requires d.transaction && Run(recv, input, d.steps) == Normal(success) && success.IsOk()
    ensures !Classnt.Aborts(Thunk(recv, d.steps, input, d.safe))
    ensures EntryOutcome(recv, d, input, true) == Normal(Res(success))
  {
  }

  /**
   * Safe mode and transaction together: a captured fault becomes an error
   * Result, which then rolls the scope back like any business failure.
   */
  lemma SafeFaultRollsBack(recv: Receiver, d: Definition, input: Value, e: Exc)
    requires d.transaction && d.safe
    requires Run(recv, input, d.steps) == Raised(e) && e.IsStandardError()
    ensures Classnt.Aborts(Thunk(recv, d.steps, input, d.safe))
    ensures EntryOutcome(recv, d, input, true) == Normal(Res(Classnt.Error(Str(e.message))))
  {
  }

  /** One `step name, map: m` line of a definition block. */
  datatype StepCall = StepCall(name: StepTarget, mapOnly: bool)

  /** The step list that a definition block's `step` calls leave in the Builder, in order. */
  function Declared(calls: seq<StepCall>): (steps: seq<Step>)
    ensures |steps| == |calls|
    ensures forall i :: 0 <= i < |calls| ==> steps[i] == Hash(calls[i].name, calls[i].mapOnly)
    decreases |calls|
  {
    if calls == [] then []
    else
      var n := |calls| - 1;
      Declared(calls[..n]) + [Hash(calls[n].name, calls[n].mapOnly)]
  }

  /** Classnt::Pipeline::Builder */
  class Builder {
    var steps: seq<Step>

    constructor ()
      ensures steps == []
    {
      steps := [];
    }

    /** Builder#step: append `{name:, map:}` at the end. */
    method Step(name: StepTarget, mapOnly: bool)
      modifies this
      ensures steps == old(steps) + [Hash(name, mapOnly)]
    {
      steps := steps + [Hash(name, mapOnly)];
    }
  }

  /**
   * The first half of `pipeline`: a fresh Builder runs the definition
   * block, here the list of its `step` calls, and hands back its steps.
   * Nothing from an earlier definition is carried over.
   */
  method BuildSteps(calls: seq<StepCall>) returns (steps: seq<Step>)
    ensures steps == Declared(calls)
  {
    var builder := new Builder();
    var i := 0;
    while i < |calls|
      invariant 0 <= i <= |calls|
      invariant builder.steps == Declared(calls[..i])
    {
      builder.Step(calls[i].name, calls[i].mapOnly);
      assert calls[..i + 1][..i] == calls[..i];
      i := i + 1;
    }
    assert calls[..|calls|] == calls;
    steps := builder.steps;
  }

  /**
   * A class or module that extends Classnt::Pipeline: its own step
   * methods, and the entry points `pipeline` has defined on it.
   */
  class Host {
    const receiver: Receiver
    var entries: map<string, Definition>

    constructor (receiver: Receiver)
      ensures this.receiver == receiver && entries == map[]
    {
      this.receiver := receiver;
      entries := map[];
    }

    /**
     * Pipeline#pipeline: build the steps, and define (or redefine) the
     * entry point `name` with them and the two flags.
     */
    method Pipeline(name: string, calls: seq<StepCall>, transaction: bool, safe: bool)
      modifies this
      ensures entries == old(entries)[name := Definition(Declared(calls), transaction, safe)]
    {
      var steps := BuildSteps(calls);
      entries := entries[name := Definition(steps, transaction, safe)];
    }

    /**
     * Calling a generated entry point with `input`. `res` is the
     * transactional resource, or null when none is configured.
     */
    method Call(name: string, input: Value, res: Classnt.Resource?) returns (o: Outcome<Value>)
      modifies res
      ensures name !in entries ==> o == Raised(NoMethod(name))
      ensures name in entries ==> o == EntryOutcome(receiver, entries[name], input, res != null)
      ensures res != null && name in entries && entries[name].transaction ==>
                res.state == if Classnt.Aborts(Thunk(receiver, entries[name].steps, input, entries[name].safe))
                             then Classnt.Aborted else Classnt.Committed
      ensures res != null && !(name in entries && entries[name].transaction) ==> res.state == old(res.state)
    {
      if name !in entries {
        return Raised(NoMethod(name));
      }
      var d := entries[name];
      var recv := receiver;
      var runPipeline := () => Thunk(recv, d.steps, input, d.safe);
      if d.transaction {
        o := Classnt.Transaction(res, runPipeline);
      } else {
        o := runPipeline();
      }
    }
  }
}
