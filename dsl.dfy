/**
 * `Classnt::DSL` (lib/classnt/dsl.rb): a second way to declare a
 * pipeline. Its Builder keeps the bare step names, its `pipeline` has no
 * safe mode, and the generated entry point is `pipe(input, *steps)`, run
 * through Classnt.transaction when `transaction: true`.
 */
module Dsl {
  import opened RubyValues
  import Classnt
  import P = Pipeline

  /** Classnt::DSL::Builder */
  class Builder {
    var steps: seq<P.StepTarget>

    constructor ()
      ensures steps == []
    {
      steps := [];
    }

    /** Builder#step: append the bare name at the end. */
    method Step(name: P.StepTarget)
      modifies this
      ensures steps == old(steps) + [name]
    {
      steps := steps + [name];
    }
  }

  /**
   * A fresh Builder runs the definition block, here the list of names its
   * `step` calls pass, and hands back its steps: the names, in
   * declaration order, and nothing from an earlier definition.
   */
  method BuildSteps(names: seq<P.StepTarget>) returns (steps: seq<P.StepTarget>)
    ensures steps == names
  {
    var builder := new Builder();
    var i := 0;
    while i < |names|
      invariant 0 <= i <= |names|
      invariant builder.steps == names[..i]
    {
      builder.Step(names[i]);
      assert names[..i + 1] == names[..i] + [names[i]];
      i := i + 1;
    }
    assert names[..|names|] == names;
    steps := builder.steps;
  }

  /** `*steps` hands each bare name to Pipeline#pipe as a step of its own. */
  function AsSteps(names: seq<P.StepTarget>): (steps: seq<P.Step>)
    ensures |steps| == |names|
    ensures forall i :: 0 <= i < |names| ==> steps[i] == P.Bare(names[i])
    decreases |names|
  {
    if names == [] then [] else [P.Bare(names[0])] + AsSteps(names[1..])
  }

  /** The definition DSL#pipeline gives an entry point: bare steps and no safe mode. */
  function Definition(names: seq<P.StepTarget>, transaction: bool): (d: P.Definition)
    ensures !d.safe && d.transaction == transaction && d.steps == AsSteps(names)
  {
    P.Definition(AsSteps(names), transaction, false)
  }

  /** DSL#pipeline: define (or redefine) the entry point `name` on the host. */
  method Pipeline(host: P.Host, name: string, names: seq<P.StepTarget>, transaction: bool)
    modifies host
    ensures host.entries == old(host.entries)[name := Definition(names, transaction)]
  {
    var steps := BuildSteps(names);
    host.entries := host.entries[name := P.Definition(AsSteps(steps), transaction, false)];
  }

  /**
   * A bare step behaves as the `{name:, map: false}` step the other Builder
   * would have built for it, so a DSL pipeline folds as the Pipeline
   * one with no map steps.
   */
  lemma {:induction false} BareStepsFoldAsPlainSteps(recv: P.Receiver, acc: Result, names: seq<P.StepTarget>)
    ensures P.Fold(recv, acc, AsSteps(names)) == P.Fold(recv, acc, P.Declared(Unmapped(names)))
    decreases |names|
  {
    if names != [] {
      var bare, plain := AsSteps(names), P.Declared(Unmapped(names));
      assert bare[1..] == AsSteps(names[1..]);
      assert plain[1..] == P.Declared(Unmapped(names[1..]));
      assert P.StepOnce(recv, acc, bare[0]) == P.StepOnce(recv, acc, plain[0]);
      match P.StepOnce(recv, acc, bare[0])
      case Raised(_) =>
      case Normal(r) => BareStepsFoldAsPlainSteps(recv, r, names[1..]);
    }
  }

  /** The `step name` calls the other Builder would need for the same pipeline. */
  function Unmapped(names: seq<P.StepTarget>): (calls: seq<P.StepCall>)
    ensures |calls| == |names|
    ensures forall i :: 0 <= i < |names| ==> calls[i] == P.StepCall(names[i], false)
    decreases |names|
  {
    if names == [] then [] else [P.StepCall(names[0], false)] + Unmapped(names[1..])
  }

  /**
   * The generated method: `pipe(input, *steps)`, through Classnt.transaction
   * when asked for. There is no rescue, so an exception from a step or
   * from `wrap` reaches the caller as it was raised.
   */
  lemma EntryIsPipe(recv: P.Receiver, names: seq<P.StepTarget>, transaction: bool, input: Value, configured: bool)
    ensures var run := P.Run(recv, input, AsSteps(names)).Then(r => Normal(Res(r)));
            P.EntryOutcome(recv, Definition(names, transaction), input, configured)
              == if transaction then Classnt.TransactionOutcome(configured, run) else run
  {
  }

  /**
   * `DSL.extended` also extends the host with Classnt::Pipeline, whose
   * `pipeline` then comes first in the host's lookup. Either way the
   * entry point behaves the same: the DSL's bare names give exactly what
   * Pipeline's `pipeline` gives for `step name` calls without `map:` and
   * without `safe:`.
   */
  lemma SameAsPipelineDefinition(recv: P.Receiver, names: seq<P.StepTarget>, transaction: bool, input: Value, configured: bool)
    ensures P.EntryOutcome(recv, Definition(names, transaction), input, configured)
              == P.EntryOutcome(recv, P.Definition(P.Declared(Unmapped(names)), transaction, false), input, configured)
  {
    BareStepsFoldAsPlainSteps(recv, Classnt.Ok(input), names);
  }

  /** With no safe capture, a fault raised by the fold propagates from a non-transactional entry point. */
  lemma FaultsPropagate(recv: P.Receiver, names: seq<P.StepTarget>, input: Value, configured: bool, e: Exc)
    requires P.Run(recv, input, AsSteps(names)) == Raised(e)
    ensures P.EntryOutcome(recv, Definition(names, false), input, configured) == Raised(e)
    ensures !e.kind.Rollback? ==> P.EntryOutcome(recv, Definition(names, true), input, configured) == Raised(e)
  {
  }
}
