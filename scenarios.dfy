/**
 * The library's own test scenarios, stated over the model: a hand-written
 * chain with `pipe`, the coffee machine that fails on an unknown coffee,
 * a map step, safe and unsafe mode, and the transaction rollback with a
 * resource that records whether its scope committed.
 */
module Scenarios {
  import opened RubyValues
  import Classnt
  import Results
  import P = Pipeline
  import Dsl

  /** A block returning the tuple `[tag, Str(s)]`. */
  function Tuple(tag: Tag, s: string): Value {
    Arr([Sym(TagName(tag)), Str(s)])
  }

  /** `ok("espresso").pipe { [:ok, "#{v} ground"] }.pipe { [:ok, "#{v} brewed"] }` */
  lemma ChainedPipesSucceed()
    ensures Results.Pipe(Classnt.Ok(Str("espresso")), v => Normal(Tuple(Tag.Ok, ToS(v) + " ground")))
              .Then(r => Results.Pipe(r, v => Normal(Tuple(Tag.Ok, ToS(v) + " brewed"))))
            == Normal(Classnt.Ok(Str("espresso ground brewed")))
  {
    var ground := (v: Value) => Normal(Tuple(Tag.Ok, ToS(v) + " ground"));
    var brewed := (v: Value) => Normal(Tuple(Tag.Ok, ToS(v) + " brewed"));
    assert ToS(Str("espresso")) + " ground" == "espresso ground";
    assert ToS(Str("espresso ground")) + " brewed" == "espresso ground brewed";
    assert ground(Str("espresso")) == Normal(Tuple(Tag.Ok, "espresso ground"));
    assert brewed(Str("espresso ground")) == Normal(Tuple(Tag.Ok, "espresso ground brewed"));
    Classnt.WrapTuple(Tag.Ok, Str("espresso ground"));
    Classnt.WrapTuple(Tag.Ok, Str("espresso ground brewed"));
    assert Results.Pipe(Classnt.Ok(Str("espresso")), ground) == Normal(Classnt.Ok(Str("espresso ground")));
    assert Results.Pipe(Classnt.Ok(Str("espresso ground")), brewed) == Normal(Classnt.Ok(Str("espresso ground brewed")));
  }

  /** A chain whose first block answers `[:error, "grinder jammed"]` ends in that failure; the next block does not matter. */
  lemma ChainedPipesStopAtFailure(next: Callable)
    ensures Results.Pipe(Classnt.Ok(Str("espresso")), _ => Normal(Tuple(Tag.Error, "grinder jammed")))
              .Then(r => Results.Pipe(r, next))
            == Normal(Classnt.Error(Str("grinder jammed")))
  {
    Classnt.WrapTuple(Tag.Error, Str("grinder jammed"));
  }

  /**
   * CoffeeMachine.brew("mud"): `grind_beans` answers
   * `[:error, "Invalid coffee type"]`, so the five later steps never run
   * and the transaction hands the failure back as a Result.
   */
  lemma BrewingMudFails(recv: P.Receiver, configured: bool)
    requires "grind_beans" in recv
    requires recv["grind_beans"](Str("mud")) == Normal(Tuple(Tag.Error, "Invalid coffee type"))
    ensures var names := ["grind_beans", "brew_coffee", "pour_into_cup", "add_sugar", "add_cream", "serve"];
            var steps := seq(|names|, i requires 0 <= i < |names| => P.Bare(P.Named(names[i])));
            Classnt.TransactionOutcome(configured, P.Run(recv, Str("mud"), steps).Then(r => Normal(Res(r))))
              == Normal(Res(Classnt.Error(Str("Invalid coffee type"))))
  {
    var names := ["grind_beans", "brew_coffee", "pour_into_cup", "add_sugar", "add_cream", "serve"];
    var steps := seq(|names|, i requires 0 <= i < |names| => P.Bare(P.Named(names[i])));
    Classnt.WrapTuple(Tag.Error, Str("Invalid coffee type"));
    assert steps[..0] == [];
    P.FirstFailureWins(recv, Str("mud"), steps, 0, Classnt.Ok(Str("mud")), Classnt.Error(Str("Invalid coffee type")));
  }

  /** `pipeline :process_map { step :upcase_val, map: true }`: the plain string comes back as an ok. */
  lemma MapStepWrapsString(recv: P.Receiver, upcased: string, configured: bool)
    requires "upcase_val" in recv && recv["upcase_val"](Str("hello")) == Normal(Str(upcased))
    ensures var d := P.Definition(P.Declared([P.StepCall(P.Named("upcase_val"), true)]), false, false);
            P.EntryOutcome(recv, d, Str("hello"), configured) == Normal(Res(Classnt.Ok(Str(upcased))))
  {
  }

  /** A step that raises "Boom": `process_unsafe` raises it, `process_safe` answers `error("Boom")`. */
  lemma SafeAndUnsafeBoom(recv: P.Receiver, configured: bool)
    requires "crash_it" in recv && recv["crash_it"](Str("go")) == Raised(Exc(StandardError("RuntimeError"), "Boom"))
    ensures var steps := P.Declared([P.StepCall(P.Named("crash_it"), false)]);
            && P.EntryOutcome(recv, P.Definition(steps, false, false), Str("go"), configured)
                 == Raised(Exc(StandardError("RuntimeError"), "Boom"))
            && P.EntryOutcome(recv, P.Definition(steps, false, true), Str("go"), configured)
                 == Normal(Res(Classnt.Error(Str("Boom"))))
  {
  }

  /** `Classnt.transaction { [:ok, 1] }` with no resource returns the raw tuple. */
  lemma TransactionWithoutResource()
    ensures Classnt.TransactionOutcome(false, Normal(Arr([Sym("ok"), Int(1)]))) == Normal(Arr([Sym("ok"), Int(1)]))
  {
  }

  /** Doubling 3, then a map step `to_s`, gives `ok("6")`. */
  lemma DoubleThenToString()
    ensures var double := (v: Value) => Normal(Res(Classnt.Ok(if v.Int? then Int(2 * v.i) else Nil)));
            var toS := (v: Value) => Normal(Str(ToS(v)));
            P.Run(map[], Int(3), [P.Hash(P.Proc(double), false), P.Hash(P.Proc(toS), true)])
              == Normal(Classnt.Ok(Str("6")))
  {
    var double := (v: Value) => Normal(Res(Classnt.Ok(if v.Int? then Int(2 * v.i) else Nil)));
    var toS := (v: Value) => Normal(Str(ToS(v)));
    var steps := [P.Hash(P.Proc(double), false), P.Hash(P.Proc(toS), true)];
    assert P.StepOnce(map[], Classnt.Ok(Int(3)), steps[0]) == Normal(Classnt.Ok(Int(6)));
    assert ToS(Int(6)) == "6";
    assert P.StepOnce(map[], Classnt.Ok(Int(6)), steps[1]) == Normal(Classnt.Ok(Str("6")));
    assert steps[1..][1..] == [];
  }

  /**
   * `match` with both handlers set: the success handler runs for an ok,
   * the failure one for an error; with no failure handler the payload
   * comes back as it is.
   */
  method MatchHandlers() returns (onOk: Outcome<Value>, onError: Outcome<Value>, unset: Outcome<Value>)
    ensures onOk == Normal(Str("success: value"))
    ensures onError == Normal(Str("fail: oops"))
    ensures unset == Normal(Str("oops"))
  {
    var onSuccess: Callable := v => Normal(Str("success: " + ToS(v)));
    var onFailure: Callable := e => Normal(Str("fail: " + ToS(e)));
    assert ToS(Str("value")) == "value" && "success: " + "value" == "success: value";
    assert ToS(Str("oops")) == "oops" && "fail: " + "oops" == "fail: oops";
    assert onSuccess(Str("value")) == Normal(Str("success: value"));
    assert onFailure(Str("oops")) == Normal(Str("fail: oops"));
    onOk := Results.Match(Classnt.Ok(Str("value")), Some(onSuccess), Some(onFailure));
    onError := Results.Match(Classnt.Error(Str("oops")), Some(onSuccess), Some(onFailure));
    unset := Results.Match(Classnt.Error(Str("oops")), Some(onSuccess), None);
  }

  /**
   * Redefining a pipeline replaces it: the steps of the first definition
   * are not carried over, and a DSL definition replaces one made by
   * Pipeline's `pipeline` in the same way.
   */
  method Redefinition(sugar: Callable, cream: Callable) returns (second: P.Definition, third: P.Definition)
    ensures second == P.Definition([P.Hash(P.Named("add_cream"), true)], true, false)
    ensures third == P.Definition([P.Bare(P.Named("add_sugar"))], false, false)
  {
    var host := new P.Host(map["add_sugar" := sugar, "add_cream" := cream]);
    host.Pipeline("brew", [P.StepCall(P.Named("add_sugar"), false)], false, false);
    host.Pipeline("brew", [P.StepCall(P.Named("add_cream"), true)], true, false);
    second := host.entries["brew"];
    Dsl.Pipeline(host, "brew", [P.Named("add_sugar")], false);
    third := host.entries["brew"];
  }

  /**
   * A transactional pipeline whose step answers `[:error, "db fail"]`:
   * the caller gets the failure as a Result, and the resource's scope was
   * aborted, not committed.
   */
  method DbFailRollsBack() returns (result: Outcome<Value>, state: Classnt.ScopeState)
    ensures result == Normal(Res(Classnt.Error(Str("db fail"))))
    ensures state == Classnt.Aborted
  {
    var dbFail: Callable := _ => Normal(Tuple(Tag.Error, "db fail"));
    var host := new P.Host(map["save" := dbFail]);
    host.Pipeline("persist", [P.StepCall(P.Named("save"), false)], true, false);
    var res := new Classnt.Resource();
    Classnt.WrapTuple(Tag.Error, Str("db fail"));
    assert P.Run(host.receiver, Str("start"), host.entries["persist"].steps) == Normal(Classnt.Error(Str("db fail")));
    result := host.Call("persist", Str("start"), res);
    state := res.state;
  }
}
