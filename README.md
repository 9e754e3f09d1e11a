# classnt in Dafny

This project is a model of the Ruby library classnt, with proofs about it. The library has three parts:

- `Classnt::Result` is a tagged success/failure value. Its tag is `:ok`, `:error` or `:failure`, and a payload goes with it.
- A step pipeline folds a list of steps over `ok(input)` and stops at the first failure.
- A transaction adapter tells a transactional resource to roll back when a step returns a failure value, not only when a step raises.

The model turns Ruby's dynamic parts into data:

- A Ruby value is the datatype `RubyValues.Value`.
- A raised exception is a `RubyValues.Exc`.
- Each call returns an `Outcome`, which is either `Normal(value)` or `Raised(exc)`.
- A host object that provides steps is a map from method name to callable.

Modules follow the source files:

- `RubyValues` (`ruby_values.dfy`) holds the value universe: `Value`, `Result` with `ok?`/`failure?`, `Exc`, `Outcome`, and Ruby's `inspect`/`to_s` for the values the library prints.
- `Classnt` (`classnt.dfy`) covers `lib/classnt.rb`'s module functions:
  - `ok`, `error`, `pipe(value)` and `wrap`;
  - the `Rollback` signal;
  - `transaction`, as a pure function `TransactionOutcome` and a method `Transaction` that drives a `Resource` object. The resource's scope ends `Committed` or `Aborted`.
- `Results` (`result.dfy`) covers `lib/classnt/result.rb`: the Result operations, plus the imperative `Matcher` class whose handler fields `success`/`failure` overwrite before `match` reads them.
- `Pipeline` (`pipeline.dfy`) covers `Classnt::Pipeline`:
  - the fold `pipe(input, *steps)`;
  - the safe-mode thunk and the entry-point outcome;
  - the `Builder` class, which appends steps;
  - a `Host` class whose `Pipeline` method defines, or redefines, an entry point and whose `Call` method runs one.
- `Dsl` (`dsl.dfy`) covers `lib/classnt/dsl.rb`: its own `Builder` with bare step names, and `pipeline` without safe mode. `DSL.extended` (lib/classnt/dsl.rb:11) extends the host with `Classnt::Pipeline` after `Classnt::DSL` is already in its lookup, so on a DSL host `pipeline` most likely resolves to `Pipeline#pipeline`, with `{name:, map: false}` steps and a `safe:` option. `Dsl.SameAsPipelineDefinition` shows that the two definitions give the same entry point, so the model's conclusions hold whichever method is found.
- `Scenarios` (`scenarios.dfy`) states the library's test scenarios over the model. Three of them are client methods with assertions:
  - `MatchHandlers` checks `match` in both directions;
  - `Redefinition` checks that the last definition wins;
  - `DbFailRollsBack` calls a transactional entry point through `Host.Call` with a resource, and its contract states that the result is the failure and the resource is `Aborted`.

Points where the code's behaviour is easy to misread, and how the model follows it:

- A tuple tagged `:failure` becomes a Result whose tag stays `:failure`, not `:error`. `failure?` holds for both.
- Safe mode rescues `StandardError`, and `Classnt::Rollback` is a `StandardError`. A `Rollback` a step raises is therefore captured too. An exception outside `StandardError` is never captured.
- The `rescue Rollback` of `Classnt.transaction` surrounds the whole method, so it also applies when no resource is configured.
- The generated entry point takes only the input. There is no optional match callback.
- Ruby's `array[1]` on a one-element array is `nil`, so `wrap([:ok])` is `Result(:ok, nil)`. Longer arrays are accepted and their extra elements are ignored.

## Model

| member | source | states |
|---|---|---|
| RubyValues.Result.IsOk | lib/classnt/result.rb:13-15 | `ok?` holds exactly when the type symbol is `:ok` |
| RubyValues.Result.IsFailure | lib/classnt/result.rb:23-25 | `failure?` holds exactly when the type symbol is `:error` or `:failure` |
| RubyValues.KindsExclusive | lib/classnt/result.rb:13-25 | for each of the three tags, exactly one of `ok?` and `failure?` holds |
| Classnt.Ok | lib/classnt.rb:97-99 | `ok(v)` is an ok, not a failure, with payload `v` |
| Classnt.Error | lib/classnt.rb:101-103 | `error(v)` is a failure tagged `:error` with payload `v` |
| Classnt.Start | lib/classnt.rb:106-108 | `Classnt.pipe(v)` equals `ok(v)` |
| Classnt.Wrap | lib/classnt.rb:112-123 | a Result passes through unchanged; an array headed by `:ok`/`:error`/`:failure` becomes a Result with that tag and its second element (nil if missing); it raises Classnt::Error with the invalid-shape message exactly when the value is neither |
| Classnt.WrapTuple | lib/classnt.rb:115 | `wrap([t, v])` is a Result with exactly tag `t` and payload `v`, for each legal tag |
| Classnt.RollbackSignal | lib/classnt.rb:11-18 | a Rollback carries the failure Result that triggered it and is a StandardError |
| Classnt.ScopeBody | lib/classnt.rb:128-142 | inside the scope: an exception passes on; a failure Result, or a tuple tagged `:error`/`:failure` (wrapped), raises Rollback carrying it; any other value is returned |
| Classnt.RescueRollback | lib/classnt.rb:148-149 | a Rollback becomes its carried Result as a normal return; anything else is unchanged |
| Classnt.TransactionOutcome | lib/classnt.rb:126-150 | every exception the adapter raises is the block's own; with no resource a normal value comes back unchanged; with a resource, a committing value comes back unchanged and an aborting one comes back as a failure Result |
| Classnt.Resource.constructor | test/transactions_test.rb:6-14 | a new resource has no scope yet |
| Classnt.Resource.RunInScope | test/transactions_test.rb:6-14 | the scope returns what the block returns, the exception included, and ends Aborted when the block raised and Committed otherwise |
| Classnt.Transaction | lib/classnt.rb:126-150 | the adapter returns `TransactionOutcome(resource configured, block())`; with a resource, the scope ends Aborted exactly when the scope body raises |
| Classnt.NoResourcePassesThrough | lib/classnt.rb:143-147 | with no resource, the block's value comes back unchanged, raw tuples included |
| Classnt.FailureRollsBack | lib/classnt.rb:126-150 | with a resource, a failure Result or failure tuple aborts the scope, and the caller gets a failure Result with the same payload and no exception |
| Classnt.OtherValuesCommit | lib/classnt.rb:128-142 | with a resource, any other value commits and is returned unchanged |
| Classnt.RollbackNeverEscapes | lib/classnt.rb:126-150 | when the block returns, so does the adapter; the Rollback signal never reaches the caller on either path |
| Classnt.FaultsPropagate | lib/classnt.rb:126-150 | any other exception passes through the adapter unchanged and aborts the scope |
| Results.ValueBang | lib/classnt/result.rb:17-21 | `value!` returns the payload exactly when ok, and otherwise raises an UnwrapError carrying the payload, with the message `raise` gives it |
| Results.RaisedMessage | lib/classnt/result.rb:20 | the message of `raise cls, payload` with Exception's own constructor: the class name for nil, the string itself for a string |
| Results.Pipe | lib/classnt/result.rb:31-37 | `pipe`/`then` on a failure returns it as is; on an ok it returns `wrap(callable(value))`, and a raise in the callable propagates |
| Results.Map | lib/classnt/result.rb:42-46 | `map` on a failure returns it as is; on an ok it returns `ok(f(value))`, whatever the value's shape |
| Results.OnSuccess | lib/classnt/result.rb:48-51 | the observer's outcome matters only for an ok; the receiver always comes back unchanged unless the observer raises |
| Results.OnFailure | lib/classnt/result.rb:55-58 | the observer's outcome matters only for a failure; the receiver always comes back unchanged unless the observer raises |
| Results.Unwrap | lib/classnt/result.rb:71-73 | `unwrap` is a two-element array that `wrap` turns back into the same Result |
| Results.Deconstruct | lib/classnt/result.rb:75-77 | `deconstruct` is the same pair as `unwrap` |
| Results.DeconstructKeys | lib/classnt/result.rb:79-81 | `deconstruct_keys` is the hash of exactly `type` and `value` for any requested keys |
| Results.TupleRoundTrip | lib/classnt/result.rb:71-73 | `wrap([t, v]).unwrap == [t, v]` for every legal tag |
| Results.FailureShortCircuits | lib/classnt/result.rb:31-46 | on a failure, `pipe` and `map` return it whatever the callable would do, even raise |
| Results.MapIsPipeOfOk | lib/classnt/result.rb:31-46 | `map f` equals `pipe` with a callable returning `ok(f(v))` |
| Results.PipeRightIdentity | lib/classnt/result.rb:31-37 | piping with a callable that returns `ok(v)` leaves any Result unchanged |
| Results.PipeLeftIdentity | lib/classnt/result.rb:31-37 | piping from `ok(v)` is calling the callable on `v` and wrapping the result |
| Results.Matcher.constructor | lib/classnt/result.rb:86-89 | a new Matcher has identity handlers for both kinds |
| Results.Matcher.Success | lib/classnt/result.rb:91-93 | `success` replaces the success handler only |
| Results.Matcher.Failure | lib/classnt/result.rb:95-97 | `failure` replaces the failure handler only |
| Results.Matcher.CallSuccess | lib/classnt/result.rb:99-101 | `call_success` returns the success handler's outcome |
| Results.Matcher.CallFailure | lib/classnt/result.rb:103-105 | `call_failure` returns the failure handler's outcome |
| Results.Match | lib/classnt/result.rb:60-69 | `match` returns the success handler's outcome for an ok and the failure handler's otherwise; a handler not set is the identity |
| Pipeline.Dispatch | lib/classnt.rb:34-39 | a Symbol step calls the host method of that name, and a missing one raises a NoMethodError; any other step is called directly |
| Pipeline.Invoke | lib/classnt.rb:31-41 | a plain step's block returns the dispatch outcome as it is; a map step's block returns `ok(output)` when the dispatch returns and raises what it raises |
| Pipeline.StepOnce | lib/classnt.rb:30-42 | one turn of the reduce leaves a failure untouched and, on an ok, passes the step's block outcome through `wrap` |
| Pipeline.Run | lib/classnt.rb:28-44 | `pipe(input)` with no steps is `ok(input)`, and with one step it is that step's turn applied to `ok(input)` |
| Pipeline.FoldSingle | lib/classnt.rb:29-43 | folding over a single step is that step's turn of the reduce |
| Pipeline.Fold | lib/classnt.rb:29-43 | a failure accumulator comes out of the fold untouched, whatever the remaining steps are |
| Pipeline.FoldAppend | lib/classnt.rb:29-43 | folding over `xs + ys` is folding over `xs`, then over `ys` from its result; an exception stops the fold |
| Pipeline.StepsRunInOrder | lib/classnt.rb:29-43 | steps run left to right: the last step's input is the result of all the steps before it |
| Pipeline.ShortCircuit | lib/classnt.rb:29-43 | once the steps so far end in a failure or an exception, appending any steps leaves the outcome unchanged |
| Pipeline.FirstFailureWins | lib/classnt.rb:29-43 | if the steps before step k succeed and step k fails, the pipeline's result is exactly that failure |
| Pipeline.FirstFaultWins | lib/classnt.rb:29-43 | if the steps before step k succeed and step k raises, the pipeline raises that exception |
| Pipeline.MapStepIsOk | lib/classnt.rb:31-41 | a `map: true` step's output becomes `ok(output)` and is never read as a tuple or Result |
| Pipeline.PlainStepIsWrapped | lib/classnt.rb:31-41 | a plain step's output goes through `wrap` |
| Pipeline.Thunk | lib/classnt.rb:58-69 | the run_pipeline lambda returns only Results; a fold that returns normally comes back as its Result in both modes; in safe mode, no StandardError escapes it |
| Pipeline.EntryOutcome | lib/classnt.rb:57-76 | a generated entry point raises only what its run_pipeline lambda raises; a transactional one never lets a Rollback escape; a safe one never raises a StandardError |
| Pipeline.SafeCapturesFaults | lib/classnt.rb:62-68 | with `safe: true`, a StandardError raised during the fold becomes `error(e.message)` |
| Pipeline.UnsafePropagatesFaults | lib/classnt.rb:62-68 | with `safe: false`, the fold's exception reaches the caller unchanged |
| Pipeline.InvalidShapeInSafeMode | lib/classnt.rb:62-68 | wrap's invalid-shape Classnt::Error becomes `error(message)` in safe mode and is raised otherwise |
| Pipeline.EntryReturnsResult | lib/classnt.rb:57-76 | an entry point that returns normally always returns a Result |
| Pipeline.PlainEntryIgnoresResource | lib/classnt.rb:71-75 | without `transaction:`, the thunk is called directly, whether or not a resource is configured |
| Pipeline.TransactionalFailureRollsBack | lib/classnt.rb:71-72 | a transactional entry point whose fold fails aborts the scope and returns the failure as a Result |
| Pipeline.TransactionalSuccessCommits | lib/classnt.rb:71-72 | a transactional entry point whose fold succeeds commits and returns the success |
| Pipeline.SafeFaultRollsBack | lib/classnt.rb:58-75 | with safe mode and a transaction, a captured fault becomes an error Result that aborts the scope |
| Pipeline.Declared | lib/classnt.rb:89-91 | the builder's step list has one `{name:, map:}` per `step` call, in declaration order |
| Pipeline.Builder.constructor | lib/classnt.rb:85-87 | a new Builder has no steps |
| Pipeline.Builder.Step | lib/classnt.rb:89-91 | `step` appends `{name:, map:}` at the end and changes nothing else |
| Pipeline.BuildSteps | lib/classnt.rb:52-55 | a fresh Builder that runs the definition block yields exactly the declared steps, with nothing carried over from earlier definitions |
| Pipeline.Host.constructor | lib/classnt.rb:34-35 | a host starts with the step methods `send` reaches and no generated entry points |
| Pipeline.Host.Pipeline | lib/classnt.rb:52-80 | `pipeline` defines or replaces the entry point `name` with the declared steps and flags; other entry points are unchanged |
| Pipeline.Host.Call | lib/classnt.rb:57-76 | calling an entry point returns `EntryOutcome`; a transactional one leaves the resource Aborted exactly when the scope body raises; without a transaction the resource is untouched |
| Dsl.Builder.constructor | lib/classnt/dsl.rb:54-56 | a new DSL Builder has no steps |
| Dsl.Builder.Step | lib/classnt/dsl.rb:58-60 | `step` appends the bare name at the end |
| Dsl.BuildSteps | lib/classnt/dsl.rb:28-30 | a fresh Builder yields exactly the declared names, in order, with nothing from earlier definitions |
| Dsl.AsSteps | lib/classnt/dsl.rb:37 | `*steps` passes each declared name, in order, as a bare step |
| Dsl.Definition | lib/classnt/dsl.rb:27-45 | a DSL entry point has the bare steps, the given transaction flag and no safe mode |
| Dsl.Pipeline | lib/classnt/dsl.rb:27-49 | DSL `pipeline` defines or replaces the entry point `name`; other entry points are unchanged |
| Dsl.BareStepsFoldAsPlainSteps | lib/classnt/dsl.rb:37 | a pipeline of bare steps folds exactly like the same steps declared with `map: false` |
| Dsl.SameAsPipelineDefinition | lib/classnt/dsl.rb:6-11 | a DSL entry point behaves exactly as the one Pipeline's `pipeline` defines for the same names without `map:` or `safe:`, for every input, with or without a resource |
| Dsl.EntryIsPipe | lib/classnt/dsl.rb:32-45 | the generated method equals `pipe(input, *steps)`, run through `Classnt.transaction` exactly when `transaction: true` |
| Dsl.FaultsPropagate | lib/classnt/dsl.rb:33-38 | with no safe capture, an exception from a step or from `wrap` reaches the caller |
| Scenarios.ChainedPipesSucceed | test/test_classnt.rb:10-17 | two ok tuples chained by `pipe` give `ok("espresso ground brewed")` |
| Scenarios.ChainedPipesStopAtFailure | test/test_classnt.rb:19-25 | an error tuple stops the chain with `error("grinder jammed")`, whatever the next block is |
| Scenarios.BrewingMudFails | test/coffee_machine.rb:8-28 | brewing "mud" in a transaction returns `error("Invalid coffee type")`, whatever the later steps do |
| Scenarios.MapStepWrapsString | test/improvements_test.rb:9-11 | a map step's plain string comes back as an ok |
| Scenarios.SafeAndUnsafeBoom | test/improvements_test.rb:49-59 | a step raising "Boom" makes the unsafe pipeline raise it and the safe one return `error("Boom")` |
| Scenarios.TransactionWithoutResource | test/improvements_test.rb:65-71 | `Classnt.transaction { [:ok, 1] }` without a resource returns the raw tuple |
| Scenarios.MatchHandlers | test/test_classnt.rb:28-44 | `match` gives "success: value" for `ok("value")` and "fail: oops" for `error("oops")`; with no failure handler, the payload comes back |
| Scenarios.Redefinition | lib/classnt.rb:52-57 | each definition builds its steps afresh, so redefining an entry point replaces its steps and flags |
| Scenarios.DbFailRollsBack | test/transactions_test.rb:17-29 | a transactional pipeline whose step answers `[:error, "db fail"]` returns `error("db fail")` and leaves the resource `Aborted` |
| Scenarios.DoubleThenToString | lib/classnt.rb:29-43 | the steps `double` and then `to_s` as a map step, applied to 3, give `ok("6")` |

## Left out

- Ruby metaprogramming is modelled as plain data. This covers `self.extended`, `extend`/`include`, `define_method`, `instance_eval` and `module_function`:
  - The host is a map from method name to callable, plus a table of generated entry points.
  - A definition block is the list of its `step` calls, replayed in order on a fresh Builder.
- A step that names another generated entry point is not modelled. The model keeps steps and entry points in separate tables, so a pipeline cannot call itself.
- `send` and `call` are both modelled as function application. For a name the host lacks, the model raises a NoMethodError, and its message text only approximates Ruby's.
- Some inputs that only fail inside Ruby itself are not modelled:
  - a step that is neither a Symbol nor a callable;
  - a step hash without `:name`;
  - `Result#pipe` called with neither a callable nor a block.
- `Result.new` called directly with a type symbol other than `:ok`, `:error` or `:failure` is not modelled. The library itself never does this.
- `defined?(ActiveRecord::Base)` becomes a nullable `Resource` argument. The resource follows the test mock: it runs the block, re-raises exceptions, and records whether it committed or aborted. Real ActiveRecord behaviour is not modelled: nested transactions, `ActiveRecord::Rollback`, and undoing effects.
- The `warn` diagnostic of `Classnt.transaction` is not modelled.
- `classnt/version` and `VERSION` are not part of this model.
- `Classnt::UnwrapError` is not defined in the library files modelled here. `value!` is modelled as raising an exception of kind `UnwrapError` that carries the payload.
- Results.ValueBang: the exception's message assumes that `Classnt::UnwrapError` keeps Exception's own constructor, which the modelled files cannot confirm. Under that assumption the message is `to_s` of the payload, or the class name for a nil payload. `to_s` of a Result, an array or a plain object is approximated.
- Classnt.Wrap: the message embeds `inspect`, which is modelled without string escapes and without object addresses. The value universe has no Hash, Float, Range, Proc or other built-in classes: such a value is an `Obj` known by its class name and inspects as `#<ClassName>`. For a step that returns `{a: 1}` or `1.5`, the model's message therefore differs from Ruby's (`{:a=>1}`, `1.5`), and so does the `error(e.message)` payload that safe mode returns for it.
- Results.Match: the block given to `match` is modelled by the handlers it registers, at most one per kind. Handlers and observers are pure callables. A side effect such as assigning to an outer variable is not modelled; only what the handler returns or raises is.
- Results.OnSuccess: as for Results.Match, the observer's side effects are not modelled, only whether it returns or raises.
- Results.OnFailure: as for Results.OnSuccess.
- The aliases `then`, `then_pipe` and `tap_ok` are the same members as `pipe` and `on_success`.
- The coffee machine's `String#sub` logic is not modelled. `Scenarios.BrewingMudFails` leaves the step implementations abstract.
- `test/improvements_test.rb:41-47` expects `map` to be missing. The code defines it, and the model follows the code.
- Concurrency, I/O and floating point do not occur in the core.
