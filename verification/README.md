# RDev pipeline, console command registry, application config and SQL server settings

A Dafny model of four small pieces of the RDev (later Opulence) PHP framework:

- **Pipelines** (`pipelines.dfy`): the stage pipeline. A pipeline is built from an IoC
  container, an ordered list of stages and an optional method name. `send(input, callback?)`
  threads the input through the stages. Each stage is a closure `(input, next)`, a live object
  whose configured method is called with `(input, next)`, or a class name that the container
  builds. The chain is a right fold of continuations. Its innermost step is the callback, or the
  identity when no callback is given. A stage that does not call `next` stops everything after
  it, the callback included. A class the container cannot build and a missing method name both
  surface as one `PipelineException`, and only when the chain reaches that stage.
- **PipelineScenarios** (`pipeline_scenarios.dfy`): the mock stages `Stage1` and `Stage2` of the
  test suite, whose method `run` appends "1" or "2" and calls `next`. It also holds every case
  of the test suite as a lemma about the model.
- **Commands** (`commands.dfy`): the console command registry. It keeps commands by name in
  insertion order and offers `add`, `get`, `has`, `getAll` and the name lookup of `call`.
- **ApplicationConfigs** (`application_config.dfy`): `ApplicationConfig.fromArray` and `isValid`.
- **SqlServer** (`sql_server.dfy`): the SQL server settings record, with its defaults, getters
  and setters.

Everything is immutable. An operation that mutates an object in PHP returns the new state
here, together with an outcome that says whether it threw. A "failed call leaves the object
unchanged" property is stated as equality between the old state and the returned state.

The implementation of the pipeline is not part of this model. Its behaviour comes from the
assertions of `tests/app/rdev/pipelines/PipelineTest.php`. Choices the tests leave open:

- The method name belongs to the pipeline, as in the test constructor `new Pipeline($container,
  $stages, "run")`. No stage carries a method name of its own.
- For object and class-name stages, a missing method name is checked first. Then the container
  is asked to build the class. Then the method is looked up on the instance. Each failure is a
  `PipelineException` carrying its cause.
- A method name that the instance does not have is also a `PipelineException`.
- Resolution is interleaved with execution. A stage that cannot be resolved becomes a
  continuation that throws. So an earlier stage that stops the chain hides a later
  resolution failure.

## Model

| member | source | states |
|---|---|---|
| Pipelines.NewPipeline | tests/app/rdev/pipelines/PipelineTest.php:97-103 | building a pipeline resolves nothing and cannot fail: it keeps the container, the stages in declaration order and the method name, even when a stage names a class the container does not know |
| Pipelines.BindMethod | tests/app/rdev/pipelines/PipelineTest.php:137-153 | an object stage resolves exactly when a method name is configured and the object has that method, to that method; no method name gives the missing-method cause |
| Pipelines.Resolve | tests/app/rdev/pipelines/PipelineTest.php:41-69 | a closure is used unchanged; an object gets the configured method bound; a class name fails with the container cause exactly when the container cannot build it, and otherwise resolves like the object the container builds; object and class stages without a method name fail with the missing-method cause |
| Pipelines.Send | tests/app/rdev/pipelines/PipelineTest.php:74-92 | send runs the chain whose innermost step is the callback, or the identity without one; with no stages the result is the callback applied to the input, or the input itself |
| Pipelines.ChainRunsInOrder | tests/app/rdev/pipelines/PipelineTest.php:118-132 | when every stage passes a transformed input on, the chain applies the stages' transformations in declaration order and then the terminal step |
| Pipelines.SendRunsAllStages | tests/app/rdev/pipelines/PipelineTest.php:74-92 | when no stage stops early, send returns the callback applied to the input after all stages, or that value itself without a callback |
| Pipelines.ChainSplit | tests/app/rdev/pipelines/PipelineTest.php:118-132 | running the first k continuing stages and then the rest of the chain equals running the whole chain |
| Pipelines.ShortCircuit | tests/app/rdev/pipelines/PipelineTest.php:172-209 | if the stages before position k continue and stage k returns without calling next, send returns that stage's value, whatever the later stages and the callback are |
| Pipelines.UnresolvedStageThrows | tests/app/rdev/pipelines/PipelineTest.php:97-103 | when the chain reaches a stage that cannot be resolved, send throws a PipelineException carrying the cause, never the container's own error |
| Pipelines.SameResolutionsSameChain | tests/app/rdev/pipelines/PipelineTest.php:41-69 | stage lists that resolve stage by stage to the same handlers build the same chain, however each stage is written |
| Pipelines.SendIgnoresRepresentation | tests/app/rdev/pipelines/PipelineTest.php:108-142 | replacing stages by stages that resolve alike (closure, object or class name) never changes the result of send |
| Pipelines.ClassNameResolvesLikeObject | tests/app/rdev/pipelines/PipelineTest.php:108-142 | with a method name set, a class name the container knows resolves like the object it builds, and like a closure that is that object's method |
| PipelineScenarios.AppendingStageContinues | tests/app/rdev/pipelines/PipelineTest.php:118-132 | a stage that resolves to "append a suffix and call next" continues with the append transformation |
| PipelineScenarios.StoppingStageHalts | tests/app/rdev/pipelines/PipelineTest.php:172-186 | a stage that resolves to "append a suffix and return" halts with the append transformation |
| PipelineScenarios.ThroughAppends | tests/app/rdev/pipelines/PipelineTest.php:118-132 | appending suffixes one after another appends their concatenation in order |
| PipelineScenarios.AppendingStagesConcatenate | tests/app/rdev/pipelines/PipelineTest.php:27-142 | any number of appending stages, however written, give the input followed by the suffixes in declaration order, then passed to the callback if there is one |
| PipelineScenarios.MockClassesResolve | tests/app/rdev/pipelines/PipelineTest.php:108-113 | with method "run", the mock classes Stage1 and Stage2, by class name or as objects, resolve to the stages appending "1" and "2" |
| PipelineScenarios.ClassStagesWithCallback | tests/app/rdev/pipelines/PipelineTest.php:27-36 | two class stages with method "run" and the callback give "input123" |
| PipelineScenarios.ClassThenClosureThenObjectStages | tests/app/rdev/pipelines/PipelineTest.php:41-53 | a class stage, a closure appending "3", then an object give "input132" |
| PipelineScenarios.ClosureThenClassStages | tests/app/rdev/pipelines/PipelineTest.php:58-69 | a closure, then a class stage, give "input12" |
| PipelineScenarios.ClosuresWithCallback | tests/app/rdev/pipelines/PipelineTest.php:74-92 | two closures and the callback, with no method name, give "input123" |
| PipelineScenarios.ContainerFailuresAreConverted | tests/app/rdev/pipelines/PipelineTest.php:97-103 | a class the container does not know makes send throw a PipelineException |
| PipelineScenarios.MultipleClassStages | tests/app/rdev/pipelines/PipelineTest.php:108-113 | two class stages with method "run" give "input12" |
| PipelineScenarios.MultipleClosureStages | tests/app/rdev/pipelines/PipelineTest.php:118-132 | two closures give "input12" |
| PipelineScenarios.MultipleObjectStages | tests/app/rdev/pipelines/PipelineTest.php:137-142 | two object stages with method "run" give "input12" |
| PipelineScenarios.NotSettingMethodToCall | tests/app/rdev/pipelines/PipelineTest.php:147-153 | a class stage with no method name makes send throw a PipelineException for the missing method |
| PipelineScenarios.ObjectStagesWithCallback | tests/app/rdev/pipelines/PipelineTest.php:158-167 | two object stages and the callback give "input123" |
| PipelineScenarios.StageThatDoesNotCallNext | tests/app/rdev/pipelines/PipelineTest.php:172-209 | a first stage that appends "1" without calling next gives "input1" with or without a callback |
| PipelineScenarios.SingleClassPipe | tests/app/rdev/pipelines/PipelineTest.php:214-219 | one class stage gives "input1" |
| PipelineScenarios.SingleClosurePipe | tests/app/rdev/pipelines/PipelineTest.php:224-234 | one closure gives "input1" |
| PipelineScenarios.SingleObjectPipe | tests/app/rdev/pipelines/PipelineTest.php:239-244 | one object stage gives "input1" |
| Commands.Empty | app/rdev/console/commands/Commands.php:14 | a new registry is valid and has no command |
| Commands.Has | app/rdev/console/commands/Commands.php:97-100 | has holds of a name exactly when it is registered, which in a valid registry is exactly when the name is in the insertion-order list |
| Commands.Get | app/rdev/console/commands/Commands.php:71-79 | get succeeds exactly when the name is registered, with the stored command, and otherwise throws InvalidArgumentException naming the missing command |
| Commands.Add | app/rdev/console/commands/Commands.php:35-44 | add throws InvalidArgumentException exactly when the name is taken, and then leaves the registry unchanged; otherwise the command becomes registered, get returns it, it is last in insertion order, and no other name changes |
| Commands.GetAll | app/rdev/console/commands/Commands.php:86-89 | getAll lists every registered command exactly once, each being what get returns for its name, one per insertion |
| Commands.Call | app/rdev/console/commands/Commands.php:56-62 | call throws the InvalidArgumentException of get exactly when the name is unknown, and otherwise runs the registered command |
| Commands.AddAll | app/rdev/console/commands/Commands.php:35-44 | any sequence of adds, rejected ones included, leaves the registry valid |
| Commands.AddAllHas | app/rdev/console/commands/Commands.php:97-100 | after a sequence of adds, has holds of a name exactly when some added command carries it |
| Commands.GetAllIsInsertionOrder | app/rdev/console/commands/Commands.php:86-89 | after a sequence of adds, getAll is the commands whose add succeeded, each once, in the order of the adds |
| ApplicationConfigs.IsValid | application/rdev/models/applications/configs/ApplicationConfig.php:33-36 | validity is exactly the base class's validity predicate |
| ApplicationConfigs.FromArray | application/rdev/models/applications/configs/ApplicationConfig.php:15-28 | an invalid array throws RuntimeException "Invalid config" and leaves the config unchanged; a valid one is stored with an "environment" key, set to an empty array when missing or null, kept when set, and every other key stored as given |
| ApplicationConfigs.FromArrayIdempotent | application/rdev/models/applications/configs/ApplicationConfig.php:15-28 | loading the stored array again, when the base class accepts it, succeeds and stores the same array |
| SqlServer.NewServer | application/rdev/models/databases/sql/Server.php:13-19 | a new server has empty user name, password and database name, and charset "utf8" |
| SqlServer.GetCharset | application/rdev/models/databases/sql/Server.php:24-27 | the getter returns the charset field: storing its value back leaves the server unchanged; the round trip with the setter is in SetCharset |
| SqlServer.GetDatabaseName | application/rdev/models/databases/sql/Server.php:32-35 | the getter returns the database-name field: storing its value back leaves the server unchanged; the round trip is in SetDatabaseName |
| SqlServer.GetPassword | application/rdev/models/databases/sql/Server.php:40-43 | the getter returns the password field: storing its value back leaves the server unchanged; the round trip is in SetPassword |
| SqlServer.GetUsername | application/rdev/models/databases/sql/Server.php:48-51 | the getter returns the user-name field: storing its value back leaves the server unchanged; the round trip is in SetUsername |
| SqlServer.SetCharset | application/rdev/models/databases/sql/Server.php:56-59 | after setting the charset, the getter returns it and the other three settings are unchanged |
| SqlServer.SetDatabaseName | application/rdev/models/databases/sql/Server.php:64-67 | after setting the database name, the getter returns it and the other three settings are unchanged |
| SqlServer.SetPassword | application/rdev/models/databases/sql/Server.php:72-75 | after setting the password, the getter returns it and the other three settings are unchanged |
| SqlServer.SetUsername | application/rdev/models/databases/sql/Server.php:80-83 | after setting the user name, the getter returns it and the other three settings are unchanged |
| SqlServer.SetGetIsIdentity | application/rdev/models/databases/sql/Server.php:24-83 | setting any setting to what its getter returns leaves the server unchanged |
| SqlServer.SettersCommuteAndOverride | application/rdev/models/databases/sql/Server.php:56-83 | for each of the six pairs of different settings the two setters commute, and for each of the four settings a second set overrides the first |

## Left out

- The IoC container's internals: it is a finite map from class name to the instance it builds, so
  shared or fresh instances, autowiring and constructor failures other than "unknown class" are
  not modelled.
- Reflection-based method dispatch: an object is a map from method name to handler.
- Per-stage method names: the tests only configure one method name for the whole pipeline.
- Side effects of stages and the callback: stages are pure functions, so sending twice gives the
  same result by construction. The callback cannot throw.
- Stage execution errors: a stage may return `StageError`. The chain passes it through
  unchanged, but no lemma is stated about it.
- Pipeline values other than those of one type: a pipeline threads values of a single type `T`.
  The tests use strings.
- Commands: `setCommands($this)`, which gives the command a back-reference to the registry, is
  object wiring and has no counterpart here.
- Commands: the request parser, the command compiler and `execute` are foreign. `Call` takes the
  compile-and-run step as a parameter and models only the name lookup.
- Commands: a command whose name changes after it was added is not modelled. The registry stores
  each command under its name at the time of `add`.
- ApplicationConfigs: PHP arrays are ordered and may have integer keys. Here a config array is a
  map from string keys, so the position of an added "environment" entry is not modelled.
- ApplicationConfigs: the base class `Config` is not part of this model. Its validity predicate is
  a parameter. The array a config holds before its first load is not modelled.
- SqlServer: the fields of the parent `Databases\Server` class (host, port) are not part of this
  model.
