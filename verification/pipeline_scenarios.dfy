/**
 * The pipeline scenarios of the test suite, on strings: stages that append a
 * suffix and continue, stages that append a suffix and stop, the two mock
 * classes `Stage1` and `Stage2` whose `run` method appends "1" or "2" and
 * continues, and a callback that appends "3".
 */
module PipelineScenarios {
  import opened Pipelines

  /** A stage that appends `suffix` to its input and passes the result on. */
  function AppendAndContinue(suffix: string): Handler<string>
  {
    (input: string, next: string -> Outcome<string>) => next(input + suffix)
  }

  /** A stage that appends `suffix` to its input and returns without calling `next`. */
  function AppendAndStop(suffix: string): Handler<string>
  {
    (input: string, next: string -> Outcome<string>) => Returned(input + suffix)
  }

  /** Appending `suffix`, as a plain transformation. */
  function Append(suffix: string): string -> string
  {
    (input: string) => input + suffix
  }

  /** One `Append` per suffix, in the same order. */
  function Appends(suffixes: seq<string>): (fs: seq<string -> string>)
    ensures |fs| == |suffixes|
    ensures forall i :: 0 <= i < |suffixes| ==> fs[i] == Append(suffixes[i])
  {
    seq(|suffixes|, i requires 0 <= i < |suffixes| => Append(suffixes[i]))
  }

  /** The suffixes joined in order. */
  function Concat(suffixes: seq<string>): string
    decreases |suffixes|
  {
    if |suffixes| == 0 then "" else suffixes[0] + Concat(suffixes[1..])
  }

  const Stage1Class := "RDev\\Tests\\Pipelines\\Mocks\\Stage1"
  const Stage2Class := "RDev\\Tests\\Pipelines\\Mocks\\Stage2"

  /** The mock stage classes: `run` appends "1" (resp. "2") and calls `next`. */
  const Stage1: Instance<string> := Instance(Stage1Class, map["run" := AppendAndContinue("1")])
  const Stage2: Instance<string> := Instance(Stage2Class, map["run" := AppendAndContinue("2")])

  /** The container of the tests: it can build the two mock classes and nothing else. */
  const TestContainer: Container<string> := map[Stage1Class := Stage1, Stage2Class := Stage2]

  /** The callback of the tests. */
  const AppendThree: string -> string := Append("3")

  /** A stage whose resolution is `AppendAndContinue(suffix)` continues with `Append(suffix)`. */
  lemma AppendingStageContinues(r: Resolver<string>, stage: Stage<string>, suffix: string)
    requires Resolve(r, stage) == Resolved(AppendAndContinue(suffix))
    ensures Continues(r, stage, Append(suffix))
  {
  }

  /** A stage whose resolution is `AppendAndStop(suffix)` halts with `Append(suffix)`. */
  lemma StoppingStageHalts(r: Resolver<string>, stage: Stage<string>, suffix: string)
    requires Resolve(r, stage) == Resolved(AppendAndStop(suffix))
    ensures Halts(r, stage, Append(suffix))
  {
  }

  /** Appending the suffixes one by one appends their concatenation. */
  lemma {:induction false} ThroughAppends(suffixes: seq<string>, x: string)
    ensures Through(Appends(suffixes), x) == x + Concat(suffixes)
    decreases |suffixes|
  {
    if |suffixes| > 0 {
      var fs := Appends(suffixes);
      assert fs[1..] == Appends(suffixes[1..]);
      assert fs[0](x) == x + suffixes[0];
      ThroughAppends(suffixes[1..], x + suffixes[0]);
      assert (x + suffixes[0]) + Concat(suffixes[1..]) == x + (suffixes[0] + Concat(suffixes[1..]));
    }
  }

  /**
   * Any number of stages that each append a suffix and continue, however
   * each is written, give the input followed by the suffixes in declaration
   * order, then passed to the callback if there is one.
   */
  lemma AppendingStagesConcatenate(p: Pipeline<string>, suffixes: seq<string>, x: string,
                                   callback: Option<string -> string>)
    requires |p.stages| == |suffixes|
    requires forall i :: 0 <= i < |suffixes| ==>
               Resolve(p.resolver, p.stages[i]) == Resolved(AppendAndContinue(suffixes[i]))
    ensures Send(p, x, callback)
         == Returned(if callback.Some? then callback.value(x + Concat(suffixes)) else x + Concat(suffixes))
  {
    var fs := Appends(suffixes);
    forall i | 0 <= i < |suffixes| ensures Continues(p.resolver, p.stages[i], fs[i]) {
      AppendingStageContinues(p.resolver, p.stages[i], suffixes[i]);
    }
    SendRunsAllStages(p, fs, x, callback);
    ThroughAppends(suffixes, x);
  }

  /** The mock classes resolve, through the container and the method "run", to their appending handler. */
  lemma MockClassesResolve()
    ensures Resolve(Resolver(TestContainer, Some("run")), ClassName(Stage1Class)) == Resolved(AppendAndContinue("1"))
    ensures Resolve(Resolver(TestContainer, Some("run")), ClassName(Stage2Class)) == Resolved(AppendAndContinue("2"))
    ensures Resolve(Resolver(TestContainer, Some("run")), Object(Stage1)) == Resolved(AppendAndContinue("1"))
    ensures Resolve(Resolver(TestContainer, Some("run")), Object(Stage2)) == Resolved(AppendAndContinue("2"))
  {
  }

  /** The strings the test cases expect. */
  lemma ExpectedStrings()
    ensures "input" + Concat(["1"]) == "input1"
    ensures "input" + Concat(["1", "2"]) == "input12"
    ensures "input" + Concat(["1", "3", "2"]) == "input132"
    ensures AppendThree("input12") == "input123"
  {
  }

  // ---------------------------------------------------------------------------
  // The test cases
  // ---------------------------------------------------------------------------

  /** Class stages, then the callback: "input123". */
  lemma ClassStagesWithCallback()
    ensures Send(NewPipeline(TestContainer, [ClassName(Stage1Class), ClassName(Stage2Class)], Some("run")),
                 "input", Some(AppendThree)) == Returned("input123")
  {
    var p := NewPipeline(TestContainer, [ClassName(Stage1Class), ClassName(Stage2Class)], Some("run"));
    MockClassesResolve();
    AppendingStagesConcatenate(p, ["1", "2"], "input", Some(AppendThree));
    ExpectedStrings();
  }

  /** A class, then a closure appending "3", then an object: "input132". */
  lemma ClassThenClosureThenObjectStages()
    ensures Send(NewPipeline(TestContainer, [ClassName(Stage1Class), Closure(AppendAndContinue("3")), Object(Stage2)],
                             Some("run")), "input", None) == Returned("input132")
  {
    var p := NewPipeline(TestContainer, [ClassName(Stage1Class), Closure(AppendAndContinue("3")), Object(Stage2)],
                         Some("run"));
    MockClassesResolve();
    AppendingStagesConcatenate(p, ["1", "3", "2"], "input", None);
    ExpectedStrings();
  }

  /** A closure, then a class: "input12". */
  lemma ClosureThenClassStages()
    ensures Send(NewPipeline(TestContainer, [Closure(AppendAndContinue("1")), ClassName(Stage2Class)], Some("run")),
                 "input", None) == Returned("input12")
  {
    var p := NewPipeline(TestContainer, [Closure(AppendAndContinue("1")), ClassName(Stage2Class)], Some("run"));
    MockClassesResolve();
    AppendingStagesConcatenate(p, ["1", "2"], "input", None);
    ExpectedStrings();
  }

  /** Two closures, then the callback, with no method name: "input123". */
  lemma ClosuresWithCallback()
    ensures Send(NewPipeline(TestContainer, [Closure(AppendAndContinue("1")), Closure(AppendAndContinue("2"))], None),
                 "input", Some(AppendThree)) == Returned("input123")
  {
    var p := NewPipeline(TestContainer, [Closure(AppendAndContinue("1")), Closure(AppendAndContinue("2"))], None);
    AppendingStagesConcatenate(p, ["1", "2"], "input", Some(AppendThree));
    ExpectedStrings();
  }

  /** A class the container cannot build: construction succeeds, `send` throws a PipelineException. */
  lemma ContainerFailuresAreConverted()
    ensures Send(NewPipeline(TestContainer, [ClassName("DoesNotExist")], Some("foo")), "input", None)
         == Threw(PipelineException(ContainerFailure("DoesNotExist")))
  {
  }

  /** Two class stages: "input12". */
  lemma MultipleClassStages()
    ensures Send(NewPipeline(TestContainer, [ClassName(Stage1Class), ClassName(Stage2Class)], Some("run")),
                 "input", None) == Returned("input12")
  {
    var p := NewPipeline(TestContainer, [ClassName(Stage1Class), ClassName(Stage2Class)], Some("run"));
    MockClassesResolve();
    AppendingStagesConcatenate(p, ["1", "2"], "input", None);
    ExpectedStrings();
  }

  /** Two closures with no method name: "input12". */
  lemma MultipleClosureStages()
    ensures Send(NewPipeline(TestContainer, [Closure(AppendAndContinue("1")), Closure(AppendAndContinue("2"))], None),
                 "input", None) == Returned("input12")
  {
    var p := NewPipeline(TestContainer, [Closure(AppendAndContinue("1")), Closure(AppendAndContinue("2"))], None);
    AppendingStagesConcatenate(p, ["1", "2"], "input", None);
    ExpectedStrings();
  }

  /** Two object stages: "input12". */
  lemma MultipleObjectStages()
    ensures Send(NewPipeline(TestContainer, [Object(Stage1), Object(Stage2)], Some("run")), "input", None)
         == Returned("input12")
  {
    var p := NewPipeline(TestContainer, [Object(Stage1), Object(Stage2)], Some("run"));
    MockClassesResolve();
    AppendingStagesConcatenate(p, ["1", "2"], "input", None);
    ExpectedStrings();
  }

  /** A class stage with no method name: `send` throws a PipelineException. */
  lemma NotSettingMethodToCall()
    ensures Send(NewPipeline(TestContainer, [ClassName(Stage1Class)], None), "input", None)
         == Threw(PipelineException(MethodNotSet))
  {
  }

  /** Two object stages, then the callback: "input123". */
  lemma ObjectStagesWithCallback()
    ensures Send(NewPipeline(TestContainer, [Object(Stage1), Object(Stage2)], Some("run")), "input", Some(AppendThree))
         == Returned("input123")
  {
    var p := NewPipeline(TestContainer, [Object(Stage1), Object(Stage2)], Some("run"));
    MockClassesResolve();
    AppendingStagesConcatenate(p, ["1", "2"], "input", Some(AppendThree));
    ExpectedStrings();
  }

  /**
   * A first stage that appends "1" and does not call `next`: "input1", with
   * or without a callback; the second stage and the callback never run.
   */
  lemma StageThatDoesNotCallNext(callback: Option<string -> string>)
    ensures Send(NewPipeline(TestContainer, [Closure(AppendAndStop("1")), Closure(AppendAndContinue("2"))], None),
                 "input", callback) == Returned("input1")
  {
    var p := NewPipeline(TestContainer, [Closure(AppendAndStop("1")), Closure(AppendAndContinue("2"))], None);
    assert p.stages[..0] == [];
    StoppingStageHalts(p.resolver, p.stages[0], "1");
    ShortCircuit(p, 0, [], Append("1"), "input", callback);
    assert Through([], "input") == "input";
    assert Append("1")("input") == "input1";
  }

  /** A single class stage: "input1". */
  lemma SingleClassPipe()
    ensures Send(NewPipeline(TestContainer, [ClassName(Stage1Class)], Some("run")), "input", None) == Returned("input1")
  {
    var p := NewPipeline(TestContainer, [ClassName(Stage1Class)], Some("run"));
    MockClassesResolve();
    AppendingStagesConcatenate(p, ["1"], "input", None);
    ExpectedStrings();
  }

  /** A single closure: "input1". */
  lemma SingleClosurePipe()
    ensures Send(NewPipeline(TestContainer, [Closure(AppendAndContinue("1"))], None), "input", None) == Returned("input1")
  {
    var p := NewPipeline(TestContainer, [Closure(AppendAndContinue("1"))], None);
    AppendingStagesConcatenate(p, ["1"], "input", None);
    ExpectedStrings();
  }

  /** A single object stage: "input1". */
  lemma SingleObjectPipe()
    ensures Send(NewPipeline(TestContainer, [Object(Stage1)], Some("run")), "input", None) == Returned("input1")
  {
    var p := NewPipeline(TestContainer, [Object(Stage1)], Some("run"));
    MockClassesResolve();
    AppendingStagesConcatenate(p, ["1"], "input", None);
    ExpectedStrings();
  }
}
