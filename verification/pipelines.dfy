/**
 * The stage pipeline: an ordered list of heterogeneous stages composed into
 * one chain of continuations that threads an input through every stage and,
 * unless some stage stops early, through a terminal callback.
 *
 * A stage is a closure taking `(input, next)`, a live object whose configured
 * method is called with `(input, next)`, or a class name that the IoC
 * container turns into such an object when the chain reaches it.
 */
module Pipelines {

  datatype Option<T> = None | Some(value: T)

  /** Why a stage could not be turned into something callable. */
  datatype Cause =
    | MethodNotSet                                    // no method name was given to the pipeline
    | ContainerFailure(className: string)             // the IoC container cannot build the class
    | UndefinedMethod(className: string, methodName: string) // the instance has no such method

  /** What a run of the chain can throw. */
  datatype Failure =
    | PipelineException(cause: Cause)  // every resolution failure is converted to this one kind
    | StageError(message: string)      // raised by a stage's own code; passed through untouched

  /** The outcome of running (part of) the chain: a returned value or a thrown failure. */
  datatype Outcome<T> = Returned(value: T) | Threw(failure: Failure)

  /** A stage in its uniform shape: it receives the input and the rest of the chain. */
  type Handler<!T> = (T, T -> Outcome<T>) -> Outcome<T>

  /** A live object: its class and the methods that can be called as a stage. */
  datatype Instance<!T> = Instance(className: string, methods: map<string, Handler<T>>)

  /** The three ways a stage may be given to a pipeline. */
  datatype Stage<!T> =
    | Closure(handler: Handler<T>)
    | Object(instance: Instance<T>)
    | ClassName(name: string)

  /** The IoC container, reduced to the classes it can build. */
  type Container<!T> = map<string, Instance<T>>

  /** What resolving a stage needs: the container and the method to call on objects. */
  datatype Resolver<!T> = Resolver(container: Container<T>, methodToCall: Option<string>)

  /** A pipeline: how to resolve stages, and the stages in declaration order. */
  datatype Pipeline<!T> = Pipeline(resolver: Resolver<T>, stages: seq<Stage<T>>)

  /**
   * Builds a pipeline from a container, stages and an optional method name.
   * Nothing is resolved yet, so construction cannot fail, not even for a
   * class the container does not know.
   */
  function NewPipeline<T>(container: Container<T>, stages: seq<Stage<T>>, methodToCall: Option<string>): (p: Pipeline<T>)
    ensures p.stages == stages
    ensures p.resolver.container == container && p.resolver.methodToCall == methodToCall
  {
    Pipeline(Resolver(container, methodToCall), stages)
  }

  /** The result of resolving one stage. */
  datatype Resolution<!T> = Resolved(handler: Handler<T>) | Unresolved(cause: Cause)

  /** Looks up the pipeline's method on a live object. */
  function BindMethod<T>(methodToCall: Option<string>, obj: Instance<T>): (r: Resolution<T>)
    ensures r.Resolved? <==> methodToCall.Some? && methodToCall.value in obj.methods
    ensures r.Resolved? ==> r.handler == obj.methods[methodToCall.value]
    ensures methodToCall.None? ==> r == Unresolved(MethodNotSet)
  {
    match methodToCall
    case None => Unresolved(MethodNotSet)
    case Some(m) =>
      if m in obj.methods then Resolved(obj.methods[m]) else Unresolved(UndefinedMethod(obj.className, m))
  }

  /**
   * Turns a stage into a handler. A closure is used as it is; an object has
   * the pipeline's method bound; a class name is first built by the container
   * and then treated exactly like an object. A missing method name is
   * reported before the container is asked.
   */
  function Resolve<T>(p: Resolver<T>, stage: Stage<T>): (r: Resolution<T>)
    ensures stage.Closure? ==> r == Resolved(stage.handler)
    ensures stage.Object? ==> r == BindMethod(p.methodToCall, stage.instance)
    ensures !stage.Closure? && p.methodToCall.None? ==> r == Unresolved(MethodNotSet)
    ensures stage.ClassName? && p.methodToCall.Some? ==>
              (stage.name !in p.container <==> r == Unresolved(ContainerFailure(stage.name)))
    ensures stage.ClassName? && stage.name in p.container ==>
              r == BindMethod(p.methodToCall, p.container[stage.name])
  {
    match stage
    case Closure(h) => Resolved(h)
    case Object(obj) => BindMethod(p.methodToCall, obj)
    case ClassName(n) =>
      if p.methodToCall.None? then Unresolved(MethodNotSet)
      else if n !in p.container then Unresolved(ContainerFailure(n))
      else BindMethod(p.methodToCall, p.container[n])
  }

  /**
   * Wraps one stage around the rest of the chain. A stage that cannot be
   * resolved becomes a continuation that throws a PipelineException, so the
   * failure surfaces only if the chain actually reaches that stage.
   */
  function Link<T>(p: Resolver<T>, stage: Stage<T>, next: T -> Outcome<T>): T -> Outcome<T>
  {
    match Resolve(p, stage)
    case Unresolved(cause) => (input: T) => Threw(PipelineException(cause))
    case Resolved(h) => (input: T) => h(input, next)
  }

  /** The innermost continuation: the callback when one is given, otherwise the identity. */
  function Terminal<T>(callback: Option<T -> T>): T -> Outcome<T>
  {
    match callback
    case None => (x: T) => Returned(x)
    case Some(f) => (x: T) => Returned(f(x))
  }

  /** The chain: a right fold of `Link` over the stages, starting from `terminal`. */
  function Chain<T>(p: Resolver<T>, stages: seq<Stage<T>>, terminal: T -> Outcome<T>): T -> Outcome<T>
    decreases |stages|
  {
    if |stages| == 0 then terminal else Link(p, stages[0], Chain(p, stages[1..], terminal))
  }

  /**
   * Sends an input through the pipeline. Each call builds and runs its own
   * chain; the pipeline keeps no state between calls.
   */
  function Send<T>(p: Pipeline<T>, input: T, callback: Option<T -> T>): (r: Outcome<T>)
    ensures |p.stages| == 0 ==> r == Returned(if callback.Some? then callback.value(input) else input)
  {
    Chain(p.resolver, p.stages, Terminal(callback))(input)
  }

  // ---------------------------------------------------------------------------
  // Stage behaviours
  // ---------------------------------------------------------------------------

  /** The stage resolves to a handler that transforms its input by `f` and passes the result on. */
  ghost predicate Continues<T(!new)>(p: Resolver<T>, stage: Stage<T>, f: T -> T)
  {
    && Resolve(p, stage).Resolved?
    && forall x: T, next: T -> Outcome<T> :: Resolve(p, stage).handler(x, next) == next(f(x))
  }

  /** The stage resolves to a handler that returns `g` of its input without calling `next`. */
  ghost predicate Halts<T(!new)>(p: Resolver<T>, stage: Stage<T>, g: T -> T)
  {
    && Resolve(p, stage).Resolved?
    && forall x: T, next: T -> Outcome<T> :: Resolve(p, stage).handler(x, next) == Returned(g(x))
  }

  /** Every stage of `stages` continues, the i-th one with `fs[i]`. */
  ghost predicate AllContinue<T(!new)>(p: Resolver<T>, stages: seq<Stage<T>>, fs: seq<T -> T>)
  {
    && |stages| == |fs|
    && forall i :: 0 <= i < |stages| ==> Continues(p, stages[i], fs[i])
  }

  /** Applies the transformations in declaration order: first `fs[0]`, last `fs[|fs|-1]`. */
  function Through<T>(fs: seq<T -> T>, x: T): T
    decreases |fs|
  {
    if |fs| == 0 then x else Through(fs[1..], fs[0](x))
  }

  // ---------------------------------------------------------------------------
  // Properties of the chain
  // ---------------------------------------------------------------------------

  /** Stages that all continue run in declaration order and then hand over to the terminal. */
  lemma {:induction false} ChainRunsInOrder<T(!new)>(p: Resolver<T>, stages: seq<Stage<T>>, fs: seq<T -> T>,
                                                     terminal: T -> Outcome<T>, x: T)
    requires AllContinue(p, stages, fs)
    ensures Chain(p, stages, terminal)(x) == terminal(Through(fs, x))
    decreases |stages|
  {
    if |stages| > 0 {
      var rest := Chain(p, stages[1..], terminal);
      assert Continues(p, stages[0], fs[0]);
      assert Chain(p, stages, terminal)(x) == rest(fs[0](x));
      assert AllContinue(p, stages[1..], fs[1..]) by {
        forall i | 0 <= i < |stages[1..]| ensures Continues(p, stages[1..][i], fs[1..][i]) {
          assert stages[1..][i] == stages[i + 1] && fs[1..][i] == fs[i + 1];
        }
      }
      ChainRunsInOrder(p, stages[1..], fs[1..], terminal, fs[0](x));
    }
  }

  /** If no stage stops early, `send` returns the terminal applied to the input after every stage. */
  lemma SendRunsAllStages<T(!new)>(p: Pipeline<T>, fs: seq<T -> T>, x: T, callback: Option<T -> T>)
    requires AllContinue(p.resolver, p.stages, fs)
    ensures Send(p, x, callback) == Returned(if callback.Some? then callback.value(Through(fs, x)) else Through(fs, x))
  {
    ChainRunsInOrder(p.resolver, p.stages, fs, Terminal(callback), x);
  }

  /** Running the first stages of a chain and then the remaining chain is the same as running it whole. */
  lemma {:induction false} ChainSplit<T(!new)>(p: Resolver<T>, stages: seq<Stage<T>>, k: nat, fs: seq<T -> T>,
                                               terminal: T -> Outcome<T>, x: T)
    requires k <= |stages|
    requires AllContinue(p, stages[..k], fs)
    ensures Chain(p, stages, terminal)(x) == Chain(p, stages[k..], terminal)(Through(fs, x))
    decreases k
  {
    if k > 0 {
      assert Continues(p, stages[..k][0], fs[0]);
      assert stages[..k][0] == stages[0];
      assert AllContinue(p, stages[1..][..k - 1], fs[1..]) by {
        forall i | 0 <= i < k - 1 ensures Continues(p, stages[1..][..k - 1][i], fs[1..][i]) {
          assert stages[1..][..k - 1][i] == stages[..k][i + 1];
          assert Continues(p, stages[..k][i + 1], fs[i + 1]);
        }
      }
      ChainSplit(p, stages[1..], k - 1, fs[1..], terminal, fs[0](x));
      assert stages[1..][k - 1..] == stages[k..];
    }
  }

  /**
   * Short circuit: when the stages before position k continue and stage k
   * returns without calling `next`, the result is that stage's value; the
   * later stages and the callback never run, whatever they are.
   */
  lemma ShortCircuit<T(!new)>(p: Pipeline<T>, k: nat, fs: seq<T -> T>, g: T -> T, x: T, callback: Option<T -> T>)
    requires k < |p.stages|
    requires AllContinue(p.resolver, p.stages[..k], fs)
    requires Halts(p.resolver, p.stages[k], g)
    ensures Send(p, x, callback) == Returned(g(Through(fs, x)))
  {
    ChainSplit(p.resolver, p.stages, k, fs, Terminal(callback), x);
    var y := Through(fs, x);
    var rest := p.stages[k..];
    assert rest[0] == p.stages[k];
    assert Chain(p.resolver, rest, Terminal(callback))(y)
        == Resolve(p.resolver, rest[0]).handler(y, Chain(p.resolver, rest[1..], Terminal(callback)));
  }

  /**
   * A stage that cannot be resolved makes `send` throw a PipelineException
   * carrying the cause, once the chain reaches it.
   */
  lemma UnresolvedStageThrows<T(!new)>(p: Pipeline<T>, k: nat, fs: seq<T -> T>, x: T, callback: Option<T -> T>)
    requires k < |p.stages|
    requires AllContinue(p.resolver, p.stages[..k], fs)
    requires Resolve(p.resolver, p.stages[k]).Unresolved?
    ensures Send(p, x, callback) == Threw(PipelineException(Resolve(p.resolver, p.stages[k]).cause))
  {
    ChainSplit(p.resolver, p.stages, k, fs, Terminal(callback), x);
    assert p.stages[k..][0] == p.stages[k];
  }

  /** Two stage lists that resolve stage by stage to the same thing. */
  ghost predicate SameResolutions<T>(p: Resolver<T>, a: seq<Stage<T>>, b: seq<Stage<T>>)
  {
    && |a| == |b|
    && forall i :: 0 <= i < |a| ==> Resolve(p, a[i]) == Resolve(p, b[i])
  }

  /**
   * Representation transparency: how a stage is written (closure, object or
   * class name) does not matter, only what it resolves to. Stage lists that
   * resolve alike build the very same chain.
   */
  lemma {:induction false} SameResolutionsSameChain<T>(p: Resolver<T>, a: seq<Stage<T>>, b: seq<Stage<T>>,
                                                       terminal: T -> Outcome<T>)
    requires SameResolutions(p, a, b)
    ensures Chain(p, a, terminal) == Chain(p, b, terminal)
    decreases |a|
  {
    if |a| > 0 {
      assert SameResolutions(p, a[1..], b[1..]) by {
        forall i | 0 <= i < |a| - 1 ensures Resolve(p, a[1..][i]) == Resolve(p, b[1..][i]) {
          assert a[1..][i] == a[i + 1] && b[1..][i] == b[i + 1];
        }
      }
      SameResolutionsSameChain(p, a[1..], b[1..], terminal);
      assert Resolve(p, a[0]) == Resolve(p, b[0]);
    }
  }

  /** Stages that resolve alike can replace each other without changing any result of `send`. */
  lemma SendIgnoresRepresentation<T>(p: Pipeline<T>, stages: seq<Stage<T>>, x: T, callback: Option<T -> T>)
    requires SameResolutions(p.resolver, p.stages, stages)
    ensures Send(p, x, callback) == Send(p.(stages := stages), x, callback)
  {
    SameResolutionsSameChain(p.resolver, p.stages, stages, Terminal(callback));
  }

  /** A class name the container knows resolves exactly like the object it builds, and a bound method like a closure. */
  lemma ClassNameResolvesLikeObject<T>(p: Resolver<T>, name: string, m: string)
    requires p.methodToCall == Some(m) && name in p.container && m in p.container[name].methods
    ensures Resolve(p, ClassName(name)) == Resolve(p, Object(p.container[name]))
    ensures Resolve(p, ClassName(name)) == Resolve(p, Closure(p.container[name].methods[m]))
  {
  }
}
