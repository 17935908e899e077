/**
 * The console command registry: commands kept by name, in the order they
 * were added. Adding a name twice and asking for an unknown name are both
 * errors.
 */
module Commands {

  /** A console command: its name, and the rest of its definition, which the registry never looks at. */
  datatype Command<D> = Command(name: string, definition: D)

  datatype Error = InvalidArgumentException(message: string)

  datatype Result<T> = Ok(value: T) | Thrown(error: Error)

  /**
   * The registry. `byName` is the keyed store; `order` lists its keys in
   * insertion order, as iterating the underlying array does.
   */
  datatype Registry<D> = Registry(byName: map<string, Command<D>>, order: seq<string>)

  /** What every reachable registry satisfies. */
  ghost predicate Valid<D>(r: Registry<D>)
  {
    && (forall i, j :: 0 <= i < j < |r.order| ==> r.order[i] != r.order[j])
    && (forall n :: n in r.byName <==> n in r.order)
    && (forall n :: n in r.byName ==> r.byName[n].name == n)
  }

  /** A fresh registry holds no command. */
  function Empty<D>(): (r: Registry<D>)
    ensures Valid(r)
    ensures forall n :: !Has(r, n)
  {
    Registry(map[], [])
  }

  /** Whether a command with this name has been added; in a valid registry, whether the name is in insertion order. */
  predicate Has<D>(r: Registry<D>, name: string)
    ensures Valid(r) ==> (Has(r, name) <==> name in r.order)
  {
    name in r.byName
  }

  /** The command with this name, or InvalidArgumentException when there is none. */
  function Get<D>(r: Registry<D>, name: string): (res: Result<Command<D>>)
    ensures res.Ok? <==> Has(r, name)
    ensures res.Ok? ==> res.value == r.byName[name]
    ensures res.Thrown? ==> res.error == InvalidArgumentException("No command with name \"" + name + "\" exists")
  {
    if !Has(r, name) then Thrown(InvalidArgumentException("No command with name \"" + name + "\" exists"))
    else Ok(r.byName[name])
  }

  /** The registry after an `add`, and whether the `add` threw. */
  datatype AddStep<D> = AddStep(after: Registry<D>, status: Result<()>)

  /**
   * Adds a command under its own name. A name that is already taken throws
   * InvalidArgumentException before anything changes.
   */
  function Add<D>(r: Registry<D>, c: Command<D>): (step: AddStep<D>)
    requires Valid(r)
    ensures Valid(step.after)
    ensures step.status.Thrown? <==> Has(r, c.name)
    ensures step.status.Thrown? ==> step.after == r
    ensures step.status.Thrown? ==>
              step.status.error == InvalidArgumentException("A command with name \"" + c.name + "\" already exists")
    ensures step.status.Ok? ==> Has(step.after, c.name) && Get(step.after, c.name) == Ok(c)
    ensures step.status.Ok? ==> step.after.order == r.order + [c.name]
    ensures forall n :: n != c.name ==> Has(step.after, n) == Has(r, n) && Get(step.after, n) == Get(r, n)
  {
    if Has(r, c.name) then
      AddStep(r, Thrown(InvalidArgumentException("A command with name \"" + c.name + "\" already exists")))
    else
      AddStep(Registry(r.byName[c.name := c], r.order + [c.name]), Ok(()))
  }

  /** All commands, in the order they were added. */
  function GetAll<D>(r: Registry<D>): (all: seq<Command<D>>)
    requires Valid(r)
    ensures |all| == |r.order|
    ensures forall i :: 0 <= i < |all| ==> Has(r, all[i].name) && Get(r, all[i].name) == Ok(all[i])
    ensures forall i, j :: 0 <= i < j < |all| ==> all[i].name != all[j].name
    ensures forall n :: Has(r, n) ==> exists i :: 0 <= i < |all| && all[i].name == n
  {
    var all := seq(|r.order|, i requires 0 <= i < |r.order| => r.byName[r.order[i]]);
    assert forall n :: Has(r, n) ==> exists i :: 0 <= i < |all| && all[i].name == n by {
      forall n | Has(r, n) ensures exists i :: 0 <= i < |all| && all[i].name == n {
        var i :| 0 <= i < |r.order| && r.order[i] == n;
        assert all[i].name == n;
      }
    }
    all
  }

  /**
   * Calls a command by name. Parsing the request, compiling the command and
   * running it are outside the registry and are given as `execute`; only the
   * name lookup belongs here.
   */
  function Call<D>(r: Registry<D>, name: string, execute: Command<D> -> int): (res: Result<int>)
    ensures res.Thrown? <==> !Has(r, name)
    ensures res.Thrown? ==> Get(r, name) == Thrown(res.error)
    ensures res.Ok? ==> res.value == execute(r.byName[name])
  {
    match Get(r, name)
    case Thrown(e) => Thrown(e)
    case Ok(c) => Ok(execute(c))
  }

  // ---------------------------------------------------------------------------
  // A registry built by a sequence of adds
  // ---------------------------------------------------------------------------

  /** The registry after adding `cs` one by one to an empty one, rejected adds included. */
  function AddAll<D>(cs: seq<Command<D>>): (r: Registry<D>)
    ensures Valid(r)
    decreases |cs|
  {
    if |cs| == 0 then Empty() else Add(AddAll(cs[..|cs| - 1]), cs[|cs| - 1]).after
  }

  /** Whether some command of `cs` is named `name`. */
  ghost predicate Named<D>(cs: seq<Command<D>>, name: string)
  {
    exists i :: 0 <= i < |cs| && cs[i].name == name
  }

  /** The commands of `cs` whose name did not occur earlier in `cs`: the adds that succeed. */
  ghost function FirstByName<D>(cs: seq<Command<D>>): seq<Command<D>>
    decreases |cs|
  {
    if |cs| == 0 then []
    else
      var init := cs[..|cs| - 1];
      if Named(init, cs[|cs| - 1].name) then FirstByName(init) else FirstByName(init) + [cs[|cs| - 1]]
  }

  /** After a sequence of adds, a name is registered exactly when some added command carries it. */
  lemma {:induction false} AddAllHas<D>(cs: seq<Command<D>>, name: string)
    ensures Has(AddAll(cs), name) <==> Named(cs, name)
    decreases |cs|
  {
    if |cs| > 0 {
      var init := cs[..|cs| - 1];
      AddAllHas(init, name);
      if Named(cs, name) {
        var i :| 0 <= i < |cs| && cs[i].name == name;
        if i < |cs| - 1 { assert init[i] == cs[i]; }
      }
      if Named(init, name) {
        var i :| 0 <= i < |init| && init[i].name == name;
        assert cs[i] == init[i];
      }
    }
  }

  /**
   * `getAll` after a sequence of adds lists every command whose add
   * succeeded, once each, in the order of the adds.
   */
  lemma {:induction false} GetAllIsInsertionOrder<D>(cs: seq<Command<D>>)
    ensures GetAll(AddAll(cs)) == FirstByName(cs)
    decreases |cs|
  {
    if |cs| > 0 {
      var init := cs[..|cs| - 1];
      var c := cs[|cs| - 1];
      var before := AddAll(init);
      GetAllIsInsertionOrder(init);
      AddAllHas(init, c.name);
      var step := Add(before, c);
      if !Named(init, c.name) {
        assert step.after.order == before.order + [c.name];
        assert GetAll(step.after) == GetAll(before) + [c] by {
          forall i | 0 <= i < |before.order|
            ensures GetAll(step.after)[i] == GetAll(before)[i]
          {
            assert step.after.order[i] == before.order[i];
            assert before.order[i] in before.byName;
          }
        }
      }
    }
  }
}
