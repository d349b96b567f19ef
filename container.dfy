/** The class `Container` of src/Container.php: its fields are updated in place by the
    registration methods and by `make`, whose constructor loop and closure invocation are
    written out step by step. Every method is proved to do what the functions of
    ContainerState and Resolution say of the state it starts from. */
module ContainerImpl {
  import R = Resolution
  import opened ContainerState

  /** `vs` followed by the objects of a successful outcome; a failure is passed through. */
  function Prepend(vs: seq<Obj>, out: (Result<seq<Obj>>, State)): (r: (Result<seq<Obj>>, State))
    ensures r.1 == out.1 && r.0.Ok? == out.0.Ok?
    ensures out.0.Ok? ==>
      |r.0.value| == |vs| + |out.0.value| && r.0.value[..|vs|] == vs && r.0.value[|vs|..] == out.0.value
    ensures out.0.Err? ==> r.0 == out.0
  {
    if out.0.Ok? then (Ok(vs + out.0.value), out.1) else out
  }

  lemma PrependTwice(vs: seq<Obj>, v: Obj, out: (Result<seq<Obj>>, State))
    ensures Prepend(vs, Prepend([v], out)) == Prepend(vs + [v], out)
  {
    if out.0.Ok? {
      assert vs + ([v] + out.0.value) == (vs + [v]) + out.0.value;
    }
  }

  /** Where the loop over a closure's dependencies stands after `i` turns from `s0`:
      the objects `args` made so far, followed by what the remaining keys make from `s`,
      are what all the keys make from `s0`. */
  ghost predicate MakeMidway(s0: State, s: State, ct: ClassTable, ks: seq<Key>, i: nat,
                             args: seq<Obj>, rank: map<Key, nat>, bound: nat)
  {
    && i <= |ks|
    && R.Ranked(s0.bindings, s0.instances, ct, rank) && R.Ranked(s.bindings, s.instances, ct, rank)
    && (forall d :: d in ks ==> d in rank && rank[d] < bound)
    && (forall d :: d in ks[i..] ==> d in rank && rank[d] < bound)
    && R.MakeAll(s0, ct, ks, rank, bound) == Prepend(args, R.MakeAll(s, ct, ks[i..], rank, bound))
  }

  lemma MakeEachStart(s0: State, ct: ClassTable, ks: seq<Key>, rank: map<Key, nat>, bound: nat)
    requires R.Ranked(s0.bindings, s0.instances, ct, rank)
    requires forall d :: d in ks ==> d in rank && rank[d] < bound
    ensures MakeMidway(s0, s0, ct, ks, 0, [], rank, bound)
  {
    assert ks[0..] == ks;
  }

  /** One turn of the loop over a closure's dependencies: the key made, its object
      joins those made before. */
  lemma MakeEachStep(s0: State, s: State, s1: State, ct: ClassTable, ks: seq<Key>, i: nat,
                     args: seq<Obj>, o: Obj, rank: map<Key, nat>, bound: nat)
    requires MakeMidway(s0, s, ct, ks, i, args, rank, bound) && i < |ks|
    requires ks[i] in rank && R.Make(s, ct, ks[i], rank) == (Ok(o), s1)
    ensures MakeMidway(s0, s1, ct, ks, i + 1, args + [o], rank, bound)
  {
    SuffixBelow(ks, i, rank, bound);
    MakeUnfold(s, s1, ct, ks, i, o, rank, bound);
    PrependTwice(args, o, R.MakeAll(s1, ct, ks[i + 1..], rank, bound));
  }

  lemma SuffixBelow(ks: seq<Key>, i: nat, rank: map<Key, nat>, bound: nat)
    requires i < |ks| && forall d :: d in ks[i..] ==> d in rank && rank[d] < bound
    ensures forall d :: d in ks[i + 1..] ==> d in rank && rank[d] < bound
  {
    assert ks[i + 1..] == ks[i..][1..];
  }

  /** `MakeAll` on the keys from the `i`-th, which makes `o`. */
  lemma MakeUnfold(s: State, s1: State, ct: ClassTable, ks: seq<Key>, i: nat, o: Obj,
                   rank: map<Key, nat>, bound: nat)
    requires R.Ranked(s.bindings, s.instances, ct, rank) && i < |ks|
    requires forall d :: d in ks[i..] ==> d in rank && rank[d] < bound
    requires forall d :: d in ks[i + 1..] ==> d in rank && rank[d] < bound
    requires ks[i] in rank && R.Make(s, ct, ks[i], rank) == (Ok(o), s1)
    ensures R.Ranked(s1.bindings, s1.instances, ct, rank)
    ensures R.MakeAll(s, ct, ks[i..], rank, bound) == Prepend([o], R.MakeAll(s1, ct, ks[i + 1..], rank, bound))
  {
    R.RankedExtends(s, s1, ct, rank);
    assert ks[i..][0] == ks[i] && ks[i..][1..] == ks[i + 1..];
  }

  /** A key of a closure's dependencies could not be made: the whole loop fails. */
  lemma MakeEachFails(s0: State, s: State, s1: State, ct: ClassTable, ks: seq<Key>, i: nat,
                      args: seq<Obj>, e: Failure, rank: map<Key, nat>, bound: nat)
    requires MakeMidway(s0, s, ct, ks, i, args, rank, bound) && i < |ks|
    requires ks[i] in rank && R.Make(s, ct, ks[i], rank) == (Err(e), s1)
    ensures R.MakeAll(s0, ct, ks, rank, bound) == (Err(e), s1)
  {
    assert ks[i..][0] == ks[i];
  }

  /** Every key of a closure's dependencies was made. */
  lemma MakeEachDone(s0: State, s: State, ct: ClassTable, ks: seq<Key>, args: seq<Obj>,
                     rank: map<Key, nat>, bound: nat)
    requires MakeMidway(s0, s, ct, ks, |ks|, args, rank, bound)
    ensures R.MakeAll(s0, ct, ks, rank, bound) == (Ok(args), s)
  {
    assert ks[|ks|..] == [];
    assert args + [] == args;
  }

  /** Where the loop over a constructor's parameters stands after `i` turns from `s0`. */
  ghost predicate ParamsMidway(s0: State, s: State, ct: ClassTable, concrete: string, ps: seq<Param>,
                               i: nat, args: seq<Obj>, rank: map<Key, nat>, bound: nat)
  {
    && i <= |ps|
    && R.Ranked(s0.bindings, s0.instances, ct, rank) && R.Ranked(s.bindings, s.instances, ct, rank)
    && (forall d :: d in R.TypedPrefix(ps) ==> d in rank && rank[d] < bound)
    && (forall d :: d in R.TypedPrefix(ps[i..]) ==> d in rank && rank[d] < bound)
    && R.ResolveParams(s0, ct, concrete, ps, rank, bound)
       == Prepend(args, R.ResolveParams(s, ct, concrete, ps[i..], rank, bound))
  }

  lemma ParamsStart(s0: State, ct: ClassTable, concrete: string, ps: seq<Param>,
                    rank: map<Key, nat>, bound: nat)
    requires R.Ranked(s0.bindings, s0.instances, ct, rank)
    requires forall d :: d in R.TypedPrefix(ps) ==> d in rank && rank[d] < bound
    ensures ParamsMidway(s0, s0, ct, concrete, ps, 0, [], rank, bound)
  {
    assert ps[0..] == ps;
  }

  /** The parameter the loop is at has a type, which is ranked below the bound. */
  lemma ParamRanked(ps: seq<Param>, i: nat, rank: map<Key, nat>, bound: nat)
    requires i < |ps| && ps[i].typ.Some?
    requires forall d :: d in R.TypedPrefix(ps[i..]) ==> d in rank && rank[d] < bound
    ensures ps[i].typ.value in rank && rank[ps[i].typ.value] < bound
    ensures forall d :: d in R.TypedPrefix(ps[i + 1..]) ==> d in rank && rank[d] < bound
  {
    assert ps[i..][0] == ps[i] && ps[i..][1..] == ps[i + 1..];
    R.PrefixRanked(ps[i..], rank, bound);
  }

  /** One turn of the loop over a constructor's parameters: the typed parameter is logged
      and made, and its object joins those made before. */
  lemma ParamEachStep(s0: State, s: State, s1: State, ct: ClassTable, concrete: string,
                      ps: seq<Param>, i: nat, args: seq<Obj>, o: Obj, rank: map<Key, nat>, bound: nat)
    requires ParamsMidway(s0, s, ct, concrete, ps, i, args, rank, bound) && i < |ps| && ps[i].typ.Some?
    requires ps[i].typ.value in rank
    requires R.Make(Emit(s, DebugLevel, ResolvingDependency(ps[i].typ.value, concrete)), ct, ps[i].typ.value, rank)
      == (Ok(o), s1)
    ensures ParamsMidway(s0, s1, ct, concrete, ps, i + 1, args + [o], rank, bound)
  {
    ParamRanked(ps, i, rank, bound);
    ParamUnfold(s, s1, ct, concrete, ps, i, o, rank, bound);
    PrependTwice(args, o, R.ResolveParams(s1, ct, concrete, ps[i + 1..], rank, bound));
  }

  /** `ResolveParams` on the parameters from the `i`-th, whose type makes `o`. */
  lemma ParamUnfold(s: State, s1: State, ct: ClassTable, concrete: string,
                    ps: seq<Param>, i: nat, o: Obj, rank: map<Key, nat>, bound: nat)
    requires R.Ranked(s.bindings, s.instances, ct, rank) && i < |ps| && ps[i].typ.Some?
    requires forall d :: d in R.TypedPrefix(ps[i..]) ==> d in rank && rank[d] < bound
    requires forall d :: d in R.TypedPrefix(ps[i + 1..]) ==> d in rank && rank[d] < bound
    requires ps[i].typ.value in rank
    requires R.Make(Emit(s, DebugLevel, ResolvingDependency(ps[i].typ.value, concrete)), ct, ps[i].typ.value, rank)
      == (Ok(o), s1)
    ensures R.Ranked(s1.bindings, s1.instances, ct, rank)
    ensures R.ResolveParams(s, ct, concrete, ps[i..], rank, bound)
      == Prepend([o], R.ResolveParams(s1, ct, concrete, ps[i + 1..], rank, bound))
  {
    R.RankedExtends(Emit(s, DebugLevel, ResolvingDependency(ps[i].typ.value, concrete)), s1, ct, rank);
    assert ps[i..][0] == ps[i] && ps[i..][1..] == ps[i + 1..];
  }

  /** A typed parameter could not be made: the whole loop fails. */
  lemma ParamEachFails(s0: State, s: State, s1: State, ct: ClassTable, concrete: string,
                       ps: seq<Param>, i: nat, args: seq<Obj>, e: Failure, rank: map<Key, nat>, bound: nat)
    requires ParamsMidway(s0, s, ct, concrete, ps, i, args, rank, bound) && i < |ps| && ps[i].typ.Some?
    requires ps[i].typ.value in rank
    requires R.Make(Emit(s, DebugLevel, ResolvingDependency(ps[i].typ.value, concrete)), ct, ps[i].typ.value, rank)
      == (Err(e), s1)
    ensures R.ResolveParams(s0, ct, concrete, ps, rank, bound) == (Err(e), s1)
  {
    ParamRanked(ps, i, rank, bound);
    assert ps[i..][0] == ps[i];
  }

  /** The parameter the loop is at has no type: `make` logs and fails. */
  lemma ParamEachUntyped(s0: State, s: State, ct: ClassTable, concrete: string,
                         ps: seq<Param>, i: nat, args: seq<Obj>, rank: map<Key, nat>, bound: nat)
    requires ParamsMidway(s0, s, ct, concrete, ps, i, args, rank, bound) && i < |ps| && ps[i].typ.None?
    ensures R.ResolveParams(s0, ct, concrete, ps, rank, bound)
      == (Err(UnresolvableParameter(ps[i].name, concrete)),
          Emit(s, ErrorLevel, CannotResolveParameter(ps[i].name, concrete)))
  {
    assert ps[i..][0] == ps[i];
  }

  /** Every parameter was resolved. */
  lemma ParamsDone(s0: State, s: State, ct: ClassTable, concrete: string, ps: seq<Param>,
                   args: seq<Obj>, rank: map<Key, nat>, bound: nat)
    requires ParamsMidway(s0, s, ct, concrete, ps, |ps|, args, rank, bound)
    ensures R.ResolveParams(s0, ct, concrete, ps, rank, bound) == (Ok(args), s)
  {
    assert ps[|ps|..] == [];
    assert args + [] == args;
  }

  /** The closure's dependencies were all made: it builds its object from them. */
  lemma ConstructDone(s0: State, s: State, ct: ClassTable, f: Factory, args: seq<Obj>,
                      rank: map<Key, nat>, bound: nat)
    requires R.Ranked(s0.bindings, s0.instances, ct, rank)
    requires forall d :: d in f.deps ==> d in rank && rank[d] < bound
    requires R.MakeAll(s0, ct, f.deps, rank, bound) == (Ok(args), s)
    ensures R.Construct(s0, ct, f, rank, bound) == (Ok(Obj(s.next, f.cls, args)), s.(next := s.next + 1))
  {
  }

  /** A dependency of a closure failed: the closure fails with its error. */
  lemma ConstructFails(s0: State, s: State, ct: ClassTable, f: Factory, e: Failure,
                       rank: map<Key, nat>, bound: nat)
    requires R.Ranked(s0.bindings, s0.instances, ct, rank)
    requires forall d :: d in f.deps ==> d in rank && rank[d] < bound
    requires R.MakeAll(s0, ct, f.deps, rank, bound) == (Err(e), s)
    ensures R.Construct(s0, ct, f, rank, bound) == (Err(e), s)
  {
  }

  /** A singleton wrapper whose memo is filled answers from it. */
  lemma InvokeMemo(s: State, ct: ClassTable, k: Key, rank: map<Key, nat>)
    requires R.Ranked(s.bindings, s.instances, ct, rank) && k in rank
    requires k !in s.instances && k in s.bindings
    requires s.bindings[k].SingletonBinding? && s.bindings[k].memo.Some?
    ensures var s1 := R.ClosurePrologue(s, k);
      var m := s.bindings[k].memo.value;
      R.Invoke(s, ct, k, rank) == (Ok(m), s1.(instances := s1.instances[k := m]))
  {
  }

  /** A closure, or a singleton wrapper with an empty memo, runs its factory after the
      two log lines, caches the result and, for a singleton, fills the memo. */
  lemma InvokeRuns(s: State, ct: ClassTable, k: Key, rank: map<Key, nat>)
    requires R.Ranked(s.bindings, s.instances, ct, rank) && k in rank
    requires k !in s.instances && k in s.bindings && !s.bindings[k].AliasBinding?
    requires s.bindings[k].SingletonBinding? ==> s.bindings[k].memo.None?
    ensures var s1 := R.ClosurePrologue(s, k);
      var f := s.bindings[k].factory;
      && R.Ranked(s1.bindings, s1.instances, ct, rank)
      && (forall d :: d in f.deps ==> d in rank && rank[d] < rank[k])
      && var (r, s2) := R.Construct(s1, ct, f, rank, rank[k]);
      && R.Invoke(s, ct, k, rank)
         == if r.Err? then (r, s2)
            else if s.bindings[k].ClosureBinding? then (r, s2.(instances := s2.instances[k := r.value]))
            else (r, s2.(bindings := s2.bindings[k := SingletonBinding(f, Some(r.value))],
                         instances := s2.instances[k := r.value]))
  {
    assert R.Deps(s.bindings, s.instances, ct, k) == s.bindings[k].factory.deps;
  }

  /** Reflection on a class that does not exist fails without logging. */
  lemma ReflectMissing(s: State, ct: ClassTable, k: Key, concrete: string, rank: map<Key, nat>)
    requires R.Ranked(s.bindings, s.instances, ct, rank) && k in rank && k !in s.instances
    requires concrete !in ct
    ensures R.Reflect(s, ct, k, concrete, rank) == (Err(ClassNotFound(concrete)), s)
  {
  }

  /** A class without a constructor is logged twice and is not callable. */
  lemma ReflectNoConstructor(s: State, ct: ClassTable, k: Key, concrete: string, rank: map<Key, nat>)
    requires R.Ranked(s.bindings, s.instances, ct, rank) && k in rank && k !in s.instances
    requires concrete in ct && ct[concrete].NoConstructor?
    ensures R.Reflect(s, ct, k, concrete, rank)
      == (Err(NotCallable(concrete)),
          Emit(Emit(s, DebugLevel, ResolvingWithoutConstructor(k)), DebugLevel, ResolvingUsing(k, ReflectionCallable)))
  {
  }

  /** A class with a constructor: reflection fails with the first failure among its
      parameters, or builds an object from them and caches it. */
  lemma ReflectByParams(s0: State, ct: ClassTable, k: Key, concrete: string, rank: map<Key, nat>)
    requires R.Ranked(s0.bindings, s0.instances, ct, rank) && k in rank && k !in s0.instances
    requires concrete in ct && ct[concrete].Constructor?
    requires forall d :: d in R.ClassDeps(ct, concrete) ==> d in rank && rank[d] < rank[k]
    ensures var (a, s) := R.ResolveParams(s0, ct, concrete, ct[concrete].params, rank, rank[k]);
      R.Reflect(s0, ct, k, concrete, rank)
      == if a.Err? then (Err(a.failure), s)
         else (Ok(Obj(s.next, concrete, a.value)), R.Instantiate(s, k, concrete, a.value))
  {
  }

  class Container {
    var bindings: map<Key, Binding>
    var instances: map<Key, Obj>
    var next: nat
    var logging: bool
    var log: seq<LogEntry>

    /** The container's fields as a value of the model. */
    function Model(): State
      reads this
    {
      State(bindings, instances, next, logging, log)
    }

    /** `new Container()`: nothing bound, nothing resolved, no logger. */
    constructor ()
      ensures Model() == ContainerState.Empty()
      ensures Allocated(Model())
    {
      bindings := map[];
      instances := map[];
      next := 0;
      logging := false;
      log := [];
    }

    /** `setLogger($logger)`. */
    method SetLogger()
      modifies this
      ensures Model() == ContainerState.SetLogger(old(Model()))
    {
      logging := true;
    }

    /** `getLogger()`: whether a logger is set. */
    method GetLogger() returns (present: bool)
      ensures present == logging
    {
      present := logging;
    }

    /** `logDebug($message)`. */
    method LogDebug(msg: Message)
      modifies this
      ensures Model() == ContainerState.Emit(old(Model()), DebugLevel, msg)
    {
      if logging {
        log := log + [LogEntry(DebugLevel, msg)];
      }
    }

    /** `logError($message)`. */
    method LogError(msg: Message)
      modifies this
      ensures Model() == ContainerState.Emit(old(Model()), ErrorLevel, msg)
    {
      if logging {
        log := log + [LogEntry(ErrorLevel, msg)];
      }
    }

    /** `bind($abstract, $concreto)`. */
    method Bind(k: Key, f: Factory)
      modifies this
      ensures Model() == ContainerState.Bind(old(Model()), k, f)
    {
      LogDebug(BindingClosure(k));
      bindings := bindings[k := ClosureBinding(f)];
    }

    /** `alias($alias, $abstract)`. */
    method Alias(a: Key, target: Key)
      modifies this
      ensures Model() == ContainerState.Alias(old(Model()), a, target)
    {
      LogDebug(CreatingAlias(a, target));
      bindings := bindings[a := AliasBinding(target)];
    }

    /** `singleton($abstract, $concreto)`: a wrapper whose memo is still empty. */
    method Singleton(k: Key, f: Factory)
      modifies this
      ensures Model() == ContainerState.Singleton(old(Model()), k, f)
    {
      LogDebug(BindingSingleton(k));
      bindings := bindings[k := SingletonBinding(f, None)];
    }

    /** `has($id)`. */
    method Has(k: Key) returns (b: bool)
      modifies this
      ensures b == ContainerState.Has(old(Model()), k)
      ensures Model() == ContainerState.HasQuery(old(Model()), k)
    {
      var hasBinding := k in bindings;
      var hasInstance := k in instances;
      if hasBinding {
        LogDebug(HasBindingFor(k));
      } else if hasInstance {
        LogDebug(HasInstanceFor(k));
      } else {
        LogDebug(DoesNotHave(k));
      }
      b := hasBinding || hasInstance;
    }

    /** `remove($abstract)`. */
    method Remove(k: Key)
      modifies this
      ensures Model() == ContainerState.Remove(old(Model()), k)
    {
      LogDebug(Removing(k));
      instances := instances - {k};
      bindings := bindings - {k};
    }

    /** `clear()`. */
    method Clear()
      modifies this
      ensures Model() == ContainerState.Clear(old(Model()))
    {
      LogDebug(Clearing);
      instances := map[];
      bindings := map[];
    }

    /** `get($id)`. */
    method Get(ct: ClassTable, k: Key, ghost rank: map<Key, nat>) returns (r: Result<Obj>)
      requires R.Ranked(bindings, instances, ct, rank) && k in rank
      modifies this
      ensures (r, Model()) == R.Get(old(Model()), ct, k, rank)
    {
      LogDebug(ResolvingViaGet(k));
      r := Make(ct, k, rank);
    }

    /** `make($abstract)`: the cache, then a closure, then reflection on the class name. */
    method Make(ct: ClassTable, k: Key, ghost rank: map<Key, nat>) returns (r: Result<Obj>)
      requires R.Ranked(bindings, instances, ct, rank) && k in rank
      modifies this
      ensures (r, Model()) == R.Make(old(Model()), ct, k, rank)
      decreases rank[k], 3, 0
    {
      if k in instances {
        return Ok(instances[k]);
      }
      if k in bindings && !bindings[k].AliasBinding? {
        ghost var s0 := Model();
        LogDebug(ResolvingWithClosure(k));
        r := ResolverInstancia(ct, k, s0, rank);
        return;
      }
      var concrete := if k in bindings then bindings[k].target else k;
      R.RankedAt(Model(), ct, k, rank);
      r := MakeByReflection(ct, k, concrete, rank);
    }

    /** `resolverInstancia($abstract, $closure)`: log, invoke the closure bound to `k`
        with the container (a singleton wrapper answers from its memo once filled),
        and cache the result under `k`. `s0` is the state before `make` logged. */
    method ResolverInstancia(ct: ClassTable, k: Key, ghost s0: State, ghost rank: map<Key, nat>)
      returns (r: Result<Obj>)
      requires R.Ranked(s0.bindings, s0.instances, ct, rank) && k in rank
      requires k !in s0.instances && k in s0.bindings && !s0.bindings[k].AliasBinding?
      requires Model() == ContainerState.Emit(s0, DebugLevel, ResolvingWithClosure(k))
      modifies this
      ensures (r, Model()) == R.Invoke(s0, ct, k, rank)
      decreases rank[k], 2, 0
    {
      LogDebug(ResolvingUsing(k, ClosureCallable));
      var b := bindings[k];
      if b.SingletonBinding? && b.memo.Some? {
        InvokeMemo(s0, ct, k, rank);
        r := Ok(b.memo.value);
        Cache(k, b.memo.value);
        return;
      }
      InvokeRuns(s0, ct, k, rank);
      r := Construct(ct, b.factory, rank, rank[k]);
      if r.Ok? {
        if b.SingletonBinding? {
          Memoise(k, b.factory, r.value);
        }
        Cache(k, r.value);
      }
    }

    /** `$this->instances[$abstract] = $instance`. */
    method Cache(k: Key, o: Obj)
      modifies this
      ensures Model() == old(Model()).(instances := old(instances)[k := o])
    {
      instances := instances[k := o];
    }

    /** The singleton wrapper's `static $instance = ...`: its memo now holds `o`. */
    method Memoise(k: Key, f: Factory, o: Obj)
      modifies this
      ensures Model() == old(Model()).(bindings := old(bindings)[k := SingletonBinding(f, Some(o))])
    {
      bindings := bindings[k := SingletonBinding(f, Some(o))];
    }

    /** What a registered closure does: `make` each dependency in order, then build a new
        object from the results. */
    method Construct(ct: ClassTable, f: Factory, ghost rank: map<Key, nat>, ghost bound: nat)
      returns (r: Result<Obj>)
      requires R.Ranked(bindings, instances, ct, rank)
      requires forall d :: d in f.deps ==> d in rank && rank[d] < bound
      modifies this
      ensures (r, Model()) == R.Construct(old(Model()), ct, f, rank, bound)
      decreases bound, 1, 0
    {
      ghost var s0 := Model();
      var args := MakeEach(ct, f.deps, rank, bound);
      if args.Err? {
        ConstructFails(s0, Model(), ct, f, args.failure, rank, bound);
        return Err(args.failure);
      }
      ConstructDone(s0, Model(), ct, f, args.value, rank, bound);
      r := Ok(Obj(next, f.cls, args.value));
      next := next + 1;
    }

    /** `make` of each key in turn, stopping at the first failure. */
    method MakeEach(ct: ClassTable, ks: seq<Key>, ghost rank: map<Key, nat>, ghost bound: nat)
      returns (r: Result<seq<Obj>>)
      requires R.Ranked(bindings, instances, ct, rank)
      requires forall d :: d in ks ==> d in rank && rank[d] < bound
      modifies this
      ensures (r, Model()) == R.MakeAll(old(Model()), ct, ks, rank, bound)
      decreases bound, 0, |ks|
    {
      ghost var s0 := Model();
      MakeEachStart(s0, ct, ks, rank, bound);
      var args: seq<Obj> := [];
      var i := 0;
      while i < |ks|
        invariant MakeMidway(s0, Model(), ct, ks, i, args, rank, bound)
        decreases |ks| - i
      {
        ghost var si := Model();
        assert ks[i] in ks;
        var d := Make(ct, ks[i], rank);
        if d.Err? {
          MakeEachFails(s0, si, Model(), ct, ks, i, args, d.failure, rank, bound);
          return Err(d.failure);
        }
        MakeEachStep(s0, si, Model(), ct, ks, i, args, d.value, rank, bound);
        args := args + [d.value];
        i := i + 1;
      }
      MakeEachDone(s0, Model(), ct, ks, args, rank, bound);
      r := Ok(args);
    }

    /** The part of `make` after the closure check: reflection on `concrete`, the
        constructor's parameters, `newInstanceArgs` and caching under `k`. */
    method MakeByReflection(ct: ClassTable, k: Key, concrete: string, ghost rank: map<Key, nat>)
      returns (r: Result<Obj>)
      requires R.Ranked(bindings, instances, ct, rank) && k in rank && k !in instances
      requires forall d :: d in R.ClassDeps(ct, concrete) ==> d in rank && rank[d] < rank[k]
      modifies this
      ensures (r, Model()) == R.Reflect(old(Model()), ct, k, concrete, rank)
      decreases rank[k], 2, 0
    {
      if concrete !in ct {
        ReflectMissing(Model(), ct, k, concrete, rank);
        return Err(ClassNotFound(concrete));
      }
      if ct[concrete].NoConstructor? {
        ReflectNoConstructor(Model(), ct, k, concrete, rank);
        LogDebug(ResolvingWithoutConstructor(k));
        LogDebug(ResolvingUsing(k, ReflectionCallable));
        return Err(NotCallable(concrete));
      }
      r := NewInstance(ct, k, concrete, rank);
    }

    /** A class with a constructor: resolve its parameters, then `newInstanceArgs`, cache
        the new object under `k` and log the success. */
    method NewInstance(ct: ClassTable, k: Key, concrete: string, ghost rank: map<Key, nat>)
      returns (r: Result<Obj>)
      requires R.Ranked(bindings, instances, ct, rank) && k in rank && k !in instances
      requires concrete in ct && ct[concrete].Constructor?
      requires forall d :: d in R.ClassDeps(ct, concrete) ==> d in rank && rank[d] < rank[k]
      modifies this
      ensures (r, Model()) == R.Reflect(old(Model()), ct, k, concrete, rank)
      decreases rank[k], 1, 0
    {
      ReflectByParams(Model(), ct, k, concrete, rank);
      var args := ResolveParameters(ct, concrete, ct[concrete].params, rank, rank[k]);
      if args.Err? {
        return Err(args.failure);
      }
      r := Instantiate(k, concrete, args.value);
    }

    /** `newInstanceArgs`, caching the new object under `k`, and the success message. */
    method Instantiate(k: Key, concrete: string, args: seq<Obj>) returns (r: Result<Obj>)
      modifies this
      ensures r == Ok(Obj(old(next), concrete, args))
      ensures Model() == R.Instantiate(old(Model()), k, concrete, args)
    {
      var o := Obj(next, concrete, args);
      next := next + 1;
      instances := instances[k := o];
      LogDebug(ResolvedSuccessfully(k));
      r := Ok(o);
    }

    /** The loop over the constructor's parameters: an untyped one is logged and fails,
        a typed one is logged and made. */
    method ResolveParameters(ct: ClassTable, concrete: string, ps: seq<Param>,
                             ghost rank: map<Key, nat>, ghost bound: nat)
      returns (r: Result<seq<Obj>>)
      requires R.Ranked(bindings, instances, ct, rank)
      requires forall d :: d in R.TypedPrefix(ps) ==> d in rank && rank[d] < bound
      modifies this
      ensures (r, Model()) == R.ResolveParams(old(Model()), ct, concrete, ps, rank, bound)
      decreases bound, 0, |ps|
    {
      ghost var s0 := Model();
      ParamsStart(s0, ct, concrete, ps, rank, bound);
      var args: seq<Obj> := [];
      var i := 0;
      while i < |ps|
        invariant ParamsMidway(s0, Model(), ct, concrete, ps, i, args, rank, bound)
        decreases |ps| - i
      {
        if ps[i].typ.None? {
          ParamEachUntyped(s0, Model(), ct, concrete, ps, i, args, rank, bound);
          LogError(CannotResolveParameter(ps[i].name, concrete));
          return Err(UnresolvableParameter(ps[i].name, concrete));
        }
        var d := ResolveParameter(ct, concrete, ps, i, args, s0, rank, bound);
        if d.Err? {
          return Err(d.failure);
        }
        args := args + [d.value];
        i := i + 1;
      }
      ParamsDone(s0, Model(), ct, concrete, ps, args, rank, bound);
      r := Ok(args);
    }

    /** One turn of the `foreach` on a typed parameter: log it and make its type. */
    method ResolveParameter(ct: ClassTable, concrete: string, ps: seq<Param>, i: nat, args: seq<Obj>,
                            ghost s0: State, ghost rank: map<Key, nat>, ghost bound: nat)
      returns (d: Result<Obj>)
      requires ParamsMidway(s0, Model(), ct, concrete, ps, i, args, rank, bound)
      requires i < |ps| && ps[i].typ.Some?
      modifies this
      ensures d.Err? ==> R.ResolveParams(s0, ct, concrete, ps, rank, bound) == (Err(d.failure), Model())
      ensures d.Ok? ==> ParamsMidway(s0, Model(), ct, concrete, ps, i + 1, args + [d.value], rank, bound)
      decreases bound, 0, 0
    {
      var t := ps[i].typ.value;
      ghost var si := Model();
      ParamRanked(ps, i, rank, bound);
      LogDebug(ResolvingDependency(t, concrete));
      d := Make(ct, t, rank);
      if d.Err? {
        ParamEachFails(s0, si, Model(), ct, concrete, ps, i, args, d.failure, rank, bound);
      } else {
        ParamEachStep(s0, si, Model(), ct, concrete, ps, i, args, d.value, rank, bound);
      }
    }
  }
}
