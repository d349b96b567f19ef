/** What src/Container.php promises about `make` and the registration operations,
    proved of the model in ContainerState and Resolution. */
module ContainerProperties {
  import opened ContainerState
  import opened Resolution

  // ---------------------------------------------------------------------------
  // Object identity: every object `make` builds is new.
  // ---------------------------------------------------------------------------

  /** The registration operations and the logger keep every held identity below `next`. */
  lemma RegistrationAllocated(s: State, k: Key, t: Key, f: Factory)
    requires Allocated(s)
    ensures Allocated(Bind(s, k, f)) && Allocated(Singleton(s, k, f)) && Allocated(Alias(s, k, t))
    ensures Allocated(HasQuery(s, k)) && Allocated(Remove(s, k)) && Allocated(Clear(s))
    ensures Allocated(SetLogger(s))
  {
    BindAllocated(s, k, f);
    var g := Alias(s, k, t);
    forall j | j in g.bindings && g.bindings[j].SingletonBinding? && g.bindings[j].memo.Some?
      ensures g.bindings[j].memo.value.id < g.next
    {
      assert j != k;
    }
    var n := Singleton(s, k, f);
    forall j | j in n.bindings && n.bindings[j].SingletonBinding? && n.bindings[j].memo.Some?
      ensures n.bindings[j].memo.value.id < n.next
    {
      assert j != k;
    }
    var r := Remove(s, k);
    forall j | j in r.bindings && r.bindings[j].SingletonBinding? && r.bindings[j].memo.Some?
      ensures r.bindings[j].memo.value.id < r.next
    {
      assert j != k;
    }
    forall j | j in r.instances ensures r.instances[j].id < r.next {
      assert j != k;
    }
  }

  lemma BindAllocated(s: State, k: Key, f: Factory)
    requires Allocated(s)
    ensures Allocated(Bind(s, k, f))
  {
    var b := Bind(s, k, f);
    forall j | j in b.bindings && b.bindings[j].SingletonBinding? && b.bindings[j].memo.Some?
      ensures b.bindings[j].memo.value.id < b.next
    {
      assert j != k;
    }
  }

  /** `make` keeps every held identity below `next`. */
  lemma {:induction false} MakeAllocated(s: State, ct: ClassTable, k: Key, rank: map<Key, nat>)
    requires Ranked(s.bindings, s.instances, ct, rank) && k in rank && Allocated(s)
    ensures Allocated(Make(s, ct, k, rank).1)
    decreases rank[k], 3, 0
  {
    if k in s.instances {
    } else if k in s.bindings && !s.bindings[k].AliasBinding? {
      InvokeAllocated(s, ct, k, rank);
    } else {
      var concrete := if k in s.bindings then s.bindings[k].target else k;
      RankedAt(s, ct, k, rank);
      ReflectAllocated(s, ct, k, concrete, rank);
    }
  }

  lemma {:induction false} InvokeAllocated(s: State, ct: ClassTable, k: Key, rank: map<Key, nat>)
    requires Ranked(s.bindings, s.instances, ct, rank) && k in rank && Allocated(s)
    requires k !in s.instances && k in s.bindings && !s.bindings[k].AliasBinding?
    ensures Allocated(Invoke(s, ct, k, rank).1)
    decreases rank[k], 2, 1
  {
    var f := s.bindings[k].factory;
    assert Deps(s.bindings, s.instances, ct, k) == f.deps || Memoised(s, k);
    if s.bindings[k].ClosureBinding? {
      ConstructAllocated(ClosurePrologue(s, k), ct, f, rank, rank[k]);
    } else if !Memoised(s, k) {
      SingletonAllocated(s, ct, k, f, rank);
    }
  }

  lemma {:induction false} SingletonAllocated(s: State, ct: ClassTable, k: Key, f: Factory, rank: map<Key, nat>)
    requires Ranked(s.bindings, s.instances, ct, rank) && k in rank && Allocated(s)
    requires k !in s.instances && k in s.bindings && s.bindings[k] == SingletonBinding(f, None)
    requires forall d :: d in f.deps ==> d in rank && rank[d] < rank[k]
    ensures Allocated(Invoke(s, ct, k, rank).1)
    decreases rank[k], 2, 0
  {
    var s1 := ClosurePrologue(s, k);
    ConstructAllocated(s1, ct, f, rank, rank[k]);
    var (r, s2) := Construct(s1, ct, f, rank, rank[k]);
    if r.Ok? {
      StoreMemoAllocated(s2, k, f, r.value);
    }
  }

  /** Filling a singleton's memo with an object below `next` keeps `Allocated`. */
  lemma StoreMemoAllocated(s: State, k: Key, f: Factory, o: Obj)
    requires Allocated(s) && o.id < s.next
    ensures Allocated(s.(bindings := s.bindings[k := SingletonBinding(f, Some(o))],
                         instances := s.instances[k := o]))
  {
    var s' := s.(bindings := s.bindings[k := SingletonBinding(f, Some(o))], instances := s.instances[k := o]);
    forall j | j in s'.bindings && s'.bindings[j].SingletonBinding? && s'.bindings[j].memo.Some?
      ensures s'.bindings[j].memo.value.id < s'.next
    {
      if j != k {
        assert s'.bindings[j] == s.bindings[j];
      }
    }
  }

  lemma {:induction false} ConstructAllocated(s: State, ct: ClassTable, f: Factory, rank: map<Key, nat>,
                                              bound: nat)
    requires Ranked(s.bindings, s.instances, ct, rank) && Allocated(s)
    requires forall d :: d in f.deps ==> d in rank && rank[d] < bound
    ensures Allocated(Construct(s, ct, f, rank, bound).1)
    decreases bound, 1, 0
  {
    MakeAllAllocated(s, ct, f.deps, rank, bound);
  }

  lemma {:induction false} MakeAllAllocated(s: State, ct: ClassTable, ks: seq<Key>, rank: map<Key, nat>,
                                            bound: nat)
    requires Ranked(s.bindings, s.instances, ct, rank) && Allocated(s)
    requires forall d :: d in ks ==> d in rank && rank[d] < bound
    ensures Allocated(MakeAll(s, ct, ks, rank, bound).1)
    decreases bound, 0, |ks|
  {
    if ks != [] {
      MakeAllocated(s, ct, ks[0], rank);
      var (r, s1) := Make(s, ct, ks[0], rank);
      if r.Ok? {
        RankedExtends(s, s1, ct, rank);
        MakeAllAllocated(s1, ct, ks[1..], rank, bound);
      }
    }
  }

  lemma {:induction false} ReflectAllocated(s: State, ct: ClassTable, k: Key, concrete: string,
                                            rank: map<Key, nat>)
    requires Ranked(s.bindings, s.instances, ct, rank) && k in rank && k !in s.instances && Allocated(s)
    requires forall d :: d in ClassDeps(ct, concrete) ==> d in rank && rank[d] < rank[k]
    ensures Allocated(Reflect(s, ct, k, concrete, rank).1)
    decreases rank[k], 2, 0
  {
    if concrete in ct && ct[concrete].Constructor? {
      var ps := ct[concrete].params;
      ResolveParamsAllocated(s, ct, concrete, ps, rank, rank[k]);
    }
  }

  lemma {:induction false} ResolveParamsAllocated(s: State, ct: ClassTable, concrete: string, ps: seq<Param>,
                                                  rank: map<Key, nat>, bound: nat)
    requires Ranked(s.bindings, s.instances, ct, rank) && Allocated(s)
    requires forall d :: d in TypedPrefix(ps) ==> d in rank && rank[d] < bound
    ensures Allocated(ResolveParams(s, ct, concrete, ps, rank, bound).1)
    decreases bound, 0, |ps|
  {
    if ps != [] && ps[0].typ.Some? {
      var t := ps[0].typ.value;
      var s0 := Emit(s, DebugLevel, ResolvingDependency(t, concrete));
      PrefixRanked(ps, rank, bound);
      MakeAllocated(s0, ct, t, rank);
      var (r, s1) := Make(s0, ct, t, rank);
      if r.Ok? {
        RankedExtends(s0, s1, ct, rank);
        ResolveParamsAllocated(s1, ct, concrete, ps[1..], rank, bound);
      }
    }
  }

  /** An object `make` builds anew is none of the objects the container held before,
      and the container still holds only identities below `next`. */
  lemma MakeBuildsNew(s: State, ct: ClassTable, k: Key, rank: map<Key, nat>)
    requires Ranked(s.bindings, s.instances, ct, rank) && k in rank && Allocated(s)
    requires k !in s.instances && !Memoised(s, k)
    ensures var out := Make(s, ct, k, rank);
      && Allocated(out.1)
      && (out.0.Ok? ==> forall j :: j in s.instances ==> s.instances[j].id != out.0.value.id)
  {
    MakeAllocated(s, ct, k, rank);
  }

  /** After `remove(k)`, making `k` again gives a different object from the one removed. */
  lemma RemoveThenMakeIsFresh(s: State, ct: ClassTable, k: Key, rank: map<Key, nat>)
    requires Ranked(s.bindings, s.instances, ct, rank) && k in rank && Allocated(s)
    requires var out := Make(s, ct, k, rank);
      out.0.Ok? && Ranked(Remove(out.1, k).bindings, Remove(out.1, k).instances, ct, rank)
    ensures var out := Make(s, ct, k, rank);
      var again := Make(Remove(out.1, k), ct, k, rank);
      again.0.Ok? ==> again.0.value.id != out.0.value.id
  {
    MakeAllocated(s, ct, k, rank);
  }

  // ---------------------------------------------------------------------------
  // The cache: a resolved key always answers with the same object.
  // ---------------------------------------------------------------------------

  /** A cached key is returned as it is, and nothing changes. */
  lemma CacheHit(s: State, ct: ClassTable, k: Key, rank: map<Key, nat>)
    requires Ranked(s.bindings, s.instances, ct, rank) && k in rank && k in s.instances
    ensures Make(s, ct, k, rank) == (Ok(s.instances[k]), s)
  {
  }

  /** A second `make(k)` after a successful one returns the identical object and
      leaves the state as the first left it, whatever `k` is bound to. */
  lemma MakeTwice(s: State, ct: ClassTable, k: Key, rank: map<Key, nat>)
    requires Ranked(s.bindings, s.instances, ct, rank) && k in rank
    ensures var out := Make(s, ct, k, rank);
      out.0.Ok? ==> Ranked(out.1.bindings, out.1.instances, ct, rank) && Make(out.1, ct, k, rank) == out
  {
    var out := Make(s, ct, k, rank);
    RankedExtends(s, out.1, ct, rank);
  }

  /** The same for `get`: a second `get(k)` returns the object the first returned. */
  lemma GetTwice(s: State, ct: ClassTable, k: Key, rank: map<Key, nat>)
    requires Ranked(s.bindings, s.instances, ct, rank) && k in rank
    ensures var out := Get(s, ct, k, rank);
      out.0.Ok? ==> Ranked(out.1.bindings, out.1.instances, ct, rank) && Get(out.1, ct, k, rank).0 == out.0
  {
    var s0 := Emit(s, DebugLevel, ResolvingViaGet(k));
    var out := Get(s, ct, k, rank);
    EmitGrows(s, DebugLevel, ResolvingViaGet(k), rank);
    ExtendsTransitive(s, s0, out.1);
    RankedExtends(s, out.1, ct, rank);
  }

  /** Re-binding a key that is already resolved changes nothing `make` returns:
      the cache is checked before the bindings. */
  lemma CacheWinsOverRebind(s: State, ct: ClassTable, k: Key, f: Factory, rank: map<Key, nat>)
    requires k in s.instances && k in rank
    requires Ranked(Bind(s, k, f).bindings, Bind(s, k, f).instances, ct, rank)
    ensures Make(Bind(s, k, f), ct, k, rank).0 == Ok(s.instances[k])
  {
  }

  // ---------------------------------------------------------------------------
  // Closures and singletons.
  // ---------------------------------------------------------------------------

  /** Binding twice before the first `make`: the second binding replaces the first, the
      second closure is the one invoked (its dependencies are what the object is built
      from), and what it returns is a new object. */
  lemma RebindLastWins(s: State, ct: ClassTable, k: Key, f1: Factory, f2: Factory, rank: map<Key, nat>)
    requires k !in s.instances && k in rank && Allocated(s)
    requires var s2 := Bind(Bind(s, k, f1), k, f2); Ranked(s2.bindings, s2.instances, ct, rank)
    ensures var out := Make(Bind(Bind(s, k, f1), k, f2), ct, k, rank);
      && Bind(Bind(s, k, f1), k, f2).bindings == Bind(s, k, f2).bindings
      && (out.0.Ok? ==>
        && out.0.value.cls == f2.cls
        && Injected(out.1.instances, f2.deps, out.0.value.args)
        && Has(out.1, k)
        && forall j :: j in s.instances ==> s.instances[j].id != out.0.value.id)
  {
    var s2 := Bind(Bind(s, k, f1), k, f2);
    assert s2.bindings == s.bindings[k := ClosureBinding(f2)] == Bind(s, k, f2).bindings;
    BindAllocated(s, k, f1);
    BindAllocated(Bind(s, k, f1), k, f2);
    MakeBuildsNew(s2, ct, k, rank);
    ClosureInjects(s2, ct, k, f2, rank);
  }

  /** A closure is invoked with the container once: its dependencies are made in order,
      a new object of its class is built from them and cached under the requested key. */
  lemma ClosureInjects(s: State, ct: ClassTable, k: Key, f: Factory, rank: map<Key, nat>)
    requires Ranked(s.bindings, s.instances, ct, rank) && k in rank
    requires k !in s.instances && k in s.bindings && s.bindings[k] == ClosureBinding(f)
    ensures var out := Make(s, ct, k, rank);
      out.0.Ok? ==>
        && out.0.value.cls == f.cls
        && Injected(out.1.instances, f.deps, out.0.value.args)
        && k in out.1.instances && out.1.instances[k] == out.0.value
        && s.next <= out.0.value.id
  {
    assert Make(s, ct, k, rank) == Invoke(s, ct, k, rank);
  }

  /** A closure (or a singleton wrapper whose memo is empty) that makes nothing builds
      exactly one new object; the trace gets the two messages logged before the closure
      is invoked. */
  lemma ClosureWithoutDependencies(s: State, ct: ClassTable, k: Key, f: Factory, rank: map<Key, nat>)
    requires Ranked(s.bindings, s.instances, ct, rank) && k in rank
    requires k !in s.instances && k in s.bindings && f.deps == []
    requires s.bindings[k] == ClosureBinding(f) || s.bindings[k] == SingletonBinding(f, None)
    ensures var out := Make(s, ct, k, rank);
      && out.0 == Ok(Obj(s.next, f.cls, []))
      && out.1.instances == s.instances[k := Obj(s.next, f.cls, [])]
      && out.1.next == s.next + 1
      && out.1.log == ClosurePrologue(s, k).log
  {
    ConstructNothing(ClosurePrologue(s, k), ct, f, rank, rank[k]);
    assert Make(s, ct, k, rank) == Invoke(s, ct, k, rank);
  }

  /** A factory that makes nothing allocates one object and changes nothing else. */
  lemma ConstructNothing(s: State, ct: ClassTable, f: Factory, rank: map<Key, nat>, bound: nat)
    requires Ranked(s.bindings, s.instances, ct, rank) && f.deps == []
    ensures Construct(s, ct, f, rank, bound) == (Ok(Obj(s.next, f.cls, [])), s.(next := s.next + 1))
  {
    var all := MakeAll(s, ct, f.deps, rank, bound);
    assert all.0 == Ok([]) && all.1 == s;
  }

  /** A closure making exactly one key: the object it builds holds what that `make`
      returned, and it is built after it. */
  lemma ClosureWithOneDependency(s: State, ct: ClassTable, k: Key, f: Factory, rank: map<Key, nat>)
    requires Ranked(s.bindings, s.instances, ct, rank) && k in rank
    requires k !in s.instances && k in s.bindings && s.bindings[k] == ClosureBinding(f)
    requires |f.deps| == 1 && f.deps[0] in rank
    ensures var inner := Make(ClosurePrologue(s, k), ct, f.deps[0], rank);
      var out := Make(s, ct, k, rank);
      inner.0.Ok? ==>
        && out.0 == Ok(Obj(inner.1.next, f.cls, [inner.0.value]))
        && out.1.next == inner.1.next + 1
        && out.1.instances == inner.1.instances[k := Obj(inner.1.next, f.cls, [inner.0.value])]
  {
    var s1 := ClosurePrologue(s, k);
    assert Deps(s.bindings, s.instances, ct, k) == f.deps;
    var (r, s2) := Make(s1, ct, f.deps[0], rank);
    if r.Ok? {
      MakeAllOne(s1, ct, f.deps[0], rank, rank[k]);
      assert f.deps == [f.deps[0]];
      assert Construct(s1, ct, f, rank, rank[k]) == (Ok(Obj(s2.next, f.cls, [r.value])), s2.(next := s2.next + 1));
      assert Make(s, ct, k, rank) == Invoke(s, ct, k, rank);
    }
  }

  /** Making a one-key list is making that key. */
  lemma MakeAllOne(s: State, ct: ClassTable, k: Key, rank: map<Key, nat>, bound: nat)
    requires Ranked(s.bindings, s.instances, ct, rank) && k in rank && rank[k] < bound
    ensures var (r, s1) := Make(s, ct, k, rank);
      MakeAll(s, ct, [k], rank, bound) == (if r.Ok? then Ok([r.value]) else Err(r.failure), s1)
  {
    var (r, s1) := Make(s, ct, k, rank);
    assert [k][1..] == [];
    if r.Ok? {
      RankedExtends(s, s1, ct, rank);
      assert MakeAll(s1, ct, [], rank, bound) == (Ok([]), s1);
      assert [r.value] + [] == [r.value];
      assert [k][0] == k;
    }
  }

  /** The first `make` of a singleton runs its factory and fills the wrapper's memo
      with the object it returns. */
  lemma SingletonFillsMemo(s: State, ct: ClassTable, k: Key, f: Factory, rank: map<Key, nat>)
    requires Ranked(s.bindings, s.instances, ct, rank) && k in rank
    requires k !in s.instances && k in s.bindings && s.bindings[k] == SingletonBinding(f, None)
    ensures var out := Make(s, ct, k, rank);
      out.0.Ok? ==>
        && out.0.value.cls == f.cls
        && k in out.1.bindings && out.1.bindings[k] == SingletonBinding(f, Some(out.0.value))
  {
    var s1 := ClosurePrologue(s, k);
    var (r, s2) := Construct(s1, ct, f, rank, rank[k]);
    assert Make(s, ct, k, rank) == Invoke(s, ct, k, rank);
    if r.Ok? {
      assert Invoke(s, ct, k, rank).1.bindings[k] == SingletonBinding(f, Some(r.value));
    }
  }

  /** A singleton whose memo is filled answers with the memo: its factory does not run
      again, no object is built and no dependency is made. No modelled operation leaves a
      filled memo with the key uncached (the memo and the cache are filled together, and
      `remove`/`clear` drop both), so a repeated `make` is answered by the cache first
      (`MakeTwice`); this lemma states what the wrapper itself does. */
  lemma SingletonRunsOnce(s: State, ct: ClassTable, k: Key, f: Factory, o: Obj, rank: map<Key, nat>)
    requires Ranked(s.bindings, s.instances, ct, rank) && k in rank
    requires k !in s.instances && k in s.bindings && s.bindings[k] == SingletonBinding(f, Some(o))
    ensures var out := Make(s, ct, k, rank);
      out.0 == Ok(o) && out.1.next == s.next && out.1.bindings == s.bindings
      && out.1.instances == s.instances[k := o]
  {
  }

  /** An error inside a closure's nested `make` calls, at whatever position, reaches the
      caller unchanged: `make(k)` fails exactly when making the closure's dependencies in
      order fails, with that failure and the state it left (dependencies made before the
      failing one stay cached), and `k` stays uncached. */
  lemma DependencyErrorPropagates(s: State, ct: ClassTable, k: Key, f: Factory, rank: map<Key, nat>)
    requires Ranked(s.bindings, s.instances, ct, rank) && k in rank
    requires k !in s.instances && k in s.bindings
    requires s.bindings[k] == ClosureBinding(f) || s.bindings[k] == SingletonBinding(f, None)
    ensures forall d :: d in f.deps ==> d in rank && rank[d] < rank[k]
    ensures var deps := MakeAll(ClosurePrologue(s, k), ct, f.deps, rank, rank[k]);
      var out := Make(s, ct, k, rank);
      && (out.0.Err? <==> deps.0.Err?)
      && (deps.0.Err? ==> out == (Err(deps.0.failure), deps.1) && k !in out.1.instances)
  {
    assert Deps(s.bindings, s.instances, ct, k) == f.deps;
    var s1 := ClosurePrologue(s, k);
    var deps := MakeAll(s1, ct, f.deps, rank, rank[k]);
    var c := Construct(s1, ct, f, rank, rank[k]);
    assert c.0.Err? <==> deps.0.Err?;
    assert deps.0.Err? ==> c == (Err(deps.0.failure), deps.1);
    assert Make(s, ct, k, rank) == Invoke(s, ct, k, rank);
  }

  // ---------------------------------------------------------------------------
  // Reflection: unbound keys and alias targets.
  // ---------------------------------------------------------------------------

  /** An unbound key that names no class fails with "Class does not exist", and nothing
      changes (not even the trace). */
  lemma UnknownClass(s: State, ct: ClassTable, k: Key, rank: map<Key, nat>)
    requires Ranked(s.bindings, s.instances, ct, rank) && k in rank
    requires !Has(s, k) && k !in ct
    ensures Make(s, ct, k, rank) == (Err(ClassNotFound(k)), s)
  {
  }

  /** A class without a constructor (declared or inherited) fails: the container invokes the reflection
      object itself as a callable. The key stays unresolved. */
  lemma NoConstructorFails(s: State, ct: ClassTable, k: Key, rank: map<Key, nat>)
    requires Ranked(s.bindings, s.instances, ct, rank) && k in rank
    requires !Has(s, k) && k in ct && ct[k] == NoConstructor
    ensures var out := Make(s, ct, k, rank);
      out.0 == Err(NotCallable(k)) && out.1.instances == s.instances && out.1.next == s.next
  {
  }

  /** A class whose constructor takes no parameters gets a new object, cached under the key. */
  lemma EmptyConstructor(s: State, ct: ClassTable, k: Key, rank: map<Key, nat>)
    requires Ranked(s.bindings, s.instances, ct, rank) && k in rank
    requires !Has(s, k) && k in ct && ct[k] == Constructor([])
    ensures var out := Make(s, ct, k, rank);
      && out.0 == Ok(Obj(s.next, k, []))
      && out.1.instances == s.instances[k := Obj(s.next, k, [])]
      && out.1.next == s.next + 1
  {
    assert Make(s, ct, k, rank) == Reflect(s, ct, k, k, rank);
    assert ResolveParams(s, ct, k, [], rank, rank[k]) == (Ok([]), s);
  }

  /** A parameter without a declared type anywhere in the constructor means the class can
      never be built. */
  lemma UntypedParameterFails(s: State, ct: ClassTable, k: Key, i: nat, rank: map<Key, nat>)
    requires Ranked(s.bindings, s.instances, ct, rank) && k in rank
    requires !Has(s, k) && k in ct && ct[k].Constructor?
    requires i < |ct[k].params| && ct[k].params[i].typ.None?
    ensures var out := Make(s, ct, k, rank);
      out.0.Err? && k !in out.1.instances
  {
  }

  /** An untyped first parameter: the error names it and the class, and it is the one
      message logged, at error level. */
  lemma FirstParameterUntyped(s: State, ct: ClassTable, k: Key, rank: map<Key, nat>)
    requires Ranked(s.bindings, s.instances, ct, rank) && k in rank
    requires !Has(s, k) && k in ct && ct[k].Constructor?
    requires ct[k].params != [] && ct[k].params[0].typ.None?
    ensures var out := Make(s, ct, k, rank);
      var p := ct[k].params[0].name;
      && out.0 == Err(UnresolvableParameter(p, k))
      && Traced(s, out.1, [LogEntry(ErrorLevel, CannotResolveParameter(p, k))])
  {
    assert Make(s, ct, k, rank) == Reflect(s, ct, k, k, rank);
  }

  /** Constructor injection: the object is of class `k`, its arguments are the objects
      now cached under the parameters' declared types, in parameter order. */
  lemma ConstructorInjects(s: State, ct: ClassTable, k: Key, rank: map<Key, nat>)
    requires Ranked(s.bindings, s.instances, ct, rank) && k in rank
    requires !Has(s, k)
    ensures var out := Make(s, ct, k, rank);
      out.0.Ok? ==>
        && k in ct && ct[k].Constructor?
        && |out.0.value.args| == |ct[k].params|
        && out.0.value.cls == k
        && forall i :: 0 <= i < |ct[k].params| ==>
             ct[k].params[i].typ.Some? && ct[k].params[i].typ.value in out.1.instances
             && out.0.value.args[i] == out.1.instances[ct[k].params[i].typ.value]
  {
    var out := Make(s, ct, k, rank);
    if out.0.Ok? {
      var ps := ct[k].params;
      forall i | 0 <= i < |ps|
        ensures ps[i].typ.Some? && ps[i].typ.value in out.1.instances
          && out.0.value.args[i] == out.1.instances[ps[i].typ.value]
      {
        assert ParamTypes(ps)[i] == ps[i].typ.value;
      }
    }
  }

  /** The objects cached under `ts`, in order. */
  ghost function CachedObjects(inst: map<Key, Obj>, ts: seq<Key>): (vs: seq<Obj>)
    requires forall i :: 0 <= i < |ts| ==> ts[i] in inst
    ensures Injected(inst, ts, vs)
  {
    if ts == [] then [] else [inst[ts[0]]] + CachedObjects(inst, ts[1..])
  }

  /** The constructor loop over parameters whose types are all cached makes nothing new:
      each nested `make` is a cache hit, so the arguments are the cached objects, in
      order, and only the trace changes. */
  lemma {:induction false} ResolveParamsCached(s: State, ct: ClassTable, concrete: string, ps: seq<Param>,
                                               rank: map<Key, nat>, bound: nat)
    requires Ranked(s.bindings, s.instances, ct, rank)
    requires forall d :: d in TypedPrefix(ps) ==> d in rank && rank[d] < bound
    requires AllTyped(ps) && forall i :: 0 <= i < |ps| ==> ParamTypes(ps)[i] in s.instances
    ensures var out := ResolveParams(s, ct, concrete, ps, rank, bound);
      && out.0 == Ok(CachedObjects(s.instances, ParamTypes(ps)))
      && out.1.instances == s.instances && out.1.bindings == s.bindings && out.1.next == s.next
    decreases |ps|
  {
    if ps != [] {
      var t := ps[0].typ.value;
      var s0 := Emit(s, DebugLevel, ResolvingDependency(t, concrete));
      PrefixRanked(ps, rank, bound);
      assert ParamTypes(ps)[0] == t;
      assert Make(s0, ct, t, rank) == (Ok(s.instances[t]), s0);
      assert ParamTypes(ps[1..]) == ParamTypes(ps)[1..];
      forall i | 0 <= i < |ps[1..]| ensures ps[1..][i].typ.Some? {
        assert ps[1..][i] == ps[i + 1];
      }
      ResolveParamsCached(s0, ct, concrete, ps[1..], rank, bound);
    }
  }

  /** Constructor injection of objects already cached: when every parameter of class `k`
      is typed and every type is cached, `make(k)` builds one new object of class `k`
      from exactly those objects, in parameter order, and caches it. */
  lemma ConstructorWithCachedParams(s: State, ct: ClassTable, k: Key, rank: map<Key, nat>)
    requires Ranked(s.bindings, s.instances, ct, rank) && k in rank
    requires !Has(s, k) && k in ct && ct[k].Constructor? && AllTyped(ct[k].params)
    requires forall i :: 0 <= i < |ct[k].params| ==> ct[k].params[i].typ.value in s.instances
    ensures forall i :: 0 <= i < |ct[k].params| ==> ParamTypes(ct[k].params)[i] in s.instances
    ensures var o := Obj(s.next, k, CachedObjects(s.instances, ParamTypes(ct[k].params)));
      var out := Make(s, ct, k, rank);
      && out.0 == Ok(o)
      && out.1.instances == s.instances[k := o]
      && out.1.next == s.next + 1
  {
    var ps := ct[k].params;
    RankedAt(s, ct, k, rank);
    assert Make(s, ct, k, rank) == Reflect(s, ct, k, k, rank);
    ResolveParamsCached(s, ct, k, ps, rank, rank[k]);
  }

  /** A dependency chain through reflection: class `k`'s constructor takes one typed
      parameter; `make(k)` makes that type first (registered or not) and, if that
      succeeds, builds a new `k` from exactly the object it returned; if it fails,
      `make(k)` fails with its error and the state it left. */
  lemma ConstructorWithOneDependency(s: State, ct: ClassTable, k: Key, p: string, t: Key,
                                     rank: map<Key, nat>)
    requires Ranked(s.bindings, s.instances, ct, rank) && k in rank
    requires !Has(s, k) && k in ct && ct[k] == Constructor([Param(p, Some(t))])
    ensures t in rank
    ensures var inner := Make(Emit(s, DebugLevel, ResolvingDependency(t, k)), ct, t, rank);
      var out := Make(s, ct, k, rank);
      && (out.0.Ok? <==> inner.0.Ok?)
      && (inner.0.Err? ==> out == (Err(inner.0.failure), inner.1))
      && (inner.0.Ok? ==>
        && out.0 == Ok(Obj(inner.1.next, k, [inner.0.value]))
        && out.1.next == inner.1.next + 1
        && out.1.instances == inner.1.instances[k := Obj(inner.1.next, k, [inner.0.value])])
  {
    var ps := ct[k].params;
    assert TypedPrefix(ps) == [t];
    RankedAt(s, ct, k, rank);
    var s0 := Emit(s, DebugLevel, ResolvingDependency(t, k));
    var (r, s1) := Make(s0, ct, t, rank);
    if r.Ok? {
      RankedExtends(s0, s1, ct, rank);
      assert ps[1..] == [];
      assert ResolveParams(s1, ct, k, ps[1..], rank, rank[k]) == (Ok([]), s1);
      assert [r.value] + [] == [r.value];
    }
    assert Make(s, ct, k, rank) == Reflect(s, ct, k, k, rank);
  }

  /** `make(alias)` reflects on the target's NAME: the target's own binding is not used,
      the object is of the target class and is cached under the alias. */
  lemma AliasReflectsOnTarget(s: State, ct: ClassTable, a: Key, t: Key, rank: map<Key, nat>)
    requires Ranked(s.bindings, s.instances, ct, rank) && a in rank
    requires a !in s.instances && a in s.bindings && s.bindings[a] == AliasBinding(t)
    ensures var out := Make(s, ct, a, rank);
      && (t !in ct ==> out == (Err(ClassNotFound(t)), s))
      && (out.0.Ok? ==> out.0.value.cls == t && a in out.1.instances && out.1.instances[a] == out.0.value)
      && (forall d :: d in ClassDeps(ct, t) ==> d in rank && rank[d] < rank[a])
      && out == Reflect(s, ct, a, t, rank)
  {
    RankedAt(s, ct, a, rank);
  }

  // ---------------------------------------------------------------------------
  // Registration and the trace.
  // ---------------------------------------------------------------------------

  /** `remove` twice is `remove` once, as far as the two maps go. */
  lemma RemoveIdempotent(s: State, k: Key)
    ensures Remove(Remove(s, k), k).bindings == Remove(s, k).bindings
    ensures Remove(Remove(s, k), k).instances == Remove(s, k).instances
  {
  }

  /** `s` and `s'` differ at most in the logger and its trace. */
  ghost predicate SameButTrace(s: State, s': State)
  {
    s.bindings == s'.bindings && s.instances == s'.instances && s.next == s'.next
  }

  /** The logger is only an observer: what `make` returns, and what it does to the
      bindings, the cache and the identities, does not depend on the trace or on whether
      a logger is set. */
  lemma {:induction false} MakeIgnoresTrace(s: State, s': State, ct: ClassTable, k: Key, rank: map<Key, nat>)
    requires Ranked(s.bindings, s.instances, ct, rank) && k in rank && SameButTrace(s, s')
    ensures Ranked(s'.bindings, s'.instances, ct, rank)
    ensures Make(s, ct, k, rank).0 == Make(s', ct, k, rank).0
    ensures SameButTrace(Make(s, ct, k, rank).1, Make(s', ct, k, rank).1)
    decreases rank[k], 3, 0
  {
    if k in s.instances {
    } else if k in s.bindings && !s.bindings[k].AliasBinding? {
      InvokeIgnoresTrace(s, s', ct, k, rank);
    } else {
      var concrete := if k in s.bindings then s.bindings[k].target else k;
      RankedAt(s, ct, k, rank);
      ReflectIgnoresTrace(s, s', ct, k, concrete, rank);
    }
  }

  lemma {:induction false} InvokeIgnoresTrace(s: State, s': State, ct: ClassTable, k: Key, rank: map<Key, nat>)
    requires Ranked(s.bindings, s.instances, ct, rank) && k in rank && SameButTrace(s, s')
    requires k !in s.instances && k in s.bindings && !s.bindings[k].AliasBinding?
    ensures Ranked(s'.bindings, s'.instances, ct, rank)
    ensures Invoke(s, ct, k, rank).0 == Invoke(s', ct, k, rank).0
    ensures SameButTrace(Invoke(s, ct, k, rank).1, Invoke(s', ct, k, rank).1)
    decreases rank[k], 2, 0
  {
    var f := s.bindings[k].factory;
    if !Memoised(s, k) {
      assert Deps(s.bindings, s.instances, ct, k) == f.deps;
      RunIgnoresTrace(s, s', ct, k, f, rank);
    }
  }

  /** The closure path when the factory runs, as `InvokeIgnoresTrace`. */
  lemma {:induction false} RunIgnoresTrace(s: State, s': State, ct: ClassTable, k: Key, f: Factory,
                                           rank: map<Key, nat>)
    requires Ranked(s.bindings, s.instances, ct, rank) && k in rank && SameButTrace(s, s')
    requires k !in s.instances && k in s.bindings
    requires s.bindings[k] == ClosureBinding(f) || s.bindings[k] == SingletonBinding(f, None)
    requires forall d :: d in f.deps ==> d in rank && rank[d] < rank[k]
    ensures Ranked(s'.bindings, s'.instances, ct, rank)
    ensures Invoke(s, ct, k, rank).0 == Invoke(s', ct, k, rank).0
    ensures SameButTrace(Invoke(s, ct, k, rank).1, Invoke(s', ct, k, rank).1)
    decreases rank[k], 1, 1
  {
    var s1, s1' := ClosurePrologue(s, k), ClosurePrologue(s', k);
    ConstructIgnoresTrace(s1, s1', ct, f, rank, rank[k]);
    InvokeByConstruct(s, ct, k, f, rank);
    InvokeByConstruct(s', ct, k, f, rank);
  }

  /** The closure path when the factory runs: its result, cached under the key (and, for
      a singleton, kept in the memo). */
  lemma InvokeByConstruct(s: State, ct: ClassTable, k: Key, f: Factory, rank: map<Key, nat>)
    requires Ranked(s.bindings, s.instances, ct, rank) && k in rank
    requires k !in s.instances && k in s.bindings
    requires s.bindings[k] == ClosureBinding(f) || s.bindings[k] == SingletonBinding(f, None)
    requires forall d :: d in f.deps ==> d in rank && rank[d] < rank[k]
    ensures var s1 := ClosurePrologue(s, k);
      && Ranked(s1.bindings, s1.instances, ct, rank)
      && var (r, s2) := Construct(s1, ct, f, rank, rank[k]);
      && Invoke(s, ct, k, rank).0 == r
      && Invoke(s, ct, k, rank).1.next == s2.next
      && Invoke(s, ct, k, rank).1.instances == (if r.Err? then s2.instances else s2.instances[k := r.value])
      && Invoke(s, ct, k, rank).1.bindings
         == (if r.Err? || s.bindings[k].ClosureBinding? then s2.bindings
             else s2.bindings[k := SingletonBinding(f, Some(r.value))])
  {
  }

  lemma {:induction false} ConstructIgnoresTrace(s: State, s': State, ct: ClassTable, f: Factory,
                                                 rank: map<Key, nat>, bound: nat)
    requires Ranked(s.bindings, s.instances, ct, rank) && SameButTrace(s, s')
    requires forall d :: d in f.deps ==> d in rank && rank[d] < bound
    ensures Ranked(s'.bindings, s'.instances, ct, rank)
    ensures Construct(s, ct, f, rank, bound).0 == Construct(s', ct, f, rank, bound).0
    ensures SameButTrace(Construct(s, ct, f, rank, bound).1, Construct(s', ct, f, rank, bound).1)
    decreases bound, 1, 0
  {
    MakeAllIgnoresTrace(s, s', ct, f.deps, rank, bound);
    ConstructByMakeAll(s, ct, f, rank, bound);
    ConstructByMakeAll(s', ct, f, rank, bound);
  }

  /** A factory makes its dependencies, then allocates one object built from them. */
  lemma ConstructByMakeAll(s: State, ct: ClassTable, f: Factory, rank: map<Key, nat>, bound: nat)
    requires Ranked(s.bindings, s.instances, ct, rank)
    requires forall d :: d in f.deps ==> d in rank && rank[d] < bound
    ensures var (r, s1) := MakeAll(s, ct, f.deps, rank, bound);
      Construct(s, ct, f, rank, bound)
      == if r.Err? then (Err(r.failure), s1) else (Ok(Obj(s1.next, f.cls, r.value)), s1.(next := s1.next + 1))
  {
  }

  lemma {:induction false} MakeAllIgnoresTrace(s: State, s': State, ct: ClassTable, ks: seq<Key>,
                                               rank: map<Key, nat>, bound: nat)
    requires Ranked(s.bindings, s.instances, ct, rank) && SameButTrace(s, s')
    requires forall d :: d in ks ==> d in rank && rank[d] < bound
    ensures Ranked(s'.bindings, s'.instances, ct, rank)
    ensures MakeAll(s, ct, ks, rank, bound).0 == MakeAll(s', ct, ks, rank, bound).0
    ensures SameButTrace(MakeAll(s, ct, ks, rank, bound).1, MakeAll(s', ct, ks, rank, bound).1)
    decreases bound, 0, |ks|
  {
    if ks != [] {
      MakeIgnoresTrace(s, s', ct, ks[0], rank);
      var (r, s1) := Make(s, ct, ks[0], rank);
      var (r', s1') := Make(s', ct, ks[0], rank);
      if r.Ok? {
        RankedExtends(s, s1, ct, rank);
        MakeAllIgnoresTrace(s1, s1', ct, ks[1..], rank, bound);
      }
    }
  }

  lemma {:induction false} ReflectIgnoresTrace(s: State, s': State, ct: ClassTable, k: Key, concrete: string,
                                               rank: map<Key, nat>)
    requires Ranked(s.bindings, s.instances, ct, rank) && k in rank && k !in s.instances
    requires forall d :: d in ClassDeps(ct, concrete) ==> d in rank && rank[d] < rank[k]
    requires SameButTrace(s, s')
    ensures Ranked(s'.bindings, s'.instances, ct, rank)
    ensures Reflect(s, ct, k, concrete, rank).0 == Reflect(s', ct, k, concrete, rank).0
    ensures SameButTrace(Reflect(s, ct, k, concrete, rank).1, Reflect(s', ct, k, concrete, rank).1)
    decreases rank[k], 2, 0
  {
    if concrete in ct && ct[concrete].Constructor? {
      ResolveParamsIgnoresTrace(s, s', ct, concrete, ct[concrete].params, rank, rank[k]);
    }
  }

  lemma {:induction false} ResolveParamsIgnoresTrace(s: State, s': State, ct: ClassTable, concrete: string,
                                                     ps: seq<Param>, rank: map<Key, nat>, bound: nat)
    requires Ranked(s.bindings, s.instances, ct, rank) && SameButTrace(s, s')
    requires forall d :: d in TypedPrefix(ps) ==> d in rank && rank[d] < bound
    ensures Ranked(s'.bindings, s'.instances, ct, rank)
    ensures ResolveParams(s, ct, concrete, ps, rank, bound).0 == ResolveParams(s', ct, concrete, ps, rank, bound).0
    ensures SameButTrace(ResolveParams(s, ct, concrete, ps, rank, bound).1,
                         ResolveParams(s', ct, concrete, ps, rank, bound).1)
    decreases bound, 0, |ps|
  {
    if ps == [] {
    } else if ps[0].typ.None? {
      var m := CannotResolveParameter(ps[0].name, concrete);
      assert ResolveParams(s, ct, concrete, ps, rank, bound) == (Err(UnresolvableParameter(ps[0].name, concrete)), Emit(s, ErrorLevel, m));
      assert ResolveParams(s', ct, concrete, ps, rank, bound) == (Err(UnresolvableParameter(ps[0].name, concrete)), Emit(s', ErrorLevel, m));
    } else {
      var t := ps[0].typ.value;
      var s0 := Emit(s, DebugLevel, ResolvingDependency(t, concrete));
      var s0' := Emit(s', DebugLevel, ResolvingDependency(t, concrete));
      ParamsUnfold(s, ct, concrete, ps, rank, bound);
      ParamsUnfold(s', ct, concrete, ps, rank, bound);
      MakeIgnoresTrace(s0, s0', ct, t, rank);
      var (r, s1) := Make(s0, ct, t, rank);
      var (r', s1') := Make(s0', ct, t, rank);
      if r.Ok? {
        ResolveParamsIgnoresTrace(s1, s1', ct, concrete, ps[1..], rank, bound);
      }
    }
  }

  /** One turn of the constructor loop on a typed parameter: its `make`, then the rest. */
  lemma ParamsUnfold(s: State, ct: ClassTable, concrete: string, ps: seq<Param>,
                     rank: map<Key, nat>, bound: nat)
    requires Ranked(s.bindings, s.instances, ct, rank)
    requires forall d :: d in TypedPrefix(ps) ==> d in rank && rank[d] < bound
    requires ps != [] && ps[0].typ.Some?
    ensures var t := ps[0].typ.value;
      var s0 := Emit(s, DebugLevel, ResolvingDependency(t, concrete));
      && t in rank && rank[t] < bound
      && (forall d :: d in TypedPrefix(ps[1..]) ==> d in rank && rank[d] < bound)
      && Ranked(s0.bindings, s0.instances, ct, rank)
      && var (r, s1) := Make(s0, ct, t, rank);
      && (r.Err? ==> ResolveParams(s, ct, concrete, ps, rank, bound) == (Err(r.failure), s1))
      && (r.Ok? ==>
            && Ranked(s1.bindings, s1.instances, ct, rank)
            && var (rest, s2) := ResolveParams(s1, ct, concrete, ps[1..], rank, bound);
            ResolveParams(s, ct, concrete, ps, rank, bound)
              == if rest.Err? then (Err(rest.failure), s2) else (Ok([r.value] + rest.value), s2))
  {
    var t := ps[0].typ.value;
    var s0 := Emit(s, DebugLevel, ResolvingDependency(t, concrete));
    PrefixRanked(ps, rank, bound);
    var (r, s1) := Make(s0, ct, t, rank);
    if r.Ok? {
      RankedExtends(s0, s1, ct, rank);
    }
  }

  /** `get` returns what `make` returns, with or without a logger. */
  lemma GetIsMake(s: State, ct: ClassTable, k: Key, rank: map<Key, nat>)
    requires Ranked(s.bindings, s.instances, ct, rank) && k in rank
    ensures Get(s, ct, k, rank).0 == Make(s, ct, k, rank).0
    ensures SameButTrace(Get(s, ct, k, rank).1, Make(s, ct, k, rank).1)
  {
    MakeIgnoresTrace(s, Emit(s, DebugLevel, ResolvingViaGet(k)), ct, k, rank);
  }

  /** Without a logger, nothing the container does leaves a trace. */
  lemma SilentWithoutLogger(s: State, ct: ClassTable, k: Key, f: Factory, rank: map<Key, nat>)
    requires Ranked(s.bindings, s.instances, ct, rank) && k in rank && !s.logging
    ensures Make(s, ct, k, rank).1.log == s.log && Get(s, ct, k, rank).1.log == s.log
    ensures Bind(s, k, f).log == s.log && Singleton(s, k, f).log == s.log && Alias(s, k, k).log == s.log
    ensures HasQuery(s, k).log == s.log && Remove(s, k).log == s.log && Clear(s).log == s.log
  {
  }
}
