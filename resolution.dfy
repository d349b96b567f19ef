/** `make` of src/Container.php as functions that thread the container state:
    the cache check, the closure path through `resolverInstancia` (with the
    singleton wrapper's memo), and the reflection path with its loop over the
    constructor's parameters.

    PHP's `make` has no cycle detection: on a cyclic dependency it recurses until PHP's
    memory or stack limit ends it with a fatal error.
    The model therefore asks for a ghost `rank` under which every key that `make`
    would still have to build depends only on keys of smaller rank (`Ranked`). Every
    dependency a key lists counts, even one after a dependency that fails. */
module Resolution {
  import opened ContainerState

  /** The parameter types the constructor loop walks before it meets the first
      parameter without a declared type (where it throws). */
  function TypedPrefix(ps: seq<Param>): (ds: seq<Key>)
    ensures |ds| <= |ps|
    ensures forall i :: 0 <= i < |ds| ==> ps[i].typ == Some(ds[i])
    ensures |ds| < |ps| ==> ps[|ds|].typ.None?
  {
    if ps == [] || ps[0].typ.None? then [] else [ps[0].typ.value] + TypedPrefix(ps[1..])
  }

  /** The keys reflection on class `c` will `make`. */
  function ClassDeps(ct: ClassTable, c: string): seq<Key>
  {
    if c in ct && ct[c].Constructor? then TypedPrefix(ct[c].params) else []
  }

  /** The keys `make(k)` calls `make` on directly, in the given state. */
  function Deps(bindings: map<Key, Binding>, instances: map<Key, Obj>, ct: ClassTable, k: Key): seq<Key>
  {
    if k in instances then []
    else if k in bindings then
      match bindings[k]
      case ClosureBinding(f) => f.deps
      case SingletonBinding(f, memo) => if memo.Some? then [] else f.deps
      case AliasBinding(t) => ClassDeps(ct, t)
    else ClassDeps(ct, k)
  }

  /** Every ranked key that is not cached yet depends only on ranked keys of smaller rank:
      resolution from a ranked key terminates. */
  ghost predicate Ranked(bindings: map<Key, Binding>, instances: map<Key, Obj>, ct: ClassTable, rank: map<Key, nat>)
  {
    forall j, d :: j in rank && j !in instances && d in Deps(bindings, instances, ct, j) ==>
      d in rank && rank[d] < rank[j]
  }

  /** `b'` is `b`, or `b` is a singleton wrapper whose memo has since been filled. */
  ghost predicate Refines(b: Binding, b': Binding)
  {
    b == b' || (b.SingletonBinding? && b.memo.None? && b'.SingletonBinding? && b'.factory == b.factory)
  }

  /** What resolution may do to the state: fill singleton memos, add cache entries
      without changing existing ones, allocate objects and append to the trace. */
  ghost predicate Extends(s: State, s': State)
  {
    && s'.bindings.Keys == s.bindings.Keys
    && (forall k :: k in s.bindings ==> Refines(s.bindings[k], s'.bindings[k]))
    && (forall k :: k in s.instances ==> k in s'.instances && s'.instances[k] == s.instances[k])
    && s.next <= s'.next
    && s'.logging == s.logging
    && s.log <= s'.log
    && (!s.logging ==> s'.log == s.log)
  }

  /** Every key newly cached between `s` and `s'` is ranked below `bound`. */
  ghost predicate AddsBelow(s: State, s': State, rank: map<Key, nat>, bound: nat)
  {
    forall j :: j in s'.instances && j !in s.instances ==> j in rank && rank[j] < bound
  }

  /** The key is bound to a singleton wrapper that has already run its factory. */
  predicate Memoised(s: State, k: Key)
  {
    k in s.bindings && s.bindings[k].SingletonBinding? && s.bindings[k].memo.Some?
  }

  /** The ranking, read at one uncached key that `make` reflects on. */
  lemma RankedAt(s: State, ct: ClassTable, k: Key, rank: map<Key, nat>)
    requires Ranked(s.bindings, s.instances, ct, rank) && k in rank && k !in s.instances
    requires k in s.bindings ==> s.bindings[k].AliasBinding?
    ensures var concrete := if k in s.bindings then s.bindings[k].target else k;
      forall d :: d in ClassDeps(ct, concrete) ==> d in rank && rank[d] < rank[k]
  {
    var concrete := if k in s.bindings then s.bindings[k].target else k;
    var ds := Deps(s.bindings, s.instances, ct, k);
    if k in s.bindings {
      assert s.bindings[k] == AliasBinding(concrete);
    }
    assert ds == ClassDeps(ct, concrete);
    forall d | d in ClassDeps(ct, concrete) ensures d in rank && rank[d] < rank[k] {
      assert d in ds;
    }
  }

  lemma ExtendsTransitive(s1: State, s2: State, s3: State)
    requires Extends(s1, s2) && Extends(s2, s3)
    ensures Extends(s1, s3)
  {
  }

  /** Resolution keeps the ranking valid: it only removes dependencies. */
  lemma RankedExtends(s: State, s': State, ct: ClassTable, rank: map<Key, nat>)
    requires Ranked(s.bindings, s.instances, ct, rank)
    requires Extends(s, s')
    ensures Ranked(s'.bindings, s'.instances, ct, rank)
  {
    forall j, d | j in rank && j !in s'.instances && d in Deps(s'.bindings, s'.instances, ct, j)
      ensures d in rank && rank[d] < rank[j]
    {
      if j in s'.bindings {
        assert Refines(s.bindings[j], s'.bindings[j]);
      }
      assert d in Deps(s.bindings, s.instances, ct, j);
    }
  }

  /** Resolution steps compose: the state only grows, and every newly cached key is
      ranked below `bound`. */
  ghost predicate Grows(s: State, s': State, rank: map<Key, nat>, bound: nat)
  {
    Extends(s, s') && AddsBelow(s, s', rank, bound)
  }

  /** Each key of `ks` is cached with the object at the same position of `vs`. */
  ghost predicate Injected(instances: map<Key, Obj>, ks: seq<Key>, vs: seq<Obj>)
  {
    |vs| == |ks| && forall i :: 0 <= i < |ks| ==> ks[i] in instances && instances[ks[i]] == vs[i]
  }

  lemma GrowsTransitive(s1: State, s2: State, s3: State, rank: map<Key, nat>, b1: nat, b2: nat)
    requires Grows(s1, s2, rank, b1) && Grows(s2, s3, rank, b2) && b1 <= b2
    ensures Grows(s1, s3, rank, b2)
  {
  }

  lemma EmitGrows(s: State, level: Level, msg: Message, rank: map<Key, nat>)
    ensures Grows(s, Emit(s, level, msg), rank, 0)
  {
  }

  /** Caching the result of `k` after its dependencies were resolved. */
  lemma Store(s: State, s2: State, s3: State, k: Key, o: Obj, rank: map<Key, nat>)
    requires k in rank && k !in s.instances && Grows(s, s2, rank, rank[k])
    requires s3 == s2.(instances := s2.instances[k := o])
    ensures Grows(s, s3, rank, rank[k] + 1)
  {
    assert k !in s2.instances;
  }

  /** Caching the result of a singleton wrapper and filling its memo. */
  lemma StoreMemo(s: State, s2: State, s3: State, k: Key, f: Factory, o: Obj, rank: map<Key, nat>)
    requires k in rank && k !in s.instances && Grows(s, s2, rank, rank[k])
    requires k in s.bindings && s.bindings[k] == SingletonBinding(f, None)
    requires s3 == s2.(bindings := s2.bindings[k := SingletonBinding(f, Some(o))],
                       instances := s2.instances[k := o])
    ensures Grows(s, s3, rank, rank[k] + 1)
  {
    assert k !in s2.instances;
    assert Refines(s.bindings[k], s2.bindings[k]);
  }

  /** One step of a left-to-right resolution loop: the first key's result stays cached
      while the rest are resolved. */
  lemma LoopStep(s: State, s1: State, s2: State, ks: seq<Key>, o: Obj, vs: seq<Obj>,
                 rank: map<Key, nat>, bound: nat)
    requires ks != [] && ks[0] in rank && rank[ks[0]] < bound
    requires Grows(s, s1, rank, rank[ks[0]] + 1) && ks[0] in s1.instances && s1.instances[ks[0]] == o
    requires Grows(s1, s2, rank, bound)
    requires Injected(s2.instances, ks[1..], vs)
    ensures Grows(s, s2, rank, bound)
    ensures Injected(s2.instances, ks, [o] + vs)
  {
    forall i | 0 <= i < |ks|
      ensures ks[i] in s2.instances && s2.instances[ks[i]] == ([o] + vs)[i]
    {
      if i > 0 {
        assert ks[i] == ks[1..][i - 1];
        assert ([o] + vs)[i] == vs[i - 1];
      }
    }
  }

  /** `make($abstract)`: the cache first; then the binding, or the key itself when
      unbound; a closure is invoked, anything else is a class name to reflect on. */
  function Make(s: State, ct: ClassTable, k: Key, ghost rank: map<Key, nat>): (out: (Result<Obj>, State))
    requires Ranked(s.bindings, s.instances, ct, rank) && k in rank
    ensures Grows(s, out.1, rank, rank[k] + 1)
    ensures out.0.Ok? ==> k in out.1.instances && out.1.instances[k] == out.0.value
    ensures out.0.Err? ==> k !in s.instances && k !in out.1.instances
    ensures out.0.Ok? && k !in s.instances && !Memoised(s, k) ==>
      s.next <= out.0.value.id < out.1.next
    decreases rank[k], 3, 0
  {
    if k in s.instances then
      (Ok(s.instances[k]), s)
    else if k in s.bindings && !s.bindings[k].AliasBinding? then
      Invoke(s, ct, k, rank)
    else
      var concrete := if k in s.bindings then s.bindings[k].target else k;
      RankedAt(s, ct, k, rank);
      Reflect(s, ct, k, concrete, rank)
  }

  /** The two messages logged before a closure is invoked. */
  function ClosurePrologue(s: State, k: Key): (s': State)
    ensures s'.bindings == s.bindings && s'.instances == s.instances && s'.next == s.next
    ensures Traced(s, s', [LogEntry(DebugLevel, ResolvingWithClosure(k)),
                           LogEntry(DebugLevel, ResolvingUsing(k, ClosureCallable))])
  {
    Emit(Emit(s, DebugLevel, ResolvingWithClosure(k)), DebugLevel, ResolvingUsing(k, ClosureCallable))
  }

  /** The closure path: log, invoke the closure with the container, cache the result
      under the requested key. A singleton wrapper runs its factory only while its
      memo is empty. */
  function Invoke(s: State, ct: ClassTable, k: Key, ghost rank: map<Key, nat>): (out: (Result<Obj>, State))
    requires Ranked(s.bindings, s.instances, ct, rank) && k in rank
    requires k !in s.instances && k in s.bindings && !s.bindings[k].AliasBinding?
    ensures Grows(s, out.1, rank, rank[k] + 1)
    ensures out.0.Ok? ==> k in out.1.instances && out.1.instances[k] == out.0.value
    ensures out.0.Err? ==> k !in out.1.instances
    ensures out.0.Ok? && !Memoised(s, k) ==> s.next <= out.0.value.id < out.1.next
    decreases rank[k], 2, 0
  {
    var s0 := Emit(s, DebugLevel, ResolvingWithClosure(k));
    var s1 := ClosurePrologue(s, k);
    EmitGrows(s, DebugLevel, ResolvingWithClosure(k), rank);
    EmitGrows(s0, DebugLevel, ResolvingUsing(k, ClosureCallable), rank);
    GrowsTransitive(s, s0, s1, rank, 0, 0);
    match s.bindings[k]
    case ClosureBinding(f) =>
      var (r, s2) := Construct(s1, ct, f, rank, rank[k]);
      GrowsTransitive(s, s1, s2, rank, 0, rank[k]);
      if r.Err? then (r, s2)
      else
        var s3 := s2.(instances := s2.instances[k := r.value]);
        Store(s, s2, s3, k, r.value, rank);
        (r, s3)
    case SingletonBinding(f, memo) =>
      if memo.Some? then
        var s3 := s1.(instances := s1.instances[k := memo.value]);
        Store(s, s1, s3, k, memo.value, rank);
        (Ok(memo.value), s3)
      else
        var (r, s2) := Construct(s1, ct, f, rank, rank[k]);
        GrowsTransitive(s, s1, s2, rank, 0, rank[k]);
        if r.Err? then (r, s2)
        else
          var s3 := s2.(bindings := s2.bindings[k := SingletonBinding(f, Some(r.value))],
                        instances := s2.instances[k := r.value]);
          StoreMemo(s, s2, s3, k, f, r.value, rank);
          (r, s3)
  }

  /** What a registered closure does: make its dependencies in order, then build a
      new object from them. */
  function Construct(s: State, ct: ClassTable, f: Factory, ghost rank: map<Key, nat>, ghost bound: nat)
    : (out: (Result<Obj>, State))
    requires Ranked(s.bindings, s.instances, ct, rank)
    requires forall d :: d in f.deps ==> d in rank && rank[d] < bound
    ensures Grows(s, out.1, rank, bound)
    ensures out.0.Ok? ==> s.next <= out.0.value.id < out.1.next
    ensures out.0.Ok? ==> out.0.value.cls == f.cls && Injected(out.1.instances, f.deps, out.0.value.args)
    decreases bound, 1, 0
  {
    var (r, s1) := MakeAll(s, ct, f.deps, rank, bound);
    if r.Err? then (Err(r.failure), s1)
    else
      var s2 := s1.(next := s1.next + 1);
      GrowsTransitive(s, s1, s2, rank, bound, bound);
      (Ok(Obj(s1.next, f.cls, r.value)), s2)
  }

  /** `make` on each key in order, collecting the results; stops at the first failure. */
  function MakeAll(s: State, ct: ClassTable, ks: seq<Key>, ghost rank: map<Key, nat>, ghost bound: nat)
    : (out: (Result<seq<Obj>>, State))
    requires Ranked(s.bindings, s.instances, ct, rank)
    requires forall d :: d in ks ==> d in rank && rank[d] < bound
    ensures Grows(s, out.1, rank, bound)
    ensures out.0.Ok? ==> Injected(out.1.instances, ks, out.0.value)
    decreases bound, 0, |ks|
  {
    if ks == [] then (Ok([]), s)
    else
      var (r, s1) := Make(s, ct, ks[0], rank);
      if r.Err? then
        GrowsTransitive(s, s1, s1, rank, rank[ks[0]] + 1, bound);
        (Err(r.failure), s1)
      else
        RankedExtends(s, s1, ct, rank);
        var (rest, s2) := MakeAll(s1, ct, ks[1..], rank, bound);
        if rest.Err? then
          GrowsTransitive(s, s1, s2, rank, rank[ks[0]] + 1, bound);
          (Err(rest.failure), s2)
        else
          LoopStep(s, s1, s2, ks, r.value, rest.value, rank, bound);
          (Ok([r.value] + rest.value), s2)
  }

  /** The reflection path on class `concrete` (the key itself, or an alias's target). */
  function Reflect(s: State, ct: ClassTable, k: Key, concrete: string, ghost rank: map<Key, nat>)
    : (out: (Result<Obj>, State))
    requires Ranked(s.bindings, s.instances, ct, rank) && k in rank && k !in s.instances
    requires forall d :: d in ClassDeps(ct, concrete) ==> d in rank && rank[d] < rank[k]
    ensures Grows(s, out.1, rank, rank[k] + 1)
    ensures out.0.Ok? ==> k in out.1.instances && out.1.instances[k] == out.0.value
    ensures out.0.Err? ==> k !in out.1.instances
    ensures out.0.Ok? ==> s.next <= out.0.value.id < out.1.next
    ensures out.0.Ok? ==>
      && out.0.value.cls == concrete && concrete in ct && ct[concrete].Constructor?
      && AllTyped(ct[concrete].params)
      && Injected(out.1.instances, ParamTypes(ct[concrete].params), out.0.value.args)
    decreases rank[k], 2, 0
  {
    if concrete !in ct then
      (Err(ClassNotFound(concrete)), s)
    else
      match ct[concrete]
      case NoConstructor =>
        var s1 := Emit(s, DebugLevel, ResolvingWithoutConstructor(k));
        var s2 := Emit(s1, DebugLevel, ResolvingUsing(k, ReflectionCallable));
        EmitGrows(s, DebugLevel, ResolvingWithoutConstructor(k), rank);
        EmitGrows(s1, DebugLevel, ResolvingUsing(k, ReflectionCallable), rank);
        GrowsTransitive(s, s1, s2, rank, 0, rank[k] + 1);
        (Err(NotCallable(concrete)), s2)
      case Constructor(ps) =>
        var (r, s1) := ResolveParams(s, ct, concrete, ps, rank, rank[k]);
        if r.Err? then
          GrowsTransitive(s, s1, s1, rank, rank[k], rank[k] + 1);
          (Err(r.failure), s1)
        else
          InstantiateGrows(s, s1, k, concrete, ParamTypes(ps), r.value, rank);
          (Ok(Obj(s1.next, concrete, r.value)), Instantiate(s1, k, concrete, r.value))
  }

  /** `newInstanceArgs`, then caching the new object under the requested key. */
  function Instantiate(s: State, k: Key, concrete: string, args: seq<Obj>): (s': State)
    ensures s'.instances == s.instances[k := Obj(s.next, concrete, args)]
    ensures s'.next == s.next + 1 && s'.bindings == s.bindings
    ensures Traced(s, s', [LogEntry(DebugLevel, ResolvedSuccessfully(k))])
  {
    var o := Obj(s.next, concrete, args);
    Emit(s.(next := s.next + 1, instances := s.instances[k := o]), DebugLevel, ResolvedSuccessfully(k))
  }

  lemma InstantiateGrows(s: State, s1: State, k: Key, concrete: string, ts: seq<Key>, args: seq<Obj>,
                         rank: map<Key, nat>)
    requires k in rank && k !in s.instances && Grows(s, s1, rank, rank[k])
    requires Injected(s1.instances, ts, args)
    ensures var s2 := Instantiate(s1, k, concrete, args);
      && Grows(s, s2, rank, rank[k] + 1) && s2.next == s1.next + 1
      && k in s2.instances && s2.instances[k] == Obj(s1.next, concrete, args)
      && Injected(s2.instances, ts, args)
  {
    var o := Obj(s1.next, concrete, args);
    var s2 := s1.(next := s1.next + 1);
    var s3 := s2.(instances := s2.instances[k := o]);
    GrowsTransitive(s, s1, s2, rank, rank[k], rank[k]);
    Store(s, s2, s3, k, o, rank);
    EmitGrows(s3, DebugLevel, ResolvedSuccessfully(k), rank);
    GrowsTransitive(s, s3, Instantiate(s1, k, concrete, args), rank, rank[k] + 1, rank[k] + 1);
    InjectedKeep(s1.instances, Instantiate(s1, k, concrete, args).instances, ts, args);
  }

  /** Every parameter has a declared type. */
  ghost predicate AllTyped(ps: seq<Param>)
  {
    forall i :: 0 <= i < |ps| ==> ps[i].typ.Some?
  }

  /** One step of the constructor loop, as `LoopStep` for the parameter list. */
  lemma ParamsStep(s: State, s1: State, s2: State, ps: seq<Param>, o: Obj, vs: seq<Obj>,
                   rank: map<Key, nat>, bound: nat)
    requires ps != [] && ps[0].typ.Some? && ps[0].typ.value in rank && rank[ps[0].typ.value] < bound
    requires Grows(s, s1, rank, rank[ps[0].typ.value] + 1)
    requires ps[0].typ.value in s1.instances && s1.instances[ps[0].typ.value] == o
    requires Grows(s1, s2, rank, bound)
    requires AllTyped(ps[1..]) && Injected(s2.instances, ParamTypes(ps[1..]), vs)
    ensures Grows(s, s2, rank, bound)
    ensures AllTyped(ps) && Injected(s2.instances, ParamTypes(ps), [o] + vs)
  {
    var t := ps[0].typ.value;
    assert ParamTypes(ps)[1..] == ParamTypes(ps[1..]);
    LoopStep(s, s1, s2, ParamTypes(ps), o, vs, rank, bound);
    forall i | 0 <= i < |ps| ensures ps[i].typ.Some? {
      if i > 0 { assert ps[i] == ps[1..][i - 1]; }
    }
  }

  /** The declared types of all parameters (only meaningful once all are typed). */
  function ParamTypes(ps: seq<Param>): (ts: seq<Key>)
    ensures |ts| == |ps|
    ensures forall i :: 0 <= i < |ps| && ps[i].typ.Some? ==> ts[i] == ps[i].typ.value
  {
    if ps == [] then [] else [if ps[0].typ.Some? then ps[0].typ.value else ""] + ParamTypes(ps[1..])
  }

  /** Cache entries survive a later step. */
  lemma InjectedKeep(inst: map<Key, Obj>, inst': map<Key, Obj>, ks: seq<Key>, vs: seq<Obj>)
    requires Injected(inst, ks, vs)
    requires forall j :: j in inst ==> j in inst' && inst'[j] == inst[j]
    ensures Injected(inst', ks, vs)
  {
  }

  /** The `foreach` over the constructor's parameters: an untyped parameter is logged
      as an error and throws; a typed one is logged and `make`d, its result collected. */
  function ResolveParams(s: State, ct: ClassTable, concrete: string, ps: seq<Param>,
                         ghost rank: map<Key, nat>, ghost bound: nat)
    : (out: (Result<seq<Obj>>, State))
    requires Ranked(s.bindings, s.instances, ct, rank)
    requires forall d :: d in TypedPrefix(ps) ==> d in rank && rank[d] < bound
    ensures Grows(s, out.1, rank, bound)
    ensures out.0.Ok? ==> AllTyped(ps) && Injected(out.1.instances, ParamTypes(ps), out.0.value)
    decreases bound, 0, |ps|
  {
    if ps == [] then (Ok([]), s)
    else if ps[0].typ.None? then
      var m := CannotResolveParameter(ps[0].name, concrete);
      EmitGrows(s, ErrorLevel, m, rank);
      GrowsTransitive(s, Emit(s, ErrorLevel, m), Emit(s, ErrorLevel, m), rank, 0, bound);
      (Err(UnresolvableParameter(ps[0].name, concrete)), Emit(s, ErrorLevel, m))
    else
      var t := ps[0].typ.value;
      var s0 := Emit(s, DebugLevel, ResolvingDependency(t, concrete));
      EmitGrows(s, DebugLevel, ResolvingDependency(t, concrete), rank);
      PrefixRanked(ps, rank, bound);
      var (r, s1) := Make(s0, ct, t, rank);
      GrowsTransitive(s, s0, s1, rank, 0, rank[t] + 1);
      if r.Err? then
        GrowsTransitive(s, s1, s1, rank, rank[t] + 1, bound);
        (Err(r.failure), s1)
      else
        RankedExtends(s0, s1, ct, rank);
        var (rest, s2) := ResolveParams(s1, ct, concrete, ps[1..], rank, bound);
        if rest.Err? then
          GrowsTransitive(s, s1, s2, rank, rank[t] + 1, bound);
          (Err(rest.failure), s2)
        else
          ParamsStep(s, s1, s2, ps, r.value, rest.value, rank, bound);
          (Ok([r.value] + rest.value), s2)
  }

  /** The first typed parameter, and those after it, are ranked below `bound`. */
  lemma PrefixRanked(ps: seq<Param>, rank: map<Key, nat>, bound: nat)
    requires ps != [] && ps[0].typ.Some?
    requires forall d :: d in TypedPrefix(ps) ==> d in rank && rank[d] < bound
    ensures ps[0].typ.value in rank && rank[ps[0].typ.value] < bound
    ensures forall d :: d in TypedPrefix(ps[1..]) ==> d in rank && rank[d] < bound
  {
    assert TypedPrefix(ps) == [ps[0].typ.value] + TypedPrefix(ps[1..]);
  }

  /** `get($id)`: log, then `make`. Without a logger it is exactly `make`. */
  function Get(s: State, ct: ClassTable, k: Key, ghost rank: map<Key, nat>): (out: (Result<Obj>, State))
    requires Ranked(s.bindings, s.instances, ct, rank) && k in rank
    ensures !s.logging ==> out == Make(s, ct, k, rank)
    ensures out.0.Ok? ==> Has(out.1, k) && k in out.1.instances && out.1.instances[k] == out.0.value
  {
    Make(Emit(s, DebugLevel, ResolvingViaGet(k)), ct, k, rank)
  }
}
