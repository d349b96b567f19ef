/** The data of the dependency-injection container in src/Container.php: what a key
    can be bound to, the objects it builds, the class table that stands for PHP
    reflection, the message trace sent to the logger, and the registration operations
    (bind, singleton, alias, has, remove, clear, setLogger) as functions on the state. */
module ContainerState {

  /** An abstraction key: any string, used only as a map key. */
  type Key = string

  datatype Option<T> = None | Some(value: T)

  /** An object built by the container. `id` is its identity (PHP's `===`), `cls` the
      class it was instantiated from, `args` the constructor arguments it received. */
  datatype Obj = Obj(id: nat, cls: string, args: seq<Obj>)

  /** What a registered closure does: call `make` on each of `deps`, left to right,
      and return a new `cls` built from the results (`new C($c->make(D1), ...)`). */
  datatype Factory = Factory(cls: string, deps: seq<Key>)

  /** A value of the `bindings` array. A closure passed to `bind`; the wrapper closure
      that `singleton` stores, whose `static $instancia` is `memo`; or the target string
      stored by `alias`. */
  datatype Binding =
    | ClosureBinding(factory: Factory)
    | SingletonBinding(factory: Factory, memo: Option<Obj>)
    | AliasBinding(target: Key)

  /** A constructor parameter: its name and its declared type, if any. */
  datatype Param = Param(name: string, typ: Option<Key>)

  /** What reflection reports about a class: no constructor, declared or inherited, or
      the constructor `getConstructor` finds, with these parameters (possibly none). */
  datatype ClassInfo = NoConstructor | Constructor(params: seq<Param>)

  /** The classes the PHP runtime knows; a missing name is a class that does not exist. */
  type ClassTable = map<string, ClassInfo>

  /** The exceptions `make` can raise. */
  datatype Failure =
    | ClassNotFound(name: string)                    // ReflectionException: Class "X" does not exist
    | UnresolvableParameter(param: string, cls: string)  // untyped constructor parameter
    | NotCallable(cls: string)                       // a ReflectionClass invoked as a callable

  datatype Result<T> = Ok(value: T) | Err(failure: Failure)

  /** The class of the callable that `resolverInstancia` invokes. */
  datatype CallableKind = ClosureCallable | ReflectionCallable

  /** One message the container sends to its logger, one constructor per call site. */
  datatype Message =
    | BindingClosure(key: Key)
    | CreatingAlias(alias: Key, target: Key)
    | BindingSingleton(key: Key)
    | ResolvingWithClosure(key: Key)
    | ResolvingWithoutConstructor(key: Key)
    | ResolvingUsing(key: Key, callable: CallableKind)
    | ResolvingDependency(dependency: Key, concrete: Key)
    | ResolvedSuccessfully(key: Key)
    | CannotResolveParameter(param: string, concrete: Key)
    | ResolvingViaGet(id: Key)
    | HasBindingFor(id: Key)
    | HasInstanceFor(id: Key)
    | DoesNotHave(id: Key)
    | Removing(key: Key)
    | Clearing

  datatype Level = DebugLevel | ErrorLevel

  datatype LogEntry = LogEntry(level: Level, msg: Message)

  /** The container's fields: `bindings`, `instances`, whether a logger is set and the
      messages it received, plus `next`, the identity the next new object gets. */
  datatype State = State(
    bindings: map<Key, Binding>,
    instances: map<Key, Obj>,
    next: nat,
    logging: bool,
    log: seq<LogEntry>)

  /** A new container: no bindings, no instances, no logger. */
  function Empty(): (s: State)
    ensures forall k :: !Has(s, k)
    ensures !s.logging && s.log == []
    ensures Allocated(s)
  {
    State(map[], map[], 0, false, [])
  }

  /** `logDebug` / `logError`: the message reaches the logger only when one is set. */
  function Emit(s: State, level: Level, msg: Message): (s': State)
    ensures s'.bindings == s.bindings && s'.instances == s.instances && s'.next == s.next
    ensures Traced(s, s', [LogEntry(level, msg)])
  {
    s.(log := if s.logging then s.log + [LogEntry(level, msg)] else s.log)
  }

  /** From `s` to `s'` the logger received exactly `entries`, or nothing when none is set. */
  ghost predicate Traced(s: State, s': State, entries: seq<LogEntry>)
  {
    s'.logging == s.logging && s'.log == s.log + (if s.logging then entries else [])
  }

  /** `m'` agrees with `m` on every key other than `k`. */
  ghost predicate AgreeExcept<V>(m: map<Key, V>, m': map<Key, V>, k: Key)
  {
    forall j :: j != k ==> (j in m <==> j in m') && (j in m ==> m'[j] == m[j])
  }

  /** `bind($abstract, $closure)`: overwrite the key's binding. */
  function Bind(s: State, k: Key, f: Factory): (s': State)
    ensures Has(s', k) && k in s'.bindings && s'.bindings[k] == ClosureBinding(f)
    ensures AgreeExcept(s.bindings, s'.bindings, k)
    ensures s'.instances == s.instances && s'.next == s.next
    ensures Traced(s, s', [LogEntry(DebugLevel, BindingClosure(k))])
  {
    var s1 := Emit(s, DebugLevel, BindingClosure(k));
    s1.(bindings := s1.bindings[k := ClosureBinding(f)])
  }

  /** `singleton($abstract, $closure)`: store a fresh wrapper with an empty memo. */
  function Singleton(s: State, k: Key, f: Factory): (s': State)
    ensures Has(s', k) && k in s'.bindings && s'.bindings[k] == SingletonBinding(f, None)
    ensures AgreeExcept(s.bindings, s'.bindings, k)
    ensures s'.instances == s.instances && s'.next == s.next
    ensures Traced(s, s', [LogEntry(DebugLevel, BindingSingleton(k))])
  {
    var s1 := Emit(s, DebugLevel, BindingSingleton(k));
    s1.(bindings := s1.bindings[k := SingletonBinding(f, None)])
  }

  /** `alias($alias, $abstract)`: store the target's name as the alias's binding. */
  function Alias(s: State, a: Key, target: Key): (s': State)
    ensures Has(s', a) && a in s'.bindings && s'.bindings[a] == AliasBinding(target)
    ensures AgreeExcept(s.bindings, s'.bindings, a)
    ensures s'.instances == s.instances && s'.next == s.next
    ensures Traced(s, s', [LogEntry(DebugLevel, CreatingAlias(a, target))])
  {
    var s1 := Emit(s, DebugLevel, CreatingAlias(a, target));
    s1.(bindings := s1.bindings[a := AliasBinding(target)])
  }

  /** The answer of `has($id)`: a binding or a cached instance exists. */
  predicate Has(s: State, k: Key)
  {
    k in s.bindings || k in s.instances
  }

  /** The message `has($id)` logs: the binding is checked before the instance. */
  function HasMessage(s: State, k: Key): (m: Message)
    ensures m.HasBindingFor? <==> k in s.bindings
    ensures m.HasInstanceFor? <==> k !in s.bindings && k in s.instances
    ensures m.DoesNotHave? <==> !Has(s, k)
  {
    if k in s.bindings then HasBindingFor(k)
    else if k in s.instances then HasInstanceFor(k)
    else DoesNotHave(k)
  }

  /** The state after `has($id)`: only the trace changes. */
  function HasQuery(s: State, k: Key): (s': State)
    ensures s'.bindings == s.bindings && s'.instances == s.instances && s'.next == s.next
    ensures Traced(s, s', [LogEntry(DebugLevel, HasMessage(s, k))])
  {
    Emit(s, DebugLevel, HasMessage(s, k))
  }

  /** `remove($abstract)`: unset the key in both maps. */
  function Remove(s: State, k: Key): (s': State)
    ensures !Has(s', k)
    ensures AgreeExcept(s.bindings, s'.bindings, k) && AgreeExcept(s.instances, s'.instances, k)
    ensures s'.next == s.next
    ensures Traced(s, s', [LogEntry(DebugLevel, Removing(k))])
  {
    var s1 := Emit(s, DebugLevel, Removing(k));
    s1.(bindings := s1.bindings - {k}, instances := s1.instances - {k})
  }

  /** `clear()`: empty both maps. */
  function Clear(s: State): (s': State)
    ensures forall j :: !Has(s', j)
    ensures s'.next == s.next
    ensures Traced(s, s', [LogEntry(DebugLevel, Clearing)])
  {
    var s1 := Emit(s, DebugLevel, Clearing);
    s1.(bindings := map[], instances := map[])
  }

  /** `setLogger($logger)`: from now on messages are delivered. */
  function SetLogger(s: State): (s': State)
    ensures s'.logging && s'.log == s.log
    ensures s'.bindings == s.bindings && s'.instances == s.instances && s'.next == s.next
  {
    s.(logging := true)
  }

  /** Every object the container holds (cached, or memoised by a singleton wrapper)
      has an identity below `next`, so the next object built is new. */
  ghost predicate Allocated(s: State)
  {
    && (forall k :: k in s.instances ==> s.instances[k].id < s.next)
    && (forall k :: k in s.bindings && s.bindings[k].SingletonBinding? && s.bindings[k].memo.Some?
          ==> s.bindings[k].memo.value.id < s.next)
  }
}
