# A verified model of the php-di `Container`

This project models the dependency-injection container of `src/Container.php` in Dafny.

The container holds two string-keyed maps:

- `bindings` maps a key to a closure, to the wrapper closure made by `singleton`, or to
  the target name stored by `alias`.
- `instances` maps a key to the object `make` resolved for it.

On top of these it offers `bind`, `singleton`, `alias`, `make`/`get`, `has`, `remove` and
`clear`, plus an optional logger that receives a debug or error message at each step.

The model is in five modules:

- `ContainerState` (state.dfy): the data and the registration operations.
  - Objects are `Obj(id, cls, args)`. `id` is PHP object identity, `cls` the class and
    `args` the constructor arguments. Identities come from a counter `next`.
  - A closure is a `Factory(cls, deps)`: it calls `make` on each of `deps` in order and
    returns a new `cls` built from the results. Most closures of the test suite have this
    shape; one that returns a captured, pre-existing object is not modelled (see
    "Left out").
  - A singleton wrapper keeps its `static $instancia` as a memo inside the binding.
  - The logger is a sequence of (level, message) entries. It grows only once a logger is
    set.
  - PHP reflection is replaced by a class table. A missing name is a class that does not
    exist. `NoConstructor` is a class for which `getConstructor` finds no constructor,
    neither declared nor inherited from an ancestor. `Constructor(ps)` lists the
    parameters of the constructor it finds, each with its declared type if it has one.
- `Resolution` (resolution.dfy): `make` as mutually recursive functions that thread the
  state. `Make` checks the cache first. Then comes the closure path (`Invoke`,
  `Construct`, `MakeAll`) or the reflection path (`Reflect`, `ResolveParams`,
  `Instantiate`). `Get` is `make` after one log line.
  - PHP has no cycle detection, so `make` on a cyclic dependency graph recurses until
    PHP's memory or stack limit stops it with a fatal error. The model instead asks for
    a ghost ranking (`Ranked`): every uncached key depends only
    on keys of smaller rank. The ranking is read in the current state, so a cached key or
    a filled singleton has no dependencies. The ranking covers every dependency a key
    lists, including those after one that fails and that PHP therefore never reaches.
- `ContainerProperties` (properties.dfy): what the container promises, proved over all
  states and class tables.
- `ContainerScenarios` (scenarios.dfy): the scenarios of `tests/IndexTest.php`, with the
  test classes `SomeClass` and `AnotherClass`.
- `ContainerImpl` (container.dfy): the imperative `class Container`.
  - Its fields are updated in place, and the loops over a closure's dependencies and over
    a constructor's parameters are written out.
  - Each method is proved to leave the fields (`Model()`) and return the result that the
    functions of `ContainerState` and `Resolution` give for the state it started from.

The model follows the code in these places:

- `make` of an alias reflects on the target's name. It does not go through the target's
  binding, and it caches the new object under the alias only.
- A class with no constructor (declared or inherited) fails. The code hands a `ReflectionClass` to
  `resolverInstancia`, which invokes it as a callable.
- An untyped constructor parameter fails with an error naming the parameter and the class.
- Nothing is cached under a key whose resolution failed.

## Model

| member | source | states |
|---|---|---|
| ContainerState.Empty | src/Container.php:16-22 | a new container has no key, no logger and an empty trace, and holds no identity at or above `next`, so every later object is new |
| ContainerState.Bind | src/Container.php:25-29 | the key is bound to the closure and `has` holds; every other binding, all instances and `next` are unchanged; exactly the binding message is logged when a logger is set |
| ContainerState.Singleton | src/Container.php:134-146 | the key is bound to a wrapper with an empty memo and `has` holds; every other binding and all instances are unchanged; one message is logged |
| ContainerState.Alias | src/Container.php:92-96 | the alias is bound to the target name and `has` holds; nothing else changes but the trace |
| ContainerState.HasMessage | src/Container.php:108-116 | the message names a binding exactly when one exists, an instance exactly when there is an instance and no binding, and absence exactly when `has` is false |
| ContainerState.HasQuery | src/Container.php:106-118 | `has` changes neither map nor `next`, and logs exactly the message chosen by `HasMessage` |
| ContainerState.Has | src/Container.php:106-117 | the answer of `has`: a binding or a cached instance exists for the key |
| ContainerState.Emit | src/Container.php:168-180 | `logDebug`/`logError`: the maps and `next` are unchanged, and the logger receives exactly this entry when one is set, nothing otherwise |
| ContainerState.Remove | src/Container.php:120-124 | the key is in neither map afterwards; every other key keeps its binding and instance; one message is logged |
| ContainerState.Clear | src/Container.php:126-131 | no key is present afterwards; `next` is unchanged; one message is logged |
| ContainerState.SetLogger | src/Container.php:149-152 | from now on messages are delivered; the maps and the trace so far are unchanged |
| Resolution.ClosurePrologue | src/Container.php:44 | the two messages logged before a closure is invoked (lines 44 and 163), and nothing else changes |
| Resolution.Instantiate | src/Container.php:82-86 | the new object takes identity `next`, is cached under the requested key, `next` advances by one, the bindings are unchanged and the success message is logged |
| Resolution.TypedPrefix | src/Container.php:63-74 | the keys the parameter loop makes before it meets the first untyped parameter, in order |
| Resolution.Make | src/Container.php:32-90 | the state only grows (caches added, memos filled, trace appended); a success is cached under the key; a failure leaves the key uncached; a new object has an identity from `next` on |
| Resolution.Invoke | src/Container.php:160-165 | the closure's result is cached under the requested key; a failure leaves the key uncached (dependencies made before the failure stay cached); unless a singleton answers from its memo, the object is new |
| Resolution.Construct | src/Container.php:164 | the closure's object is new, of the closure's class, and its arguments are the objects cached under its dependencies, position by position |
| Resolution.MakeAll | tests/IndexTest.php:116-118 | each key made is cached with the object at the same position of the result |
| Resolution.Reflect | src/Container.php:49-89 | on success the class exists, has a constructor whose parameters are all typed, and the new object's arguments are the objects cached under those types, in order; the object is cached under the requested key |
| Resolution.ResolveParams | src/Container.php:63-79 | on success every parameter is typed and the results are the objects cached under the parameter types, in order |
| Resolution.Get | src/Container.php:99-103 | without a logger `get` is `make`; on success `has` holds and the object is cached under the id |
| ContainerProperties.RegistrationAllocated | src/Container.php:25-152 | the registration operations keep every held identity below `next` |
| ContainerProperties.MakeAllocated | src/Container.php:32-90 | `make` keeps every held identity below `next` |
| ContainerProperties.InvokeAllocated | src/Container.php:160-165 | the closure path keeps every held identity below `next` |
| ContainerProperties.SingletonAllocated | src/Container.php:139-145 | a singleton's first run keeps every held identity below `next`, memo included |
| ContainerProperties.ConstructAllocated | src/Container.php:164 | running a factory keeps every held identity below `next` |
| ContainerProperties.MakeAllAllocated | tests/IndexTest.php:116-118 | making a list of keys keeps every held identity below `next` |
| ContainerProperties.ReflectAllocated | src/Container.php:49-89 | the reflection path keeps every held identity below `next` |
| ContainerProperties.ResolveParamsAllocated | src/Container.php:63-79 | the parameter loop keeps every held identity below `next` |
| ContainerProperties.MakeBuildsNew | src/Container.php:82-85 | an object built anew has an identity none of the objects the container held before has |
| ContainerProperties.RemoveThenMakeIsFresh | src/Container.php:120-124 | after `remove(k)`, `make(k)` returns an object whose identity differs from the removed one's |
| ContainerProperties.CacheHit | src/Container.php:35-37 | a cached key is returned as it is and the state does not change |
| ContainerProperties.MakeTwice | src/Container.php:35-37 | a second `make(k)` after a successful one returns the identical object, for a plain binding too |
| ContainerProperties.GetTwice | src/Container.php:99-103 | a second `get(k)` returns the object the first returned |
| ContainerProperties.CacheWinsOverRebind | src/Container.php:35-37 | re-binding a key that is already resolved does not change what `make` returns |
| ContainerProperties.RebindLastWins | tests/IndexTest.php:339-366 | binding twice before the first `make` leaves the bindings of binding the second closure alone; the second closure builds the object from its own dependencies, and its identity is new |
| ContainerProperties.ClosureInjects | src/Container.php:43-45 | a closure binding caches, under the key, an object of the closure's class with an identity from `next` on, built from the objects its dependencies resolved to, in order |
| ContainerProperties.ClosureWithoutDependencies | src/Container.php:160-165 | a closure that makes nothing allocates exactly one object, caches it under the key and logs the two closure messages |
| ContainerProperties.ConstructNothing | src/Container.php:164 | a factory with no dependencies allocates one object and changes nothing else |
| ContainerProperties.ClosureWithOneDependency | tests/IndexTest.php:111-122 | a closure making one key builds its object from exactly what that nested `make` returned, and both are cached |
| ContainerProperties.MakeAllOne | tests/IndexTest.php:116-118 | making a one-key list is making that key |
| ContainerProperties.SingletonFillsMemo | src/Container.php:139-145 | the first `make` of a singleton runs its factory, fills the memo with the result and caches it |
| ContainerProperties.SingletonRunsOnce | src/Container.php:141-144 | a singleton whose memo is filled answers with the memo without running its factory or allocating |
| ContainerProperties.DependencyErrorPropagates | src/Container.php:160-165 | `make` of a closure (or of a singleton whose memo is empty) fails exactly when making its dependencies in order fails, at whatever position; it then returns that failure and the state it left, and the key stays uncached |
| ContainerProperties.UnknownClass | tests/IndexTest.php:291-295 | an unbound key that names no class fails with "Class does not exist" and changes nothing |
| ContainerProperties.NoConstructorFails | src/Container.php:53-55 | a class without a constructor (declared or inherited) fails as not callable and is not cached |
| ContainerProperties.EmptyConstructor | tests/IndexTest.php:71-77 | a class whose constructor takes no parameters gets a new object with no arguments, cached under the key |
| ContainerProperties.UntypedParameterFails | src/Container.php:66-71 | an untyped parameter anywhere in the constructor makes `make` fail and leaves the key uncached |
| ContainerProperties.FirstParameterUntyped | src/Container.php:67-70 | an untyped first parameter fails with an error naming it and the class, and exactly that error message is logged |
| ContainerProperties.ConstructorInjects | src/Container.php:59-89 | on success the object is of the key's class and its arguments are the objects cached under the parameter types, position by position |
| ContainerProperties.ResolveParamsCached | src/Container.php:63-79 | when every parameter is typed and every type is cached, the loop returns the cached objects in parameter order and changes only the trace |
| ContainerProperties.ConstructorWithCachedParams | src/Container.php:59-89 | an unregistered class whose typed parameters are all cached gets one new object with identity `next`, built from exactly those objects in order, and cached under the key |
| ContainerProperties.ConstructorWithOneDependency | src/Container.php:59-89 | an unregistered class with one typed parameter: `make` succeeds exactly when making the type succeeds, registered or not, and builds the new object from exactly that result; a failure is that `make`'s own failure, with the state it left |
| ContainerProperties.AliasReflectsOnTarget | src/Container.php:40-55 | `make(alias)` is reflection on the target's name, whatever the target is bound to: a missing target class fails and changes nothing, otherwise the object is of the target class and is cached under the alias |
| ContainerProperties.RemoveIdempotent | src/Container.php:120-124 | removing a key twice leaves the maps as removing it once |
| ContainerProperties.MakeIgnoresTrace | src/Container.php:168-180 | what `make` returns, and what it does to the bindings, the cache and `next`, does not depend on the logger or the trace |
| ContainerProperties.InvokeIgnoresTrace | src/Container.php:160-165 | the closure path's result and effect on the maps do not depend on the trace |
| ContainerProperties.RunIgnoresTrace | src/Container.php:139-145 | a closure or empty singleton that runs its factory behaves the same whatever the trace |
| ContainerProperties.ConstructIgnoresTrace | src/Container.php:164 | running a factory behaves the same whatever the trace |
| ContainerProperties.MakeAllIgnoresTrace | tests/IndexTest.php:116-118 | making a list of keys behaves the same whatever the trace |
| ContainerProperties.ReflectIgnoresTrace | src/Container.php:49-89 | the reflection path behaves the same whatever the trace |
| ContainerProperties.ResolveParamsIgnoresTrace | src/Container.php:63-79 | the parameter loop behaves the same whatever the trace |
| ContainerProperties.GetIsMake | src/Container.php:99-103 | `get` returns what `make` returns, with or without a logger, and leaves the same maps |
| ContainerProperties.SilentWithoutLogger | src/Container.php:168-180 | without a logger no operation adds to the trace |
| ContainerScenarios.BindAndMakeWithDependency | tests/IndexTest.php:391-408 | `make(AnotherClass)` builds a new `SomeClass` first, passes it to the new `AnotherClass`, and caches both |
| ContainerScenarios.ReflectionChain | src/Container.php:49-89 | on a new container `make(AnotherClass)` makes the unregistered `SomeClass` by reflection and builds a new `AnotherClass` from it; both are cached |
| ContainerScenarios.SingletonDependencyShared | tests/IndexTest.php:137-159 | two `make(AnotherClass)` calls return the identical object holding the identical `SomeClass` |
| ContainerScenarios.MakeMissingClass | tests/IndexTest.php:291-295 | `make('ClasseInexistente')` fails with "Class does not exist" and changes nothing |
| ContainerScenarios.MakeMissingDependency | tests/IndexTest.php:297-304 | `make('ClasseDependente')` fails with the nested call's error |
| ContainerScenarios.HasRemoveClear | tests/IndexTest.php:306-337 | `has` after `bind`, after `remove` and after `clear` |
| ContainerScenarios.AliasResolvesByName | tests/IndexTest.php:368-385 | `make('AliasClasse')` returns a new `SomeClass`, cached only under the alias |
| ContainerScenarios.GetAfterAlias | tests/IndexTest.php:386-389 | `get(SomeClass)` afterwards is the closure path (`Resolution.Invoke`) of the bound closure, and returns a new `SomeClass` (identity 1), different from the alias's |
| ContainerScenarios.LoggingTrace | tests/IndexTest.php:533-552 | with a logger set, the last message after `bind` is the binding message, and after `make` it names the closure |
| ContainerImpl.Container.constructor | src/Container.php:13-22 | the fields start as an empty container, whose held identities are all below `next` |
| ContainerImpl.Container.SetLogger | src/Container.php:149-152 | the fields become `ContainerState.SetLogger` of the old fields |
| ContainerImpl.Container.GetLogger | src/Container.php:154-157 | returns whether a logger is set |
| ContainerImpl.Container.LogDebug | src/Container.php:168-173 | appends a debug entry exactly when a logger is set |
| ContainerImpl.Container.LogError | src/Container.php:175-180 | appends an error entry exactly when a logger is set |
| ContainerImpl.Container.Bind | src/Container.php:25-29 | the fields become `ContainerState.Bind` of the old fields |
| ContainerImpl.Container.Alias | src/Container.php:92-96 | the fields become `ContainerState.Alias` of the old fields |
| ContainerImpl.Container.Singleton | src/Container.php:134-146 | the fields become `ContainerState.Singleton` of the old fields |
| ContainerImpl.Container.Has | src/Container.php:106-118 | returns `ContainerState.Has` of the old fields and leaves `ContainerState.HasQuery` of them |
| ContainerImpl.Container.Remove | src/Container.php:120-124 | the fields become `ContainerState.Remove` of the old fields |
| ContainerImpl.Container.Clear | src/Container.php:126-131 | the fields become `ContainerState.Clear` of the old fields |
| ContainerImpl.Container.Get | src/Container.php:99-103 | result and new fields are `Resolution.Get` of the old fields |
| ContainerImpl.Container.Make | src/Container.php:32-90 | result and new fields are `Resolution.Make` of the old fields |
| ContainerImpl.Container.ResolverInstancia | src/Container.php:160-165 | result and new fields are `Resolution.Invoke` of the fields before `make` logged |
| ContainerImpl.Container.Cache | src/Container.php:164 | only the instance under the key changes |
| ContainerImpl.Container.Memoise | src/Container.php:141-143 | only the singleton wrapper's memo changes |
| ContainerImpl.Container.Construct | src/Container.php:164 | result and new fields are `Resolution.Construct` of the old fields |
| ContainerImpl.Container.MakeEach | tests/IndexTest.php:116-118 | the loop of `make` calls gives `Resolution.MakeAll` of the old fields |
| ContainerImpl.Container.MakeByReflection | src/Container.php:49-89 | result and new fields are `Resolution.Reflect` of the old fields |
| ContainerImpl.Container.NewInstance | src/Container.php:59-89 | for a class with a constructor, result and new fields are `Resolution.Reflect` of the old fields |
| ContainerImpl.Container.Instantiate | src/Container.php:82-86 | the new object takes the next identity, is cached under the key, and the success message is logged |
| ContainerImpl.Container.ResolveParameters | src/Container.php:63-79 | the `foreach` loop gives `Resolution.ResolveParams` of the old fields |
| ContainerImpl.Container.ResolveParameter | src/Container.php:74-78 | one turn on a typed parameter keeps the loop invariant, or its failure is the whole loop's |
| ContainerImpl.MakeEachStep | tests/IndexTest.php:116-118 | one turn of the dependency loop keeps its invariant: the objects made so far, then what the rest makes, is what all the keys make |
| ContainerImpl.ParamEachStep | src/Container.php:74-78 | one turn of the parameter loop keeps its invariant |
| ContainerImpl.ParamEachUntyped | src/Container.php:67-70 | an untyped parameter met by the loop makes the whole loop fail, after one error message |
| ContainerImpl.ReflectByParams | src/Container.php:59-89 | for a class with a constructor, reflection fails with the parameters' first failure, or builds and caches an object from their results |

## Left out

- Logger formatting, timestamps and the PSR-3 interface: the trace records which message
  was sent at which level, not its text.
- PSR-11 conformance (`tests/IndexTest.php:96-100`) is a type-system fact, not behaviour.
- The performance, load, concurrency and memory tests (`tests/IndexTest.php:410-514`):
  timing, scheduling and memory use are not modelled. The load test's observable part,
  each of many keys bound to `fn($c) => new SomeClass()` resolving to a new `SomeClass`,
  is `ContainerProperties.ClosureWithoutDependencies`; the memory test's, `has` false for
  every key after `clear`, is `ContainerState.Clear`.
- Closure bodies: a closure is a factory that makes keys in order and builds a new object.
  A closure that returns a captured, pre-existing object (`tests/IndexTest.php:341-349`)
  is not modelled.
- `bind` with a non-closure object or a string is not modelled. The code evaluates
  `$concreto::class`, which fails for a string, so alias strings enter `bindings` only
  through `alias`.
- PHP's own argument type checks in `newInstanceArgs`, and union or builtin parameter
  types. A parameter is either untyped or typed with a key that `make` is called on.
- `isset` treats a null entry as absent. The model assumes factories never return null.
- Resolution.Make: requires a ranking of every dependency listed by the keys it can
  reach, including the dependencies after one that fails. PHP recurses until its memory
  or stack limit on a cyclic dependency graph, and the model does not describe that
  fatal error. The ranking also excludes some graphs PHP resolves without trouble: a
  closure bound to `A` making `["Missing", "A"]`, where `Missing` is no class, is cyclic
  on paper, yet PHP's `make('A')` simply fails with `Class "Missing" does not exist`.
- Classes that reflection finds but `newInstanceArgs` cannot build (an abstract class,
  an interface, an enum, a non-public constructor, or a constructor that throws) are not
  modelled: a class in the table always builds once its parameters are made.
- PHP class names are case-insensitive, so `make('someclass')` reflects on `SomeClass`.
  The model looks classes up, and names the new object's class, by the key's exact
  spelling.
- Inheritance is not modelled: the class table records the constructor
  `getConstructor` finds, declared or inherited, and `NoConstructor` means none in the
  class or any ancestor.
- ContainerImpl.Container.GetLogger: returns only whether a logger is set, not the logger
  object.
- The error thrown when a class does not exist comes from `ReflectionClass`, which is not
  part of this model. Only its kind and the class name are kept.
