/** The scenarios of tests/IndexTest.php, on the model: the two test classes, the
    state each test builds, and what it expects of `make`, `get` and `has`. */
module ContainerScenarios {
  import opened ContainerState
  import opened Resolution
  import opened ContainerProperties

  /** The keys the tests use (class names written without their namespace). */
  const SomeClass: Key := "SomeClass"
  const AnotherClass: Key := "AnotherClass"
  const ClasseInexistente: Key := "ClasseInexistente"
  const ClasseDependente: Key := "ClasseDependente"
  const AliasClasse: Key := "AliasClasse"

  /** `SomeClass` has a constructor without parameters; `AnotherClass` takes a `SomeClass`.
      No other class exists. */
  function TestClasses(): ClassTable
  {
    map[SomeClass := Constructor([]),
        AnotherClass := Constructor([Param("someClass", Some(SomeClass))])]
  }

  /** A ranking of every key the tests make: `AnotherClass` and the keys bound to closures
      that make something sit above what they make. */
  function TestRank(): map<Key, nat>
  {
    map[SomeClass := 0, ClasseInexistente := 0,
        AnotherClass := 1, ClasseDependente := 1, AliasClasse := 1]
  }

  /** The closure `fn($c) => new SomeClass()`. */
  function NewSomeClass(): Factory
  {
    Factory(SomeClass, [])
  }

  /** The closure `fn($c) => new AnotherClass($c->make(SomeClass::class))`. */
  function NewAnotherClass(): Factory
  {
    Factory(AnotherClass, [SomeClass])
  }

  /** A binding the tests register: an alias to `SomeClass`, or a closure that either
      makes nothing or, bound to a key of rank 1, makes only keys of rank 0. */
  ghost predicate TestBinding(j: Key, b: Binding)
    requires j in TestRank()
  {
    if b.AliasBinding? then b.target == SomeClass
    else
      || b.factory.deps == []
      || (TestRank()[j] == 1 && forall d :: d in b.factory.deps ==> d in TestRank() && TestRank()[d] == 0)
  }

  /** Every state the tests build is ranked by `TestRank`. */
  lemma TestRanked(s: State)
    requires forall j :: j in s.bindings ==> j in TestRank() && TestBinding(j, s.bindings[j])
    ensures Ranked(s.bindings, s.instances, TestClasses(), TestRank())
  {
    var ct, rank := TestClasses(), TestRank();
    assert ClassDeps(ct, SomeClass) == [];
    assert TypedPrefix([Param("someClass", Some(SomeClass))]) == [SomeClass];
    forall j, d | j in rank && j !in s.instances && d in Deps(s.bindings, s.instances, ct, j)
      ensures d in rank && rank[d] < rank[j]
    {
    }
  }

  /** Both classes bound to closures, the second making the first. */
  function TwoClosures(): State
  {
    Bind(Bind(Empty(), SomeClass, NewSomeClass()), AnotherClass, NewAnotherClass())
  }

  /** `make(AnotherClass)` builds a new `SomeClass` first and passes it to the new
      `AnotherClass`; both end up cached. */
  lemma BindAndMakeWithDependency()
    ensures Ranked(TwoClosures().bindings, TwoClosures().instances, TestClasses(), TestRank())
    ensures var out := Make(TwoClosures(), TestClasses(), AnotherClass, TestRank());
      && out.0 == Ok(Obj(1, AnotherClass, [Obj(0, SomeClass, [])]))
      && out.1.instances == map[SomeClass := Obj(0, SomeClass, []),
                                AnotherClass := Obj(1, AnotherClass, [Obj(0, SomeClass, [])])]
  {
    var s := TwoClosures();
    TestRanked(s);
    var ct, rank := TestClasses(), TestRank();
    ClosureWithOneDependency(s, ct, AnotherClass, NewAnotherClass(), rank);
    ClosureWithoutDependencies(ClosurePrologue(s, AnotherClass), ct, SomeClass, NewSomeClass(), rank);
  }

  /** Resolution without registration: on a new container `make(AnotherClass)` reflects on
      `AnotherClass`, makes the unbound `SomeClass` its constructor asks for by
      reflection too, and builds a new `AnotherClass` from it; both end up cached. */
  lemma ReflectionChain()
    ensures Ranked(Empty().bindings, Empty().instances, TestClasses(), TestRank())
    ensures var out := Make(Empty(), TestClasses(), AnotherClass, TestRank());
      && out.0 == Ok(Obj(1, AnotherClass, [Obj(0, SomeClass, [])]))
      && out.1.instances == map[SomeClass := Obj(0, SomeClass, []),
                                AnotherClass := Obj(1, AnotherClass, [Obj(0, SomeClass, [])])]
  {
    var ct, rank := TestClasses(), TestRank();
    TestRanked(Empty());
    var s0 := Emit(Empty(), DebugLevel, ResolvingDependency(SomeClass, AnotherClass));
    ConstructorWithOneDependency(Empty(), ct, AnotherClass, "someClass", SomeClass, rank);
    EmptyConstructor(s0, ct, SomeClass, rank);
  }

  /** `SomeClass` registered as a singleton, `AnotherClass` bound to a closure making it. */
  function SingletonAndClosure(): State
  {
    Bind(Singleton(Empty(), SomeClass, NewSomeClass()), AnotherClass, NewAnotherClass())
  }

  /** Two `make(AnotherClass)` calls return the identical object, holding the identical
      `SomeClass`. */
  lemma SingletonDependencyShared()
    ensures Ranked(SingletonAndClosure().bindings, SingletonAndClosure().instances, TestClasses(), TestRank())
    ensures var out1 := Make(SingletonAndClosure(), TestClasses(), AnotherClass, TestRank());
      && out1.0 == Ok(Obj(1, AnotherClass, [Obj(0, SomeClass, [])]))
      && Ranked(out1.1.bindings, out1.1.instances, TestClasses(), TestRank())
      && Make(out1.1, TestClasses(), AnotherClass, TestRank()).0 == out1.0
  {
    var s := SingletonAndClosure();
    TestRanked(s);
    var ct, rank := TestClasses(), TestRank();
    ClosureWithOneDependency(s, ct, AnotherClass, NewAnotherClass(), rank);
    ClosureWithoutDependencies(ClosurePrologue(s, AnotherClass), ct, SomeClass, NewSomeClass(), rank);
    MakeTwice(s, ct, AnotherClass, rank);
  }

  /** `make('ClasseInexistente')` on a new container: "Class does not exist". */
  lemma MakeMissingClass()
    ensures Ranked(Empty().bindings, Empty().instances, TestClasses(), TestRank())
    ensures Make(Empty(), TestClasses(), ClasseInexistente, TestRank())
      == (Err(ClassNotFound(ClasseInexistente)), Empty())
  {
    TestRanked(Empty());
    UnknownClass(Empty(), TestClasses(), ClasseInexistente, TestRank());
  }

  /** A closure making a class that does not exist. */
  function MissingDependency(): State
  {
    Bind(Empty(), ClasseDependente, Factory(AnotherClass, [ClasseInexistente]))
  }

  /** `make('ClasseDependente')` fails with the nested call's "Class does not exist". */
  lemma MakeMissingDependency()
    ensures Ranked(MissingDependency().bindings, MissingDependency().instances, TestClasses(), TestRank())
    ensures var out := Make(MissingDependency(), TestClasses(), ClasseDependente, TestRank());
      out.0 == Err(ClassNotFound(ClasseInexistente)) && !Has(out.1, ClasseInexistente)
  {
    var s := MissingDependency();
    TestRanked(s);
    var s1 := ClosurePrologue(s, ClasseDependente);
    UnknownClass(s1, TestClasses(), ClasseInexistente, TestRank());
    MakeAllOne(s1, TestClasses(), ClasseInexistente, TestRank(), 1);
    DependencyErrorPropagates(s, TestClasses(), ClasseDependente, s.bindings[ClasseDependente].factory, TestRank());
  }

  /** `has` after `bind`, `remove` and `clear`. */
  lemma HasRemoveClear()
    ensures Has(Bind(Empty(), SomeClass, NewSomeClass()), SomeClass)
    ensures !Has(Bind(Empty(), SomeClass, NewSomeClass()), AnotherClass)
    ensures !Has(Remove(Bind(Empty(), SomeClass, NewSomeClass()), SomeClass), SomeClass)
    ensures !Has(Clear(TwoClosures()), SomeClass) && !Has(Clear(TwoClosures()), AnotherClass)
  {
  }

  /** `AliasClasse` aliased to the bound `SomeClass`. */
  function AliasToBound(): State
  {
    Alias(Bind(Empty(), SomeClass, NewSomeClass()), AliasClasse, SomeClass)
  }

  /** `make('AliasClasse')` reflects on `SomeClass` instead of running its closure, and
      caches the new object under the alias only. */
  lemma AliasResolvesByName()
    ensures Has(AliasToBound(), AliasClasse)
    ensures Ranked(AliasToBound().bindings, AliasToBound().instances, TestClasses(), TestRank())
    ensures var out := Make(AliasToBound(), TestClasses(), AliasClasse, TestRank());
      && out.0 == Ok(Obj(0, SomeClass, []))
      && out.1.bindings == AliasToBound().bindings
      && out.1.instances == map[AliasClasse := Obj(0, SomeClass, [])]
      && out.1.next == 1
  {
    var s := AliasToBound();
    var ct, rank := TestClasses(), TestRank();
    TestRanked(s);
    assert Make(s, ct, AliasClasse, rank) == Reflect(s, ct, AliasClasse, SomeClass, rank);
    assert ResolveParams(s, ct, SomeClass, [], rank, 1) == (Ok([]), s);
  }

  /** After `make('AliasClasse')`, `get(SomeClass)` takes the closure path (`Invoke`) of
      the closure bound to `SomeClass` and returns a different `SomeClass` from the
      alias's. */
  lemma GetAfterAlias()
    ensures Ranked(AliasToBound().bindings, AliasToBound().instances, TestClasses(), TestRank())
    ensures var out := Make(AliasToBound(), TestClasses(), AliasClasse, TestRank());
      && Ranked(out.1.bindings, out.1.instances, TestClasses(), TestRank())
      && Get(out.1, TestClasses(), SomeClass, TestRank())
         == Invoke(Emit(out.1, DebugLevel, ResolvingViaGet(SomeClass)), TestClasses(), SomeClass, TestRank())
      && Get(out.1, TestClasses(), SomeClass, TestRank()).0 == Ok(Obj(1, SomeClass, []))
      && out.0 != Ok(Obj(1, SomeClass, []))
  {
    AliasResolvesByName();
    var out := Make(AliasToBound(), TestClasses(), AliasClasse, TestRank());
    TestRanked(out.1);
    var g := Emit(out.1, DebugLevel, ResolvingViaGet(SomeClass));
    ClosureWithoutDependencies(g, TestClasses(), SomeClass, NewSomeClass(), TestRank());
  }

  /** A container with a logger and `SomeClass` bound to a closure. */
  function Logged(): State
  {
    Bind(SetLogger(Empty()), SomeClass, NewSomeClass())
  }

  /** With a logger set, the last message after `bind` is the binding's, and after
      `make` of a closure that makes nothing it is the one naming the closure. */
  lemma LoggingTrace()
    ensures Logged().log == [LogEntry(DebugLevel, BindingClosure(SomeClass))]
    ensures Ranked(Logged().bindings, Logged().instances, TestClasses(), TestRank())
    ensures var out := Make(Logged(), TestClasses(), SomeClass, TestRank());
      |out.1.log| > 0 && out.1.log[|out.1.log| - 1] == LogEntry(DebugLevel, ResolvingUsing(SomeClass, ClosureCallable))
  {
    TestRanked(Logged());
    ClosureWithoutDependencies(Logged(), TestClasses(), SomeClass, NewSomeClass(), TestRank());
  }
}
