/** The checker's promise: an accepted key resolves, and only an accepted key does. */
module Prediction {
  import opened DependencyGraph
  import opened Resolution
  import opened Checker

  /** Looking a scope value up by what a parameter asks for always finds it again. */
  ghost predicate ClosedUnderUnwrap(keys: set<Key>) {
    forall k | k in keys :: Unwrap(k) in keys
  }

  ghost predicate Quiet(c: Context) {
    c.rootPending == {} && c.scopePending == {}
  }

  ghost predicate Delivers(r: Result<Value>) {
    r.Ok? || r.error.FactoryRaised?
  }

  /** The scope an engine works in: the request is there and nothing being built is. */
  ghost predicate GoodScope(inScope: bool, above: seq<Key>, h: Heap) {
    inScope ==>
      && REQUEST in h.scope && ClosedUnderUnwrap(h.scope.Keys)
      && forall k | k in above :: k !in h.scope
  }

  lemma ScopeStaysGood(inScope: bool, above: seq<Key>, h: Heap, h': Heap)
    requires GoodScope(inScope, above, h) && Grows(above, h, h')
    ensures GoodScope(inScope, above, h')
  {
    forall k | inScope && k in h'.scope ensures Unwrap(k) in h'.scope {
      assert Unwrap(k) in h.scope || k == Unwrap(k);
    }
  }

  // --- Soundness ------------------------------------------------------------------------

  /** What an engine may be asked for: a scope value, or a node of the derivation. */
  ghost predicate Expected(inScope: bool, key: Key, above: seq<Key>, h: Heap, done: seq<Node>) {
    || (inScope && key in h.scope)
    || (Node(key, !inScope) in done && Deeper(done, above, Node(key, !inScope)))
  }

  lemma {:induction false} DerivedResolves(c: Context, inScope: bool, asked: Key, above: seq<Key>, h: Heap,
                                           done: seq<Node>)
    requires above == [] || Unwrap(asked) in Mentioned(c.g)
    requires Quiet(c) && Derivation(c.g, c.asynchronous, done)
    requires GoodScope(inScope, above, h)
    requires Expected(inScope, Unwrap(asked), above, h, done)
    ensures Delivers(Resolve(c, inScope, asked, above, h).0)
    decreases Room(c.g, above), 0, 0
  {
    var key := Unwrap(asked);
    if !(inScope && key in h.scope) {
      var n := Node(key, !inScope);
      DeeperIsFresh(done, above, n);
      assert Grounded(c.g, c.asynchronous, done[Position(done, n)], done[..Position(done, n)]);
      var p := Lookup(c.g, key).value;
      if Shortcut(c, inScope, p, key, h).None? {
        ResolveBuilds(c, inScope, asked, above, h);
        DerivedBuilds(c, inScope && p.lifetime != Singleton, n, above, h, done);
      }
    }
  }

  lemma {:induction false} DerivedBuilds(c: Context, inScope: bool, n: Node, above: seq<Key>, h: Heap, done: seq<Node>)
    requires Quiet(c) && Derivation(c.g, c.asynchronous, done)
    requires Sound(c.g, c.asynchronous, n) && n in done && Deeper(done, above, n)
    requires inScope <==> !(n.captive || Lookup(c.g, n.key).value.lifetime == Singleton)
    requires GoodScope(inScope, above + [n.key], h)
    ensures var p := Lookup(c.g, n.key).value;
      Delivers(Build(c, inScope, p.factory, p.lifetime, above + [n.key], h).0)
    decreases Room(c.g, above + [n.key]), 2, 0
  {
    DerivedArguments(c, inScope, n, Plan(c.g, Lookup(c.g, n.key).value.factory).value, above, h, done);
  }

  lemma {:induction false} DerivedArguments(c: Context, inScope: bool, n: Node, deps: seq<Dependency>, above: seq<Key>,
                                            h: Heap, done: seq<Node>)
    requires Quiet(c) && Derivation(c.g, c.asynchronous, done)
    requires Sound(c.g, c.asynchronous, n) && n in done && Deeper(done, above, n)
    requires inScope <==> !(n.captive || Lookup(c.g, n.key).value.lifetime == Singleton)
    requires forall d | d in deps :: d in Plan(c.g, Lookup(c.g, n.key).value.factory).value
    requires GoodScope(inScope, above + [n.key], h)
    ensures var r := Arguments(c, inScope, Lookup(c.g, n.key).value.factory, deps, above + [n.key], h).0;
      r.Ok? || r.error.FactoryRaised?
    decreases Room(c.g, above + [n.key]), 1, |deps|
  {
    if deps != [] {
      var f, stack, d := Lookup(c.g, n.key).value.factory, above + [n.key], deps[0];
      if Skipped(c, inScope, h, d) {
        DerivedArguments(c, inScope, n, deps[1..], above, h, done);
      } else {
        PlanIsMentioned(c.g, f, d);
        if !Ignored(c.g, d) {
          ChildIsDeeper(c.g, c.asynchronous, done, above, n, d);
        }
        DerivedResolves(c, inScope, Target(d), stack, h, done);
        var h' := Resolve(c, inScope, Target(d), stack, h).1;
        ScopeStaysGood(inScope, stack, h, h');
        DerivedArguments(c, inScope, n, deps[1..], above, h', done);
      }
    }
  }

  /** A key the checker accepts resolves in every request scope with any objects already
      built: only a factory's own exception can come out. `asynchronous` covers both uses. */
  lemma CheckedKeyResolves(c: Context, asked: Key, h: Heap)
    requires Check(c.g, c.asynchronous, asked, [], Transient, {}).0.Ok?
    requires Quiet(c)
    requires REQUEST in h.scope && ClosedUnderUnwrap(h.scope.Keys)
    ensures Delivers(Resolve(c, true, asked, [], h).0)
  {
    var done := AcceptedIsDerived(c.g, c.asynchronous, asked, [], Transient, {}, []);
    DerivedResolves(c, true, asked, [], h, done);
  }

  // --- Exactness in a fresh request scope ---------------------------------------------------

  /** Objects already built come from nodes of the derivation, or were registered as they are. */
  ghost predicate Explained(g: Graph, h: Heap, done: seq<Node>) {
    && (forall k | k in h.scope && k != REQUEST :: Node(k, false) in done)
    && (forall k | k in h.root && k in g.providers && g.providers[k].lifetime == Singleton ::
          g.providers[k].factory.Constant? || (Node(k, false) in done && Node(k, true) in done))
  }

  function RequestProvider(g: Graph): Option<Provider> {
    if REQUEST in g.providers then Some(g.providers[REQUEST]) else None
  }

  /** Asking for the request where there is none fails, whatever is registered beside it. */
  predicate FailsOutside(p: Option<Provider>, asynchronous: bool) {
    p.Some? ==> p.value.lifetime == Scoped || (!asynchronous && IsAsync(p.value.factory))
  }

  lemma ExplainedStays(g: Graph, h: Heap, done: seq<Node>, done': seq<Node>)
    requires Explained(g, h, done) && done <= done'
    ensures Explained(g, h, done')
  {
  }

  lemma DerivedAreSound(g: Graph, a: bool, done: seq<Node>)
    requires Derivation(g, a, done)
    ensures forall n | n in done :: Sound(g, a, n)
  {
    forall n | n in done ensures Sound(g, a, n) {
      var i := Position(done, n);
      assert Grounded(g, a, done[i], done[..i]);
    }
  }

  lemma {:induction false} ResolvedIsDerived(c: Context, inScope: bool, asked: Key, above: seq<Key>, h: Heap,
                                             done: seq<Node>)
    returns (done': seq<Node>)
    requires above == [] || Unwrap(asked) in Mentioned(c.g)
    requires FailsOutside(RequestProvider(c.g), c.asynchronous) && (inScope ==> REQUEST in h.scope)
    requires Derivation(c.g, c.asynchronous, done) && Explained(c.g, h, done)
    requires Resolve(c, inScope, asked, above, h).0.Ok?
    ensures Derivation(c.g, c.asynchronous, done') && done <= done'
    ensures Explained(c.g, Resolve(c, inScope, asked, above, h).1, done')
    ensures Settled(Node(Unwrap(asked), !inScope), done')
    decreases Room(c.g, above), 0, 1
  {
    var key := Unwrap(asked);
    done' := done;
    if !(inScope && key in h.scope) {
      var p := Lookup(c.g, key).value;
      DerivedAreSound(c.g, c.asynchronous, done);
      if p.lifetime != Singleton || key !in h.root {
        done' := BuildIsListed(c, inScope, asked, above, h, done);
      } else if p.factory.Constant? {
        done' := ListBuilt(c.g, c.asynchronous, key, inScope, done);
        ExplainedStays(c.g, h, done, done');
      }
    }
  }

  lemma BuiltIsNotTheRequest(c: Context, inScope: bool, key: Key, h: Heap)
    requires FailsOutside(RequestProvider(c.g), c.asynchronous) && (inScope ==> REQUEST in h.scope)
    requires !(inScope && key in h.scope) && Lookup(c.g, key).Ok?
    requires var p := Lookup(c.g, key).value;
      Shortcut(c, inScope, p, key, h).None? && (c.asynchronous || !IsAsync(p.factory))
    ensures key != REQUEST
  {
  }

  lemma {:induction false} BuildIsListed(c: Context, inScope: bool, asked: Key, above: seq<Key>, h: Heap,
                                         done: seq<Node>)
    returns (done': seq<Node>)
    requires above == [] || Unwrap(asked) in Mentioned(c.g)
    requires FailsOutside(RequestProvider(c.g), c.asynchronous) && (inScope ==> REQUEST in h.scope)
    requires Derivation(c.g, c.asynchronous, done) && Explained(c.g, h, done)
    requires Unwrap(asked) !in above && !(inScope && Unwrap(asked) in h.scope)
    requires Lookup(c.g, Unwrap(asked)).Ok?
    requires Shortcut(c, inScope, Lookup(c.g, Unwrap(asked)).value, Unwrap(asked), h).None?
    requires Resolve(c, inScope, asked, above, h).0.Ok?
    ensures Derivation(c.g, c.asynchronous, done') && done <= done'
    ensures Explained(c.g, Resolve(c, inScope, asked, above, h).1, done')
    ensures Node(Unwrap(asked), !inScope) in done'
    decreases Room(c.g, above), 0, 0
  {
    ResolveBuilds(c, inScope, asked, above, h);
    var key := Unwrap(asked);
    var p := Lookup(c.g, key).value;
    var within := inScope && p.lifetime != Singleton;
    var mid := BuiltIsDerived(c, within, p.factory, p.lifetime, above + [key], h, done);
    BuiltIsNotTheRequest(c, inScope, key, h);
    done' := BuiltIsExplained(c, inScope, key, Build(c, within, p.factory, p.lifetime, above + [key], h), mid);
  }

  lemma BuiltIsExplained(c: Context, inScope: bool, key: Key, built: Outcome<Value>, mid: seq<Node>)
    returns (done': seq<Node>)
    requires Sound(c.g, c.asynchronous, Node(key, !inScope)) && Derivation(c.g, c.asynchronous, mid)
    requires built.0.Ok? && Explained(c.g, built.1, mid)
    requires var p := Lookup(c.g, key).value;
      && (p.lifetime == Scoped ==> inScope)
      && forall d | d in Plan(c.g, p.factory).value && !Ignored(c.g, d) ::
           Settled(Node(Unwrap(Target(d)), !(inScope && p.lifetime != Singleton)), mid)
    ensures Derivation(c.g, c.asynchronous, done') && mid <= done' && Node(key, !inScope) in done'
    ensures Explained(c.g, Store(Lookup(c.g, key).value.lifetime, key, built.0, built.1), done')
  {
    done' := ListBuilt(c.g, c.asynchronous, key, inScope, mid);
    ExplainedStays(c.g, built.1, mid, done');
  }

  /** A built key is listed after what it needed; a singleton needs the same at both levels. */
  lemma ListBuilt(g: Graph, a: bool, key: Key, inScope: bool, done: seq<Node>) returns (done': seq<Node>)
    requires Sound(g, a, Node(key, !inScope)) && Derivation(g, a, done)
    requires var p := Lookup(g, key).value;
      forall d | d in Plan(g, p.factory).value && !Ignored(g, d) ::
        Settled(Node(Unwrap(Target(d)), !(inScope && p.lifetime != Singleton)), done)
    ensures Derivation(g, a, done') && done <= done' && Node(key, !inScope) in done'
    ensures Lookup(g, key).value.lifetime == Singleton ==> Node(key, false) in done' && Node(key, true) in done'
  {
    var p := Lookup(g, key).value;
    if p.lifetime == Singleton {
      GroundedByChildren(g, a, Node(key, false), Singleton, done);
      GroundedByChildren(g, a, Node(key, true), Singleton, done);
      TwoAppend(g, a, done, Node(key, false), Node(key, true));
      done' := done + [Node(key, false), Node(key, true)];
    } else {
      GroundedByChildren(g, a, Node(key, !inScope), if inScope then p.lifetime else Singleton, done);
      DerivationAppends(g, a, done, Node(key, !inScope));
      done' := done + [Node(key, !inScope)];
    }
  }

  lemma TwoAppend(g: Graph, a: bool, done: seq<Node>, n: Node, n': Node)
    requires Derivation(g, a, done) && Grounded(g, a, n, done) && Grounded(g, a, n', done)
    ensures Derivation(g, a, done + [n, n'])
  {
    DerivationAppends(g, a, done, n);
    DerivationAppends(g, a, done + [n], n');
    assert done + [n] + [n'] == done + [n, n'];
  }

  lemma {:induction false} BuiltIsDerived(c: Context, inScope: bool, f: Factory, lifetime: Lifetime, stack: seq<Key>,
                                          h: Heap, done: seq<Node>)
    returns (done': seq<Node>)
    requires stack != [] && FailsOutside(RequestProvider(c.g), c.asynchronous) && (inScope ==> REQUEST in h.scope)
    requires Derivation(c.g, c.asynchronous, done) && Explained(c.g, h, done)
    requires Build(c, inScope, f, lifetime, stack, h).0.Ok?
    ensures (c.asynchronous || !IsAsync(f)) && Plan(c.g, f).Some?
    ensures Derivation(c.g, c.asynchronous, done') && done <= done'
    ensures Explained(c.g, Build(c, inScope, f, lifetime, stack, h).1, done')
    ensures forall d | d in Plan(c.g, f).value && !Ignored(c.g, d) :: Settled(Node(Unwrap(Target(d)), !inScope), done')
    decreases Room(c.g, stack), 2, 0
  {
    done' := ArgumentsAreDerived(c, inScope, f, Plan(c.g, f).value, stack, h, done);
  }

  lemma {:induction false} ArgumentsAreDerived(c: Context, inScope: bool, f: Factory, deps: seq<Dependency>,
                                               stack: seq<Key>, h: Heap, done: seq<Node>)
    returns (done': seq<Node>)
    requires stack != [] && Plan(c.g, f).Some? && FailsOutside(RequestProvider(c.g), c.asynchronous)
    requires inScope ==> REQUEST in h.scope
    requires forall d | d in deps :: d in Plan(c.g, f).value
    requires Derivation(c.g, c.asynchronous, done) && Explained(c.g, h, done)
    requires Arguments(c, inScope, f, deps, stack, h).0.Ok?
    ensures Derivation(c.g, c.asynchronous, done') && done <= done'
    ensures Explained(c.g, Arguments(c, inScope, f, deps, stack, h).1, done')
    ensures forall d | d in deps && !Ignored(c.g, d) :: Settled(Node(Unwrap(Target(d)), !inScope), done')
    decreases Room(c.g, stack), 1, |deps|
  {
    done' := done;
    if deps != [] {
      if Skipped(c, inScope, h, deps[0]) {
        done' := ArgumentsAreDerived(c, inScope, f, deps[1..], stack, h, done);
      } else {
        PlanIsMentioned(c.g, f, deps[0]);
        var mid := ResolvedIsDerived(c, inScope, Target(deps[0]), stack, h, done);
        var h' := Resolve(c, inScope, Target(deps[0]), stack, h).1;
        done' := ArgumentsAreDerived(c, inScope, f, deps[1..], stack, h', mid);
        SettledStays(Node(Unwrap(Target(deps[0])), !inScope), mid, done');
      }
    }
  }

  /** A container nothing was built in yet, except objects registered as they are. */
  ghost predicate Fresh(g: Graph, h: Heap) {
    && h.scope.Keys == {REQUEST}
    && forall k | k in h.root :: k in g.providers && g.providers[k].factory.Constant?
  }

  /** The checker is exact: in a fresh request scope whose factories do not raise, a key is
      accepted if and only if resolving it succeeds, although the checker prunes what it has
      seen and the engine prunes what it has built. */
  lemma CheckIsExact(c: Context, asked: Key, h: Heap)
    requires Quiet(c) && c.failing == {} && FailsOutside(RequestProvider(c.g), c.asynchronous) && Fresh(c.g, h)
    ensures Check(c.g, c.asynchronous, asked, [], Transient, {}).0.Ok? <==> Resolve(c, true, asked, [], h).0.Ok?
  {
    if Check(c.g, c.asynchronous, asked, [], Transient, {}).0.Ok? {
      CheckedKeyResolves(c, asked, h);
      NothingRaises(c, true, asked, [], h);
    }
    if Resolve(c, true, asked, [], h).0.Ok? {
      var done := ResolvedIsDerived(c, true, asked, [], h, []);
      DerivedIsAccepted(c.g, c.asynchronous, asked, [], Transient, {}, done);
    }
  }

  lemma SingletonsMissTheRequest(g: Graph, a: bool, done: seq<Node>, n: Node, d: Dependency)
    requires Derivation(g, a, done) && n in done && Lookup(g, n.key).Ok? && Lookup(g, n.key).value.lifetime == Singleton
    requires var plan := Plan(g, Lookup(g, n.key).value.factory); plan.Some? && d in plan.value && !Ignored(g, d)
    ensures Unwrap(Target(d)) != REQUEST
  {
    var i := Position(done, n);
    assert Grounded(g, a, done[i], done[..i]);
    DerivedAreSound(g, a, done);
    SettledStays(Child(g, n, d), done[..i], done);
  }

  /** A singleton whose constructor must be given the request is never accepted. */
  lemma SingletonsMayNotAskForTheRequest(g: Graph, a: bool, asked: Key, d: Dependency)
    requires asked.Plain? && asked != REQUEST && Lookup(g, asked).Ok? && Lookup(g, asked).value.lifetime == Singleton
    requires var plan := Plan(g, Lookup(g, asked).value.factory); plan.Some? && d in plan.value
    requires !Ignored(g, d) && Unwrap(Target(d)) == REQUEST
    ensures Check(g, a, asked, [], Transient, {}).0.Err?
  {
    if Check(g, a, asked, [], Transient, {}).0.Ok? {
      var done := AcceptedIsDerived(g, a, asked, [], Transient, {}, []);
      SingletonsMissTheRequest(g, a, done, Node(asked, false), d);
      assert false;
    }
  }

  // --- A provider for the request itself ------------------------------------------------------

  const SERVICE := Plain(Class("Service", Concrete))
  const NEEDS_REQUEST := Dependency("request", REQUEST, false, false)

  /** A factory that is not the request's own. */
  function ServiceFactory(p: Provider): Factory {
    if p.factory == Function("f", PlainCall) then Function("g", PlainCall) else Function("f", PlainCall)
  }

  /** A singleton that asks for the request, beside a provider for it that needs nothing. */
  function RequestRegistered(p: Provider): Graph {
    Graph(map[REQUEST := p, SERVICE := Provider(ServiceFactory(p), Singleton)],
          map[p.factory := [], ServiceFactory(p) := [NEEDS_REQUEST]])
  }

  lemma OneArgument(c: Context, f: Factory, d: Dependency, stack: seq<Key>, h: Heap)
    requires stack != [] && Plan(c.g, f) == Some([d]) && !d.hasDefault && Unwrap(Target(d)) in Mentioned(c.g)
    requires Resolve(c, false, Target(d), stack, h).0.Ok?
    ensures Arguments(c, false, f, [d], stack, h).0.Ok?
  {
    assert [d][1..] == [];
    var h' := Resolve(c, false, Target(d), stack, h).1;
    assert Arguments(c, false, f, [d][1..], stack, h') == (Ok([]), h');
  }

  lemma BuiltWithArguments(c: Context, f: Factory, lifetime: Lifetime, stack: seq<Key>, h: Heap)
    requires stack != [] && Plan(c.g, f).Some? && (c.asynchronous || !IsAsync(f)) && c.failing == {}
    requires Arguments(c, false, f, Plan(c.g, f).value, stack, h).0.Ok?
    ensures Build(c, false, f, lifetime, stack, h).0.Ok?
  {
  }

  lemma RequestIsFound(c: Context, p: Provider, h: Heap)
    requires c.g == RequestRegistered(p) && !FailsOutside(Some(p), c.asynchronous)
    requires Quiet(c) && c.failing == {} && REQUEST in Mentioned(c.g)
    ensures Resolve(c, false, REQUEST, [SERVICE], h).0.Ok?
  {
    assert Unwrap(REQUEST) == REQUEST;
    if Shortcut(c, false, p, REQUEST, h).None? {
      assert Arguments(c, false, p.factory, [], [SERVICE] + [REQUEST], h) == (Ok([]), h);
      BuiltWithArguments(c, p.factory, p.lifetime, [SERVICE] + [REQUEST], h);
      ResolveBuilds(c, false, REQUEST, [SERVICE], h);
    }
  }

  lemma RequestIsInjected(c: Context, p: Provider, h: Heap)
    requires c.g == RequestRegistered(p) && !FailsOutside(Some(p), c.asynchronous)
    requires Quiet(c) && c.failing == {} && Fresh(c.g, h)
    ensures Resolve(c, true, SERVICE, [], h).0.Ok?
  {
    var f := ServiceFactory(p);
    PlanIsMentioned(c.g, f, NEEDS_REQUEST);
    RequestIsFound(c, p, h);
    OneArgument(c, f, NEEDS_REQUEST, [SERVICE], h);
    BuiltWithArguments(c, f, Singleton, [SERVICE], h);
    assert Unwrap(SERVICE) == SERVICE && [] + [SERVICE] == [SERVICE];
    ResolveBuilds(c, true, SERVICE, [], h);
  }

  /** Where resolving the registered request outside a scope succeeds, the checker is stricter than the
      engine: a singleton that asks for it is rejected, but gets the registered one. */
  lemma RegisteredRequestIsOverlooked(c: Context, p: Provider, h: Heap)
    requires c.g == RequestRegistered(p) && !FailsOutside(Some(p), c.asynchronous)
    requires Quiet(c) && c.failing == {} && Fresh(c.g, h)
    ensures Check(c.g, c.asynchronous, SERVICE, [], Transient, {}).0.Err? && Resolve(c, true, SERVICE, [], h).0.Ok?
  {
    SingletonsMayNotAskForTheRequest(c.g, c.asynchronous, SERVICE, NEEDS_REQUEST);
    RequestIsInjected(c, p, h);
  }

  ghost predicate CheckAgrees(c: Context, asked: Key, h: Heap) {
    Check(c.g, c.asynchronous, asked, [], Transient, {}).0.Ok? <==> Resolve(c, true, asked, [], h).0.Ok?
  }

  /** Whatever else is registered around this provider of the request, checks tell the truth. */
  ghost predicate ExactAround(p: Option<Provider>, asynchronous: bool) {
    forall c: Context, asked: Key, h: Heap |
      c.asynchronous == asynchronous && RequestProvider(c.g) == p && Quiet(c) && c.failing == {} && Fresh(c.g, h) ::
      CheckAgrees(c, asked, h)
  }

  /** The checker is exact in every graph around a provider of the request if and only if there is
      none, or the engine could not use it where there is no request. */
  lemma CheckIsExactExactly(p: Option<Provider>, asynchronous: bool)
    ensures ExactAround(p, asynchronous) <==> FailsOutside(p, asynchronous)
  {
    if FailsOutside(p, asynchronous) {
      forall c: Context, asked: Key, h: Heap |
        c.asynchronous == asynchronous && RequestProvider(c.g) == p && Quiet(c) && c.failing == {} && Fresh(c.g, h)
        ensures CheckAgrees(c, asked, h)
      {
        CheckIsExact(c, asked, h);
      }
    } else {
      var c := Context(RequestRegistered(p.value), {}, {}, {}, asynchronous);
      var h := Heap(map[], map[REQUEST := Given(0, true)], 0);
      RegisteredRequestIsOverlooked(c, p.value, h);
      assert !CheckAgrees(c, SERVICE, h);
    }
  }

  lemma {:induction false} NothingRaises(c: Context, inScope: bool, asked: Key, above: seq<Key>, h: Heap)
    requires above == [] || Unwrap(asked) in Mentioned(c.g)
    requires c.failing == {}
    ensures var r := Resolve(c, inScope, asked, above, h).0; r.Err? ==> !r.error.FactoryRaised?
    decreases Room(c.g, above), 0, 0
  {
    var key := Unwrap(asked);
    if key !in above && !(inScope && key in h.scope) && Lookup(c.g, key).Ok? {
      var p := Lookup(c.g, key).value;
      if Shortcut(c, inScope, p, key, h).None? {
        ResolveBuilds(c, inScope, asked, above, h);
        NothingBuiltRaises(c, inScope && p.lifetime != Singleton, p.factory, p.lifetime, above + [key], h);
      }
    }
  }

  lemma {:induction false} NothingBuiltRaises(c: Context, inScope: bool, f: Factory, lifetime: Lifetime,
                                              stack: seq<Key>, h: Heap)
    requires stack != [] && c.failing == {}
    ensures var r := Build(c, inScope, f, lifetime, stack, h).0; r.Err? ==> !r.error.FactoryRaised?
    decreases Room(c.g, stack), 2, 0
  {
    if Plan(c.g, f).Some? {
      NoArgumentRaises(c, inScope, f, Plan(c.g, f).value, stack, h);
    }
  }

  lemma {:induction false} NoArgumentRaises(c: Context, inScope: bool, f: Factory, deps: seq<Dependency>,
                                            stack: seq<Key>, h: Heap)
    requires stack != [] && Plan(c.g, f).Some?
    requires forall d | d in deps :: d in Plan(c.g, f).value
    requires c.failing == {}
    ensures var r := Arguments(c, inScope, f, deps, stack, h).0; r.Err? ==> !r.error.FactoryRaised?
    decreases Room(c.g, stack), 1, |deps|
  {
    if deps != [] {
      if Skipped(c, inScope, h, deps[0]) {
        NoArgumentRaises(c, inScope, f, deps[1..], stack, h);
      } else {
        PlanIsMentioned(c.g, f, deps[0]);
        NothingRaises(c, inScope, Target(deps[0]), stack, h);
        NoArgumentRaises(c, inScope, f, deps[1..], stack, Resolve(c, inScope, Target(deps[0]), stack, h).1);
      }
    }
  }

  // --- Which scope values the promise survives ------------------------------------------------

  /** Scopes holding `keys` honour every check that passed. */
  ghost predicate HonoursChecks(keys: set<Key>) {
    forall c: Context, asked: Key, h: Heap |
      Quiet(c) && h.scope.Keys == keys && Check(c.g, c.asynchronous, asked, [], Transient, {}).0.Ok? ::
      Delivers(Resolve(c, true, asked, [], h).0)
  }

  /** A scope value stored under `Annotated[X, ...]` makes an optional parameter look known,
      but the engine then looks `X` up. Request scopes keep the checker's promise exactly when
      the unwrapped key is there too. */
  lemma ScopeValuesThatKeepThePromise(keys: set<Key>)
    requires REQUEST in keys
    ensures HonoursChecks(keys) <==> ClosedUnderUnwrap(keys)
  {
    if ClosedUnderUnwrap(keys) {
      forall c: Context, asked: Key, h: Heap |
        Quiet(c) && h.scope.Keys == keys && Check(c.g, c.asynchronous, asked, [], Transient, {}).0.Ok?
        ensures Delivers(Resolve(c, true, asked, [], h).0)
      {
        CheckedKeyResolves(c, asked, h);
      }
    } else {
      var k :| k in keys && Unwrap(k) !in keys;
      BrokenPromise(keys, k);
    }
  }

  /** The counterexample: a service with an optional parameter of its own annotated type. */
  lemma BrokenPromise(keys: set<Key>, k: Key)
    requires REQUEST in keys && k in keys && Unwrap(k) !in keys
    ensures !HonoursChecks(keys)
  {
    var x, f := Unwrap(k), Function("f", PlainCall);
    var d := Dependency("again", Plain(UnionOf([k, NONE_TYPE])), false, true);
    assert [k, NONE_TYPE][1..] == [NONE_TYPE] && [NONE_TYPE][1..] == [];
    assert DropNone([k, NONE_TYPE]) == [k] + DropNone([NONE_TYPE]);
    assert DropNone([NONE_TYPE]) == [];
    assert DropNone(d.key.t.members) == [k];
    assert Target(d) == k;
    var g := Graph(map[x := Provider(f, Transient)], map[f := [d]]);
    var c := Context(g, {}, {}, {}, false);
    var h := Heap(map[], map key | key in keys :: Given(0, true), 0);
    assert Ignored(g, d) && !Skipped(c, true, h, d);
    assert [d][1..] == [] && [] + [x] == [x];
    assert Ignored(g, [d][0]);
    assert Lookup(g, x) == Ok(Provider(f, Transient)) && Plan(g, f) == Some([d]);
    assert CheckAll(g, false, f, [d], [x], Transient, {Node(x, false)}).0
      == CheckAll(g, false, f, [], [x], Transient, {Node(x, false)}).0;
    assert {} + {Node(x, false)} == {Node(x, false)};
    assert Check(g, false, x, [], Transient, {}).0.Ok?;
    PlanIsMentioned(g, f, d);
    assert Resolve(c, true, k, [x], h).0 == Err(Circular([x] + [x]));
    assert Arguments(c, true, f, [d], [x], h).0 == Err(Circular([x] + [x]));
    assert Build(c, true, f, Transient, [x], h).0 == Err(Circular([x] + [x]));
    assert Resolve(c, true, x, [], h).0 == Err(Circular([x] + [x]));
    assert h.scope.Keys == keys;
  }
}
