/** What the three lifetimes promise: one singleton, one scoped object a scope, a new transient
    every time, and every parameter given what it asks for. */
module Lifetimes {
  import opened DependencyGraph
  import opened Resolution
  import opened Captivity

  /** The object of a key: made elsewhere, built for it, or registered as it is. */
  ghost predicate IsFor(g: Graph, key: Key, v: Value) {
    v.Given? || v.key == key || (key in g.providers && g.providers[key].factory == Constant(v))
  }

  ghost predicate AllFor(g: Graph, h: Heap) {
    && (forall k | k in h.root :: IsFor(g, k, h.root[k]))
    && forall k | k in h.scope :: IsFor(g, k, h.scope[k])
  }

  ghost predicate Gives(g: Graph, key: Key, out: Outcome<Value>) {
    AllFor(g, out.1) && (out.0.Ok? ==> IsFor(g, key, out.0.value))
  }

  /** Resolving a key gives an object of that key, and keeps every object under its own. */
  lemma {:induction false} ResolveGivesWhatWasAsked(c: Context, inScope: bool, asked: Key, above: seq<Key>, h: Heap)
    requires above == [] || Unwrap(asked) in Mentioned(c.g)
    requires AllFor(c.g, h)
    ensures Gives(c.g, Unwrap(asked), Resolve(c, inScope, asked, above, h))
    decreases Room(c.g, above), 0, 1
  {
    var key := Unwrap(asked);
    if key !in above && !(inScope && key in h.scope) && Lookup(c.g, key).Ok? {
      if Shortcut(c, inScope, Lookup(c.g, key).value, key, h).None? {
        ResolveBuilds(c, inScope, asked, above, h);
        BuildingGivesItsKey(c, inScope && Lookup(c.g, key).value.lifetime != Singleton, key, above, h);
      }
    }
  }

  lemma {:induction false} BuildingGivesItsKey(c: Context, within: bool, key: Key, above: seq<Key>, h: Heap)
    requires Lookup(c.g, key).Ok? && Room(c.g, above + [key]) < Room(c.g, above) && AllFor(c.g, h)
    ensures var p := Lookup(c.g, key).value;
      var (v, h') := Build(c, within, p.factory, p.lifetime, above + [key], h);
      Gives(c.g, key, (v, Store(p.lifetime, key, v, h')))
    decreases Room(c.g, above), 0, 0
  {
    var p := Lookup(c.g, key).value;
    BuildGivesItsKey(c, within, p.factory, p.lifetime, above + [key], h);
    BuiltIsStored(c.g, key, Build(c, within, p.factory, p.lifetime, above + [key], h));
  }

  lemma BuiltIsStored(g: Graph, key: Key, built: Outcome<Value>)
    requires Lookup(g, key).Ok? && AllFor(g, built.1)
    requires var f := Lookup(g, key).value.factory;
      built.0.Ok? ==> if f.Constant? then built.0.value == f.value else built.0.value.Built? && built.0.value.key == key
    ensures Gives(g, key, (built.0, Store(Lookup(g, key).value.lifetime, key, built.0, built.1)))
  {
  }

  lemma {:induction false} BuildGivesItsKey(c: Context, inScope: bool, f: Factory, lifetime: Lifetime, stack: seq<Key>,
                                            h: Heap)
    requires stack != [] && AllFor(c.g, h)
    ensures var (r, h') := Build(c, inScope, f, lifetime, stack, h);
      AllFor(c.g, h')
        && (r.Ok? ==> if f.Constant? then r.value == f.value else r.value.Built? && r.value.key == stack[|stack| - 1])
    decreases Room(c.g, stack), 2, 0
  {
    if Plan(c.g, f).Some? {
      ArgumentsFollowThePlan(c, inScope, f, Plan(c.g, f).value, stack, h);
    }
  }

  /** Arguments in the order of the parameters: each parameter is given an object of its key, under
      its name and in its kind, unless it has a default and nothing is registered for it. */
  ghost predicate Follows(g: Graph, deps: seq<Dependency>, args: seq<Argument>)
    decreases |deps|
  {
    if deps == [] then args == []
    else
      || (deps[0].hasDefault && Target(deps[0]) !in g.providers && Follows(g, deps[1..], args))
      || (args != [] && args[0].name == deps[0].name && args[0].positional == deps[0].positional
          && IsFor(g, Unwrap(Target(deps[0])), args[0].value) && Follows(g, deps[1..], args[1..]))
  }

  lemma {:induction false} ArgumentsFollowThePlan(c: Context, inScope: bool, f: Factory, deps: seq<Dependency>,
                                                  stack: seq<Key>, h: Heap)
    requires stack != [] && Plan(c.g, f).Some? && AllFor(c.g, h)
    requires forall d | d in deps :: d in Plan(c.g, f).value
    ensures AllFor(c.g, Arguments(c, inScope, f, deps, stack, h).1)
    ensures var r := Arguments(c, inScope, f, deps, stack, h).0; r.Ok? ==> Follows(c.g, deps, r.value)
    decreases Room(c.g, stack), 1, |deps|
  {
    if deps != [] {
      if Skipped(c, inScope, h, deps[0]) {
        ArgumentsFollowThePlan(c, inScope, f, deps[1..], stack, h);
      } else {
        PlanIsMentioned(c.g, f, deps[0]);
        ResolveGivesWhatWasAsked(c, inScope, Target(deps[0]), stack, h);
        var (v, h') := Resolve(c, inScope, Target(deps[0]), stack, h);
        ArgumentsFollowThePlan(c, inScope, f, deps[1..], stack, h');
        var rest := Arguments(c, inScope, f, deps[1..], stack, h').0;
        if v.Ok? && rest.Ok? {
          assert ([Argument(deps[0].name, deps[0].positional, v.value)] + rest.value)[1..] == rest.value;
        }
      }
    }
  }

  // --- One object, or a new one ---------------------------------------------------------------------

  predicate Keeps(key: Key, out: Outcome<Value>) {
    out.0.Ok? && key in out.1.root && out.1.root[key] == out.0.value
  }

  /** What resolving a registered singleton leaves in the container. */
  lemma SingletonIsKept(c: Context, inScope: bool, asked: Key, above: seq<Key>, h: Heap)
    requires above == [] || Unwrap(asked) in Mentioned(c.g)
    requires Unwrap(asked) in c.g.providers && c.g.providers[Unwrap(asked)].lifetime == Singleton
    requires !(inScope && Unwrap(asked) in h.scope) && Resolve(c, inScope, asked, above, h).0.Ok?
    ensures Keeps(Unwrap(asked), Resolve(c, inScope, asked, above, h))
  {
    var key, p := Unwrap(asked), c.g.providers[Unwrap(asked)];
    if Shortcut(c, inScope, p, key, h).None? {
      ResolveBuilds(c, inScope, asked, above, h);
      StoredIsKept(key, Build(c, false, p.factory, Singleton, above + [key], h));
    }
  }

  lemma StoredIsKept(key: Key, built: Outcome<Value>)
    requires built.0.Ok?
    ensures Keeps(key, (built.0, Store(Singleton, key, built.0, built.1)))
  {
  }

  lemma KeptSingletonIsFound(c: Context, inScope: bool, asked: Key, h: Heap)
    requires Unwrap(asked) in c.g.providers && c.g.providers[Unwrap(asked)].lifetime == Singleton
    requires !(inScope && Unwrap(asked) in h.scope) && Unwrap(asked) in h.root
    ensures Resolve(c, inScope, asked, [], h) == (Ok(h.root[Unwrap(asked)]), h)
  {
  }

  /** Once resolved, a registered singleton is the same object for everyone, without another call:
      in any scope, and whatever was resolved in between. */
  lemma SingletonIsOne(c: Context, inScope: bool, asked: Key, above: seq<Key>, h: Heap, c': Context, inScope': bool,
                       asked': Key, h': Heap)
    requires above == [] || Unwrap(asked) in Mentioned(c.g)
    requires Unwrap(asked) in c.g.providers && c.g.providers[Unwrap(asked)].lifetime == Singleton
    requires !(inScope && Unwrap(asked) in h.scope) && Resolve(c, inScope, asked, above, h).0.Ok?
    requires c'.g == c.g && Unwrap(asked') == Unwrap(asked) && !(inScope' && Unwrap(asked) in h'.scope)
    requires Extends(Resolve(c, inScope, asked, above, h).1.root, h'.root)
    ensures Resolve(c', inScope', asked', [], h') == (Resolve(c, inScope, asked, above, h).0, h')
  {
    SingletonIsKept(c, inScope, asked, above, h);
    KeptSingletonIsFound(c', inScope', asked', h');
  }

  /** Once resolved in a scope, a scoped service is the same object throughout that scope. */
  lemma ScopedIsOnePerScope(c: Context, asked: Key, above: seq<Key>, h: Heap, c': Context, asked': Key, h': Heap)
    requires above == [] || Unwrap(asked) in Mentioned(c.g)
    requires Unwrap(asked) in c.g.providers && c.g.providers[Unwrap(asked)].lifetime == Scoped
    requires Resolve(c, true, asked, above, h).0.Ok? && Unwrap(asked') == Unwrap(asked)
    requires Extends(Resolve(c, true, asked, above, h).1.scope, h'.scope)
    ensures Resolve(c', true, asked', [], h') == (Resolve(c, true, asked, above, h).0, h')
  {
    var key := Unwrap(asked);
    if key !in h.scope {
      ResolveBuilds(c, true, asked, above, h);
    }
  }

  lemma BuildIsACall(c: Context, inScope: bool, f: Factory, lifetime: Lifetime, stack: seq<Key>, h: Heap)
    requires stack != [] && !f.Constant?
    ensures var (r, h') := Build(c, inScope, f, lifetime, stack, h);
      r.Ok? ==> r.value.Built? && r.value.lifetime == lifetime && h.serial <= r.value.serial < h'.serial
  {
  }

  /** A transient is built anew each time: it comes from a call that nothing older came from. */
  lemma TransientIsNew(c: Context, inScope: bool, asked: Key, above: seq<Key>, h: Heap)
    requires above == [] || Unwrap(asked) in Mentioned(c.g)
    requires Unwrap(asked) !in above && !(inScope && Unwrap(asked) in h.scope)
    requires Lookup(c.g, Unwrap(asked)).Ok? && Lookup(c.g, Unwrap(asked)).value.lifetime == Transient
    requires !Lookup(c.g, Unwrap(asked)).value.factory.Constant?
    ensures var (r, h') := Resolve(c, inScope, asked, above, h);
      r.Ok? ==> r.value.Built? && r.value.lifetime == Transient && h.serial <= r.value.serial < h'.serial
    ensures !(inScope && Unwrap(asked) in Resolve(c, inScope, asked, above, h).1.scope)
  {
    ResolveBuilds(c, inScope, asked, above, h);
    var key := Unwrap(asked);
    var p := Lookup(c.g, key).value;
    BuildIsACall(c, inScope, p.factory, Transient, above + [key], h);
    assert key in above + [key];
  }

  lemma TwoTransientsDiffer(c: Context, inScope: bool, asked: Key, h: Heap)
    requires !(inScope && Unwrap(asked) in h.scope)
    requires Lookup(c.g, Unwrap(asked)).Ok? && Lookup(c.g, Unwrap(asked)).value.lifetime == Transient
    requires !Lookup(c.g, Unwrap(asked)).value.factory.Constant?
    ensures var (first, h') := Resolve(c, inScope, asked, [], h);
      var second := Resolve(c, inScope, asked, [], h').0;
      first.Ok? && second.Ok? ==> first.value != second.value
  {
    TransientIsNew(c, inScope, asked, [], h);
    TransientIsNew(c, inScope, asked, [], Resolve(c, inScope, asked, [], h).1);
  }

  /** A singleton that was resolved in a run is kept: it is what any later resolution is given, in every scope
      that has no object of its own for the key. */
  lemma ResolvedSingletonIsShared(plans: map<Factory, seq<Dependency>>, s: System, within: Option<nat>, asked: Key,
                                  failing: set<nat>, asynchronous: bool, c': Context, inScope': bool, h': Heap)
    requires Unwrap(asked) in s.providers && s.providers[Unwrap(asked)].lifetime == Singleton
    requires within.Some? ==> within.value in s.scopes && Unwrap(asked) !in s.scopes[within.value]
    requires var s' := Apply(plans, s, ResolveKey(within, asked, failing, asynchronous));
      c'.g == Graph(s'.providers, plans) && h'.root == s'.root && !(inScope' && Unwrap(asked) in h'.scope)
    ensures var c := Context(Graph(s.providers, plans), {}, {}, failing, asynchronous);
      var h := Heap(s.root, if within.Some? then s.scopes[within.value] else map[], s.serial);
      var (r, after) := Resolve(c, within.Some?, asked, [], h);
      var s' := Apply(plans, s, ResolveKey(within, asked, failing, asynchronous));
      && s'.serial == after.serial
      && (r.Ok? ==> Resolve(c', inScope', asked, [], h') == (r, h'))
  {
    var c := Context(Graph(s.providers, plans), {}, {}, failing, asynchronous);
    var h := Heap(s.root, if within.Some? then s.scopes[within.value] else map[], s.serial);
    if Resolve(c, within.Some?, asked, [], h).0.Ok? {
      SingletonIsOne(c, within.Some?, asked, [], h, c', inScope', asked, h');
    }
  }

  /** And a scoped service is what any later resolution in its scope is given. */
  lemma ResolvedServiceIsShared(plans: map<Factory, seq<Dependency>>, s: System, scope: nat, asked: Key,
                                failing: set<nat>, asynchronous: bool, c': Context, h': Heap)
    requires Unwrap(asked) in s.providers && s.providers[Unwrap(asked)].lifetime == Scoped && scope in s.scopes
    requires var s' := Apply(plans, s, ResolveKey(Some(scope), asked, failing, asynchronous));
      scope in s'.scopes && h'.scope == s'.scopes[scope]
    ensures var c := Context(Graph(s.providers, plans), {}, {}, failing, asynchronous);
      var r := Resolve(c, true, asked, [], Heap(s.root, s.scopes[scope], s.serial)).0;
      r.Ok? ==> Resolve(c', true, asked, [], h') == (r, h')
  {
    var c := Context(Graph(s.providers, plans), {}, {}, failing, asynchronous);
    var h := Heap(s.root, s.scopes[scope], s.serial);
    if Resolve(c, true, asked, [], h).0.Ok? {
      ScopedIsOnePerScope(c, asked, [], h, c', asked, h');
    }
  }

  // --- Whole runs -------------------------------------------------------------------------------------

  /** The operation is not about `key`: it neither registers nor replaces it. */
  predicate Leaves(s: System, op: Operation, key: Key) {
    match op
    case Register(k, _, _) => k != key
    case Instance(k, _) => k != key
    case EnterOverride(_, k, _) => k != key
    case ExitOverride(id) => id in s.overrides ==> s.overrides[id].key != key
    case _ => true
  }

  ghost predicate AllLeave(plans: map<Factory, seq<Dependency>>, s: System, ops: seq<Operation>, key: Key)
    decreases |ops|
  {
    ops == [] || (Leaves(s, ops[0], key) && AllLeave(plans, Apply(plans, s, ops[0]), ops[1..], key))
  }

  /** Between its registrations a built singleton stays the one object it is, whatever else is
      registered, overridden or resolved. */
  lemma {:induction false} SingletonStays(plans: map<Factory, seq<Dependency>>, s: System, ops: seq<Operation>,
                                          key: Key)
    requires key in s.root && AllLeave(plans, s, ops, key)
    ensures key in Run(plans, s, ops).root && Run(plans, s, ops).root[key] == s.root[key]
    decreases |ops|
  {
    if ops != [] {
      SingletonStaysOnce(plans, s, ops[0], key);
      SingletonStays(plans, Apply(plans, s, ops[0]), ops[1..], key);
    }
  }

  lemma SingletonStaysOnce(plans: map<Factory, seq<Dependency>>, s: System, op: Operation, key: Key)
    requires key in s.root && Leaves(s, op, key)
    ensures key in Apply(plans, s, op).root && Apply(plans, s, op).root[key] == s.root[key]
  {
  }

  /** An override that is left restores what it replaced, whatever was done to other keys inside. */
  lemma OverrideIsUndone(plans: map<Factory, seq<Dependency>>, s: System, id: nat, key: Key, value: Value,
                         inside: seq<Operation>)
    requires id !in s.overrides && KeepsOverride(plans, Apply(plans, s, EnterOverride(id, key, value)), inside, id)
    ensures var after := Apply(plans, Run(plans, Apply(plans, s, EnterOverride(id, key, value)), inside),
                               ExitOverride(id));
      && Find(after.providers, key) == Find(s.providers, key) && Find(after.root, key) == Find(s.root, key)
  {
    SavedStays(plans, Apply(plans, s, EnterOverride(id, key, value)), inside, id);
  }

  ghost predicate KeepsOverride(plans: map<Factory, seq<Dependency>>, s: System, ops: seq<Operation>, id: nat)
    decreases |ops|
  {
    ops == [] || (ops[0] != ExitOverride(id) && !(ops[0].EnterOverride? && ops[0].id == id)
                  && KeepsOverride(plans, Apply(plans, s, ops[0]), ops[1..], id))
  }

  lemma {:induction false} SavedStays(plans: map<Factory, seq<Dependency>>, s: System, ops: seq<Operation>, id: nat)
    requires id in s.overrides && KeepsOverride(plans, s, ops, id)
    ensures id in Run(plans, s, ops).overrides && Run(plans, s, ops).overrides[id] == s.overrides[id]
    decreases |ops|
  {
    if ops != [] { SavedStays(plans, Apply(plans, s, ops[0]), ops[1..], id); }
  }
}
