/** Where every object comes from: over whole runs, what is kept or resolved under a key was handed in for it
    or made by a factory registered for it, from arguments of which the same is true. */
module Provenance {
  import opened DependencyGraph
  import opened Resolution
  import opened Captivity

  type Plans = map<Factory, seq<Dependency>>

  /** One of the operations `from` gave the object for the key. */
  ghost predicate Handed(from: iset<Operation>, key: Key, v: Value) {
    || Instance(key, v) in from
    || (exists id: nat :: EnterOverride(id, key, v) in from)
    || (exists lifetime :: Register(key, Constant(v), lifetime) in from)
    || exists scope: nat, values: map<Key, Value> ::
         OpenScope(scope, values) in from && key in values && values[key] == v
  }

  /** One of them registered the factory for the key, or nobody had to. */
  ghost predicate Makes(from: iset<Operation>, key: Key, f: Factory, lifetime: Lifetime) {
    || Register(key, f, lifetime) in from
    || (lifetime == Transient && f == ClassOf(key) && key.Plain? && key.t.Class? && key.t.shape == Concrete)
  }

  /** The parameters that are given an argument, in order: all but some that have a default. */
  predicate Keeps(plan: seq<Dependency>, kept: seq<Dependency>)
    decreases |plan|
  {
    if plan == [] then kept == []
    else
      || (plan[0].hasDefault && Keeps(plan[1..], kept))
      || (kept != [] && kept[0] == plan[0] && Keeps(plan[1..], kept[1..]))
  }

  ghost predicate Genuine(plans: Plans, from: iset<Operation>, key: Key, v: Value)
    decreases v
  {
    || Handed(from, key, v)
    || (v.Built? && v.key == key
        && exists f: Factory, kept: seq<Dependency> ::
             && Makes(from, key, f, v.lifetime) && f in plans && Keeps(plans[f], kept) && |kept| == |v.args|
             && forall i | 0 <= i < |v.args| ::
                  && v.args[i].name == kept[i].name && v.args[i].positional == kept[i].positional
                  && Genuine(plans, from, Unwrap(Target(kept[i])), v.args[i].value))
  }

  /** Each argument is for its parameter. */
  ghost predicate Suit(plans: Plans, from: iset<Operation>, kept: seq<Dependency>, args: seq<Argument>) {
    && |kept| == |args|
    && forall i | 0 <= i < |args| ::
         && args[i].name == kept[i].name && args[i].positional == kept[i].positional
         && Genuine(plans, from, Unwrap(Target(kept[i])), args[i].value)
  }

  ghost predicate Serves(plans: Plans, from: iset<Operation>, deps: seq<Dependency>, args: seq<Argument>) {
    exists kept :: Keeps(deps, kept) && Suit(plans, from, kept, args)
  }

  ghost predicate AllGenuine(plans: Plans, from: iset<Operation>, m: map<Key, Value>) {
    forall k | k in m :: Genuine(plans, from, k, m[k])
  }

  ghost predicate Sound(plans: Plans, from: iset<Operation>, h: Heap) {
    AllGenuine(plans, from, h.root) && AllGenuine(plans, from, h.scope)
  }

  /** What a provider makes for the key is accounted for. */
  ghost predicate Provides(from: iset<Operation>, key: Key, p: Provider) {
    if p.factory.Constant? then Handed(from, key, p.factory.value) else Makes(from, key, p.factory, p.lifetime)
  }

  ghost predicate AllProvide(from: iset<Operation>, providers: map<Key, Provider>) {
    forall k | k in providers :: Provides(from, k, providers[k])
  }

  lemma MadeIsGenuine(plans: Plans, from: iset<Operation>, key: Key, p: Provider, serial: nat, args: seq<Argument>)
    requires Provides(from, key, p) && !p.factory.Constant?
    requires p.factory in plans && Serves(plans, from, plans[p.factory], args)
    ensures Genuine(plans, from, key, Built(serial, key, p.lifetime, args))
  {
    var kept :| Keeps(plans[p.factory], kept) && Suit(plans, from, kept, args);
    var v := Built(serial, key, p.lifetime, args);
    assert Makes(from, key, p.factory, v.lifetime);
  }

  lemma FoundProvides(from: iset<Operation>, g: Graph, key: Key)
    requires AllProvide(from, g.providers) && Lookup(g, key).Ok?
    ensures Provides(from, key, Lookup(g, key).value)
  {
  }

  // --- One resolution ---------------------------------------------------------------------------------

  ghost predicate Yields(plans: Plans, from: iset<Operation>, key: Key, out: Outcome<Value>) {
    Sound(plans, from, out.1) && (out.0.Ok? ==> Genuine(plans, from, key, out.0.value))
  }

  lemma {:induction false} ResolveIsGenuine(c: Context, from: iset<Operation>, inScope: bool, asked: Key,
                                            above: seq<Key>, h: Heap)
    requires above == [] || Unwrap(asked) in Mentioned(c.g)
    requires Sound(c.g.plans, from, h) && AllProvide(from, c.g.providers)
    ensures Yields(c.g.plans, from, Unwrap(asked), Resolve(c, inScope, asked, above, h))
    decreases Room(c.g, above), 0, 1
  {
    var key := Unwrap(asked);
    if key !in above && !(inScope && key in h.scope) && Lookup(c.g, key).Ok? {
      if Shortcut(c, inScope, Lookup(c.g, key).value, key, h).None? {
        ResolveBuilds(c, inScope, asked, above, h);
        BuildingIsGenuine(c, from, inScope && Lookup(c.g, key).value.lifetime != Singleton, key, above, h);
      }
    }
  }

  lemma {:induction false} BuildingIsGenuine(c: Context, from: iset<Operation>, within: bool, key: Key,
                                             above: seq<Key>, h: Heap)
    requires Lookup(c.g, key).Ok? && Room(c.g, above + [key]) < Room(c.g, above)
    requires Sound(c.g.plans, from, h) && AllProvide(from, c.g.providers)
    ensures var p := Lookup(c.g, key).value;
      var (v, h') := Build(c, within, p.factory, p.lifetime, above + [key], h);
      Yields(c.g.plans, from, key, (v, Store(p.lifetime, key, v, h')))
    decreases Room(c.g, above), 0, 0
  {
    var p := Lookup(c.g, key).value;
    FoundProvides(from, c.g, key);
    BuildIsGenuine(c, from, within, p, above + [key], h);
    var (v, h') := Build(c, within, p.factory, p.lifetime, above + [key], h);
    StoredIsGenuine(c.g.plans, from, p.lifetime, key, v, h');
  }

  lemma StoredIsGenuine(plans: Plans, from: iset<Operation>, lifetime: Lifetime, key: Key, v: Result<Value>, h: Heap)
    requires Yields(plans, from, key, (v, h))
    ensures Yields(plans, from, key, (v, Store(lifetime, key, v, h)))
  {
  }

  lemma {:induction false} BuildIsGenuine(c: Context, from: iset<Operation>, inScope: bool, p: Provider,
                                          stack: seq<Key>, h: Heap)
    requires stack != [] && Provides(from, stack[|stack| - 1], p)
    requires Sound(c.g.plans, from, h) && AllProvide(from, c.g.providers)
    ensures Yields(c.g.plans, from, stack[|stack| - 1], Build(c, inScope, p.factory, p.lifetime, stack, h))
    decreases Room(c.g, stack), 2, 0
  {
    if Plan(c.g, p.factory).Some? {
      ArgumentsAreGenuine(c, from, inScope, p.factory, Plan(c.g, p.factory).value, stack, h);
      var (args, h') := Arguments(c, inScope, p.factory, Plan(c.g, p.factory).value, stack, h);
      if args.Ok? && !p.factory.Constant? {
        MadeIsGenuine(c.g.plans, from, stack[|stack| - 1], p, h'.serial, args.value);
      }
    }
  }

  lemma {:induction false} ArgumentsAreGenuine(c: Context, from: iset<Operation>, inScope: bool, f: Factory,
                                               deps: seq<Dependency>, stack: seq<Key>, h: Heap)
    requires stack != [] && Plan(c.g, f).Some? && forall d | d in deps :: d in Plan(c.g, f).value
    requires Sound(c.g.plans, from, h) && AllProvide(from, c.g.providers)
    ensures var (args, h') := Arguments(c, inScope, f, deps, stack, h);
      Sound(c.g.plans, from, h') && (args.Ok? ==> Serves(c.g.plans, from, deps, args.value))
    decreases Room(c.g, stack), 1, |deps|
  {
    if deps == [] {
      assert Keeps(deps, []) && Suit(c.g.plans, from, [], []);
    } else if Skipped(c, inScope, h, deps[0]) {
      ArgumentsAreGenuine(c, from, inScope, f, deps[1..], stack, h);
      var args := Arguments(c, inScope, f, deps[1..], stack, h).0;
      if args.Ok? { SkippedServes(c.g.plans, from, deps, args.value); }
    } else {
      PlanIsMentioned(c.g, f, deps[0]);
      ResolveIsGenuine(c, from, inScope, Target(deps[0]), stack, h);
      var (v, h') := Resolve(c, inScope, Target(deps[0]), stack, h);
      ArgumentsAreGenuine(c, from, inScope, f, deps[1..], stack, h');
      var rest := Arguments(c, inScope, f, deps[1..], stack, h').0;
      if v.Ok? && rest.Ok? { GivenServes(c.g.plans, from, deps, v.value, rest.value); }
    }
  }

  lemma SkippedServes(plans: Plans, from: iset<Operation>, deps: seq<Dependency>, args: seq<Argument>)
    requires deps != [] && deps[0].hasDefault && Serves(plans, from, deps[1..], args)
    ensures Serves(plans, from, deps, args)
  {
    var kept :| Keeps(deps[1..], kept) && Suit(plans, from, kept, args);
    assert Keeps(deps, kept);
  }

  lemma GivenServes(plans: Plans, from: iset<Operation>, deps: seq<Dependency>, v: Value, rest: seq<Argument>)
    requires deps != [] && Serves(plans, from, deps[1..], rest)
    requires Genuine(plans, from, Unwrap(Target(deps[0])), v)
    ensures Serves(plans, from, deps, [Argument(deps[0].name, deps[0].positional, v)] + rest)
  {
    var kept :| Keeps(deps[1..], kept) && Suit(plans, from, kept, rest);
    assert ([deps[0]] + kept)[1..] == kept;
    assert Keeps(deps, [deps[0]] + kept);
    assert Suit(plans, from, [deps[0]] + kept, [Argument(deps[0].name, deps[0].positional, v)] + rest);
  }

  // --- Whole runs -------------------------------------------------------------------------------------

  ghost predicate Accounted(plans: Plans, from: iset<Operation>, s: System) {
    && AllGenuine(plans, from, s.root)
    && (forall scope | scope in s.scopes :: AllGenuine(plans, from, s.scopes[scope]))
    && AllProvide(from, s.providers)
    && forall id | id in s.overrides :: SavedIsSound(plans, from, s.overrides[id])
  }

  ghost predicate SavedIsSound(plans: Plans, from: iset<Operation>, saved: Saved) {
    && (saved.provider.Some? ==> Provides(from, saved.key, saved.provider.value))
    && (saved.instance.Some? ==> Genuine(plans, from, saved.key, saved.instance.value))
  }

  lemma RegisteredKeepsAccounts(plans: Plans, from: iset<Operation>, s: System, key: Key, p: Provider)
    requires Accounted(plans, from, s) && Provides(from, key, p)
    ensures Accounted(plans, from, Registered(s, key, p))
  {
  }

  lemma InstanceKeepsAccounts(plans: Plans, from: iset<Operation>, s: System, key: Key, v: Value)
    requires Accounted(plans, from, s) && Handed(from, key, v)
    ensures Accounted(plans, from, WithInstance(s, key, v))
  {
    RegisteredKeepsAccounts(plans, from, s, key, Provider(Constant(v), Singleton));
  }

  lemma ResolveKeepsAccounts(plans: Plans, from: iset<Operation>, s: System, op: Operation)
    requires Accounted(plans, from, s) && op.ResolveKey?
    ensures Accounted(plans, from, Apply(plans, s, op))
  {
    var inScope := op.within.Some? && op.within.value in s.scopes;
    var c := Context(Graph(s.providers, plans), {}, {}, op.failing, op.asynchronous);
    var h := Heap(s.root, if inScope then s.scopes[op.within.value] else map[], s.serial);
    ResolveIsGenuine(c, from, inScope, op.key, [], h);
  }

  lemma OperationKeepsAccounts(plans: Plans, from: iset<Operation>, s: System, op: Operation)
    requires Accounted(plans, from, s) && op in from
    ensures Accounted(plans, from, Apply(plans, s, op))
  {
    match op
    case Register(key, f, lifetime) => RegisteredKeepsAccounts(plans, from, s, key, Provider(f, lifetime));
    case Instance(key, v) => InstanceKeepsAccounts(plans, from, s, key, v);
    case EnterOverride(id, key, v) =>
      var saved := Saved(key, Find(s.providers, key), Find(s.root, key));
      InstanceKeepsAccounts(plans, from, s.(overrides := s.overrides[id := saved]), key, v);
    case ExitOverride(id) =>
    case OpenScope(_, _) =>
    case CloseScope(_) =>
    case ResolveKey(_, _, _, _) => ResolveKeepsAccounts(plans, from, s, op);
  }

  lemma {:induction false} RunKeepsAccounts(plans: Plans, from: iset<Operation>, s: System, ops: seq<Operation>)
    requires Accounted(plans, from, s) && forall op | op in ops :: op in from
    ensures Accounted(plans, from, Run(plans, s, ops))
    decreases |ops|
  {
    if ops != [] {
      assert ops[0] in ops;
      OperationKeepsAccounts(plans, from, s, ops[0]);
      RunKeepsAccounts(plans, from, Apply(plans, s, ops[0]), ops[1..]);
    }
  }

  /** After any run, everything kept under a key was handed in for it or made by a factory registered for it,
      down to the last argument; and so is whatever is resolved then. */
  lemma EveryObjectIsAccountedFor(plans: Plans, ops: seq<Operation>, within: Option<nat>, asked: Key,
                                  failing: set<nat>, asynchronous: bool)
    ensures var s, from := Run(plans, EMPTY, ops), iset op | op in ops;
      var inScope := within.Some? && within.value in s.scopes;
      && (forall k | k in s.root :: Genuine(plans, from, k, s.root[k]))
      && (forall scope, k | scope in s.scopes && k in s.scopes[scope] :: Genuine(plans, from, k, s.scopes[scope][k]))
      && var r := Resolve(Context(Graph(s.providers, plans), {}, {}, failing, asynchronous), inScope, asked, [],
                          Heap(s.root, if inScope then s.scopes[within.value] else map[], s.serial)).0;
         r.Ok? ==> Genuine(plans, from, Unwrap(asked), r.value)
  {
    var s, from := Run(plans, EMPTY, ops), iset op | op in ops;
    RunKeepsAccounts(plans, from, EMPTY, ops);
    var inScope := within.Some? && within.value in s.scopes;
    var c := Context(Graph(s.providers, plans), {}, {}, failing, asynchronous);
    ResolveIsGenuine(c, from, inScope, asked, [],
                     Heap(s.root, if inScope then s.scopes[within.value] else map[], s.serial));
  }

  // --- What each operation changes --------------------------------------------------------------------

  /** Only what is registered and kept for `key` is different. */
  ghost predicate Replaced(s: System, s': System, key: Key, provider: Option<Provider>, instance: Option<Value>) {
    && (key in s'.providers <==> provider.Some?) && (provider.Some? ==> s'.providers[key] == provider.value)
    && (key in s'.root <==> instance.Some?) && (instance.Some? ==> s'.root[key] == instance.value)
    && s'.providers - {key} == s.providers - {key} && s'.root - {key} == s.root - {key}
    && s'.scopes == s.scopes && s'.serial == s.serial
  }

  /** A registration drops what was kept, an instance takes its place, an override remembers both, and resolving
      adds objects to the container and to its own scope. */
  lemma OperationsTakeEffect(plans: Plans, s: System, op: Operation)
    ensures var s' := Apply(plans, s, op);
      match op
      case Register(key, f, lifetime) =>
        Replaced(s, s', key, Some(Provider(f, lifetime)), None) && s'.overrides == s.overrides
      case Instance(key, v) =>
        Replaced(s, s', key, Some(Provider(Constant(v), Singleton)), Some(v)) && s'.overrides == s.overrides
      case EnterOverride(id, key, v) =>
        && Replaced(s, s', key, Some(Provider(Constant(v), Singleton)), Some(v))
        && s'.overrides == s.overrides[id := Saved(key, if key in s.providers then Some(s.providers[key]) else None,
                                                   if key in s.root then Some(s.root[key]) else None)]
      case ExitOverride(id) =>
        if id !in s.overrides then s' == s
        else Replaced(s, s', s.overrides[id].key, s.overrides[id].provider, s.overrides[id].instance)
             && s'.overrides == s.overrides - {id}
      case OpenScope(scope, values) => s' == s.(scopes := s.scopes[scope := values])
      case CloseScope(scope) => s' == s.(scopes := s.scopes[scope := map[]])
      case ResolveKey(within, _, _, _) =>
        && s'.providers == s.providers && s'.overrides == s.overrides && s'.serial >= s.serial
        && s'.scopes.Keys == s.scopes.Keys && Extends(s.root, s'.root)
        && forall scope | scope in s.scopes ::
             && Extends(s.scopes[scope], s'.scopes[scope])
             && (within != Some(scope) ==> s'.scopes[scope] == s.scopes[scope])
  {
  }
}
