/** No singleton holds on to a scope: over whole runs of registrations, overrides and
    resolutions, checked or not. */
module Captivity {
  import opened DependencyGraph
  import opened Resolution

  predicate ScopeBound(v: Value) {
    if v.Given? then v.fromScope else v.lifetime == Scoped
  }

  /** `w` is `v` itself or was passed, through any number of constructors, into it. */
  ghost predicate Reaches(v: Value, w: Value) {
    v == w || (v.Built? && exists a | a in v.args :: Reaches(a.value, w))
  }

  predicate Free(v: Value) {
    !ScopeBound(v) && (v.Built? ==> forall a | a in v.args :: Free(a.value))
  }

  lemma {:induction false} FreeReachesNoScope(v: Value)
    ensures Free(v) <==> forall w | Reaches(v, w) :: !ScopeBound(w)
  {
    assert Reaches(v, v);
    if v.Built? {
      forall a | a in v.args ensures Free(a.value) <==> forall w | Reaches(a.value, w) :: !ScopeBound(w) {
        FreeReachesNoScope(a.value);
      }
    }
  }

  ghost predicate AllFree(m: map<Key, Value>) {
    forall k | k in m :: Free(m[k])
  }

  ghost predicate InstancesFree(providers: map<Key, Provider>) {
    forall k | k in providers && providers[k].factory.Constant? :: Free(providers[k].factory.value)
  }

  // --- One resolution ---------------------------------------------------------------------

  lemma {:induction false} ResolveKeepsFree(c: Context, inScope: bool, asked: Key, above: seq<Key>, h: Heap)
    requires above == [] || Unwrap(asked) in Mentioned(c.g)
    requires AllFree(h.root) && InstancesFree(c.g.providers)
    ensures AllFree(Resolve(c, inScope, asked, above, h).1.root)
    ensures var v := Resolve(c, inScope, asked, above, h).0; !inScope && v.Ok? ==> Free(v.value)
    decreases Room(c.g, above), 0, 1
  {
    var key := Unwrap(asked);
    if key !in above && !(inScope && key in h.scope) && Lookup(c.g, key).Ok? {
      if Shortcut(c, inScope, Lookup(c.g, key).value, key, h).None? {
        BuildingKeepsFree(c, inScope, asked, above, h);
      }
    }
  }

  lemma {:induction false} BuildingKeepsFree(c: Context, inScope: bool, asked: Key, above: seq<Key>, h: Heap)
    requires above == [] || Unwrap(asked) in Mentioned(c.g)
    requires AllFree(h.root) && InstancesFree(c.g.providers)
    requires Unwrap(asked) !in above && !(inScope && Unwrap(asked) in h.scope)
    requires Lookup(c.g, Unwrap(asked)).Ok?
    requires Shortcut(c, inScope, Lookup(c.g, Unwrap(asked)).value, Unwrap(asked), h).None?
    ensures AllFree(Resolve(c, inScope, asked, above, h).1.root)
    ensures var v := Resolve(c, inScope, asked, above, h).0; !inScope && v.Ok? ==> Free(v.value)
    decreases Room(c.g, above), 0, 0
  {
    ResolveBuilds(c, inScope, asked, above, h);
    var key := Unwrap(asked);
    var p := Lookup(c.g, key).value;
    var within := inScope && p.lifetime != Singleton;
    BuildKeepsFree(c, within, p.factory, p.lifetime, above + [key], h);
    var (v, h') := Build(c, within, p.factory, p.lifetime, above + [key], h);
    StoreKeepsFree(p.lifetime, key, v, h');
  }

  lemma StoreKeepsFree(lifetime: Lifetime, key: Key, v: Result<Value>, h: Heap)
    requires AllFree(h.root) && (lifetime == Singleton && v.Ok? ==> Free(v.value))
    ensures AllFree(Store(lifetime, key, v, h).root)
  {
  }

  lemma {:induction false} BuildKeepsFree(c: Context, inScope: bool, f: Factory, lifetime: Lifetime, stack: seq<Key>,
                                          h: Heap)
    requires stack != [] && (!inScope ==> lifetime != Scoped)
    requires AllFree(h.root) && InstancesFree(c.g.providers) && (f.Constant? ==> Free(f.value))
    ensures AllFree(Build(c, inScope, f, lifetime, stack, h).1.root)
    ensures var v := Build(c, inScope, f, lifetime, stack, h).0; !inScope && v.Ok? ==> Free(v.value)
    decreases Room(c.g, stack), 2, 0
  {
    if Plan(c.g, f).Some? {
      ArgumentsKeepFree(c, inScope, f, Plan(c.g, f).value, stack, h);
    }
  }

  lemma {:induction false} ArgumentsKeepFree(c: Context, inScope: bool, f: Factory, deps: seq<Dependency>,
                                             stack: seq<Key>, h: Heap)
    requires stack != [] && Plan(c.g, f).Some?
    requires forall d | d in deps :: d in Plan(c.g, f).value
    requires AllFree(h.root) && InstancesFree(c.g.providers)
    ensures AllFree(Arguments(c, inScope, f, deps, stack, h).1.root)
    ensures var r := Arguments(c, inScope, f, deps, stack, h).0;
      !inScope && r.Ok? ==> forall a | a in r.value :: Free(a.value)
    decreases Room(c.g, stack), 1, |deps|
  {
    if deps != [] {
      if Skipped(c, inScope, h, deps[0]) {
        ArgumentsKeepFree(c, inScope, f, deps[1..], stack, h);
      } else {
        PlanIsMentioned(c.g, f, deps[0]);
        ResolveKeepsFree(c, inScope, Target(deps[0]), stack, h);
        ArgumentsKeepFree(c, inScope, f, deps[1..], stack, Resolve(c, inScope, Target(deps[0]), stack, h).1);
      }
    }
  }

  // --- Whole runs -------------------------------------------------------------------------

  datatype Saved = Saved(key: Key, provider: Option<Provider>, instance: Option<Value>)

  /** A container, its open scopes and the overrides that have not ended. */
  datatype System = System(
    providers: map<Key, Provider>,
    root: map<Key, Value>,
    scopes: map<nat, map<Key, Value>>,
    overrides: map<nat, Saved>,
    serial: nat)

  datatype Operation =
    | Register(key: Key, factory: Factory, lifetime: Lifetime)
    | Instance(key: Key, value: Value)
    | EnterOverride(id: nat, key: Key, value: Value)
    | ExitOverride(id: nat)
    | OpenScope(scope: nat, values: map<Key, Value>)
    | CloseScope(scope: nat)
    | ResolveKey(within: Option<nat>, key: Key, failing: set<nat>, asynchronous: bool)

  const EMPTY := System(map[], map[], map[], map[], 0)

  function Registered(s: System, key: Key, p: Provider): System {
    s.(providers := s.providers[key := p], root := s.root - {key})
  }

  function WithInstance(s: System, key: Key, value: Value): System {
    var s' := Registered(s, key, Provider(Constant(value), Singleton));
    s'.(root := s'.root[key := value])
  }

  function Restored(s: System, saved: Saved): System {
    s.(providers := if saved.provider.Some? then s.providers[saved.key := saved.provider.value]
                    else s.providers - {saved.key},
       root := if saved.instance.Some? then s.root[saved.key := saved.instance.value] else s.root - {saved.key})
  }

  function Find<T>(m: map<Key, T>, key: Key): Option<T> {
    if key in m then Some(m[key]) else None
  }

  function Apply(plans: map<Factory, seq<Dependency>>, s: System, op: Operation): System {
    match op
    case Register(key, f, lifetime) => Registered(s, key, Provider(f, lifetime))
    case Instance(key, value) => WithInstance(s, key, value)
    case EnterOverride(id, key, value) =>
      WithInstance(s.(overrides := s.overrides[id := Saved(key, Find(s.providers, key), Find(s.root, key))]), key,
                   value)
    case ExitOverride(id) =>
      if id in s.overrides then Restored(s.(overrides := s.overrides - {id}), s.overrides[id]) else s
    case OpenScope(scope, values) => s.(scopes := s.scopes[scope := values])
    case CloseScope(scope) => s.(scopes := s.scopes[scope := map[]])
    case ResolveKey(within, key, failing, asynchronous) =>
      var inScope := within.Some? && within.value in s.scopes;
      var c := Context(Graph(s.providers, plans), {}, {}, failing, asynchronous);
      var h := Heap(s.root, if inScope then s.scopes[within.value] else map[], s.serial);
      var h' := Resolve(c, inScope, key, [], h).1;
      s.(root := h'.root, serial := h'.serial,
         scopes := if inScope then s.scopes[within.value := h'.scope] else s.scopes)
  }

  function Run(plans: map<Factory, seq<Dependency>>, s: System, ops: seq<Operation>): System
    decreases |ops|
  {
    if ops == [] then s else Run(plans, Apply(plans, s, ops[0]), ops[1..])
  }

  /** What a caller hands in as a ready-made singleton does not itself hold on to a scope, and
      `register` is given a factory, not an object. */
  predicate HandsInFree(op: Operation) {
    match op
    case Register(_, f, _) => !f.Constant?
    case Instance(_, v) => Free(v)
    case EnterOverride(_, _, v) => Free(v)
    case _ => true
  }

  ghost predicate NoCaptives(s: System) {
    && AllFree(s.root)
    && InstancesFree(s.providers)
    && forall id | id in s.overrides ::
         && (s.overrides[id].instance.Some? ==> Free(s.overrides[id].instance.value))
         && (s.overrides[id].provider.Some? && s.overrides[id].provider.value.factory.Constant? ==>
               Free(s.overrides[id].provider.value.factory.value))
  }

  /** Only a caller can make a singleton captive, by handing one in. */
  lemma OperationKeepsFreedom(plans: map<Factory, seq<Dependency>>, s: System, op: Operation)
    requires NoCaptives(s)
    requires op.Register? ==> !op.factory.Constant?
    ensures NoCaptives(Apply(plans, s, op)) <==> HandsInFree(op)
  {
    match op
    case Instance(key, value) => InstanceIsFree(s, key, value);
    case EnterOverride(id, key, value) =>
      InstanceIsFree(s.(overrides := s.overrides[id := Saved(key, Find(s.providers, key), Find(s.root, key))]), key,
                     value);
    case ResolveKey(within, key, failing, asynchronous) =>
      var inScope := within.Some? && within.value in s.scopes;
      var c := Context(Graph(s.providers, plans), {}, {}, failing, asynchronous);
      ResolveKeepsFree(c, inScope, key, [], Heap(s.root, if inScope then s.scopes[within.value] else map[], s.serial));
    case ExitOverride(id) =>
    case Register(_, _, _) =>
    case OpenScope(_, _) =>
    case CloseScope(_) =>
  }

  lemma InstanceIsFree(s: System, key: Key, value: Value)
    requires NoCaptives(s)
    ensures NoCaptives(WithInstance(s, key, value)) <==> Free(value)
  {
    var s' := WithInstance(s, key, value);
    assert s'.root[key] == value;
    assert forall k | k in s'.root && k != key :: s'.root[k] == s.root[k];
  }

  /** After any run, no singleton reaches, through any chain of constructor arguments, an
      object of a scope. */
  lemma {:induction false} NoCaptiveDependencies(plans: map<Factory, seq<Dependency>>, s: System, ops: seq<Operation>)
    requires NoCaptives(s)
    requires forall op | op in ops :: HandsInFree(op)
    ensures NoCaptives(Run(plans, s, ops))
    ensures forall k, w | k in Run(plans, s, ops).root && Reaches(Run(plans, s, ops).root[k], w) ::
      if w.Given? then !w.fromScope else w.lifetime != Scoped
    decreases |ops|
  {
    if ops == [] {
      forall k | k in s.root { FreeReachesNoScope(s.root[k]); }
    } else {
      assert HandsInFree(ops[0]);
      OperationKeepsFreedom(plans, s, ops[0]);
      NoCaptiveDependencies(plans, Apply(plans, s, ops[0]), ops[1..]);
    }
  }
}
