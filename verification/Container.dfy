/** The container, its scopes and the two walks over them, updating their state in place. */
module Container {
  import opened DependencyGraph
  import R = Resolution
  import C = Checker
  import S = Captivity

  class ScopeState {
    var instances: map<Key, Value>
    var pending: set<Key>

    constructor (values: map<Key, Value>)
      ensures instances == values && pending == {}
    {
      instances, pending := values, {};
    }
  }

  class Container {
    var providers: map<Key, Provider>
    var plans: map<Factory, seq<Dependency>>
    var autowired: set<Key>
    var serial: nat
    const root: ScopeState
    /** What inspecting each factory gives, and the factory calls that will raise. */
    const signatures: map<Factory, seq<Dependency>>
    const failing: set<nat>

    /** The two memo tables only repeat what they were computed from. */
    ghost predicate Valid()
      reads this
    {
      && (forall f | f in plans :: f in signatures && plans[f] == signatures[f])
      && forall k | k in autowired :: Autowire(k) == Ok(ClassOf(k))
    }

    constructor (signatures: map<Factory, seq<Dependency>>, failing: set<nat>)
      ensures Valid() && fresh(root) && root.instances == map[] && root.pending == {}
      ensures providers == map[] && this.signatures == signatures && this.failing == failing
    {
      root := new ScopeState(map[]);
      providers, plans, autowired, serial := map[], map[], {}, 0;
      this.signatures, this.failing := signatures, failing;
    }

    method Register(key: Key, factory: Factory, lifetime: Lifetime)
      modifies this`providers, root`instances
      ensures providers == old(providers)[key := Provider(factory, lifetime)]
      ensures root.instances == old(root.instances) - {key}
    {
      providers := providers[key := Provider(factory, lifetime)];
      root.instances := root.instances - {key};
    }

    method Instance(key: Key, value: Value)
      modifies this`providers, root`instances
      ensures providers == old(providers)[key := Provider(Constant(value), Singleton)]
      ensures root.instances == old(root.instances)[key := value]
    {
      Register(key, Constant(value), Singleton);
      root.instances := root.instances[key := value];
    }

    method EnterOverride(key: Key, value: Value) returns (saved: S.Saved)
      modifies this`providers, root`instances
      ensures saved == S.Saved(key, S.Find(old(providers), key), S.Find(old(root.instances), key))
      ensures providers == old(providers)[key := Provider(Constant(value), Singleton)]
      ensures root.instances == old(root.instances)[key := value]
    {
      saved := S.Saved(key, S.Find(providers, key), S.Find(root.instances, key));
      Instance(key, value);
    }

    /** Leaving an override directly after entering it undoes it. */
    method ExitOverride(saved: S.Saved)
      modifies this`providers, root`instances
      ensures S.Find(providers, saved.key) == saved.provider && S.Find(root.instances, saved.key) == saved.instance
      ensures providers - {saved.key} == old(providers) - {saved.key}
      ensures root.instances - {saved.key} == old(root.instances) - {saved.key}
    {
      providers := providers - {saved.key};
      root.instances := root.instances - {saved.key};
      if saved.provider.Some? {
        providers := providers[saved.key := saved.provider.value];
      }
      if saved.instance.Some? {
        root.instances := root.instances[saved.key := saved.instance.value];
      }
    }

    method PlanOf(f: Factory) returns (r: Result<seq<Dependency>>)
      requires Valid()
      modifies this`plans
      ensures Valid()
      ensures r == match Plan(Graph(providers, signatures), f) case Some(p) => Ok(p) case None => Err(Uninspectable(f))
    {
      if f.Constant? {
        return Ok([]);
      }
      if f in plans {
        return Ok(plans[f]);
      }
      if f !in signatures {
        return Err(Uninspectable(f));
      }
      plans := plans[f := signatures[f]];
      return Ok(signatures[f]);
    }

    method Wire(key: Key) returns (r: Result<Factory>)
      requires Valid()
      modifies this`autowired
      ensures Valid() && r == Autowire(key)
      ensures if key.Plain? && key.t.Class? && key.t.shape == Concrete then r == Ok(ClassOf(key))
              else r == Err(Unwirable(key))
    {
      if key in autowired {
        return Ok(ClassOf(key));
      }
      r := Autowire(key);
      if r.Ok? {
        autowired := autowired + {key};
      }
    }
  }

  /** The result of a loop that has gathered `args` and has `deps` left to inject. */
  ghost function Rest(c: R.Context, inScope: bool, f: Factory, deps: seq<Dependency>, stack: seq<Key>, h: R.Heap,
                      args: seq<Argument>): R.Outcome<seq<Argument>>
    requires stack != [] && Plan(c.g, f).Some? && forall d | d in deps :: d in Plan(c.g, f).value
  {
    var (rest, h') := R.Arguments(c, inScope, f, deps, stack, h);
    (if rest.Ok? then Ok(args + rest.value) else rest, h')
  }

  lemma RestInjects(c: R.Context, inScope: bool, f: Factory, deps: seq<Dependency>, stack: seq<Key>, h: R.Heap,
                    args: seq<Argument>)
    requires stack != [] && Plan(c.g, f).Some? && deps != [] && forall d | d in deps :: d in Plan(c.g, f).value
    requires !R.Skipped(c, inScope, h, deps[0])
    ensures Unwrap(Target(deps[0])) in Mentioned(c.g)
    ensures var (v, h') := R.Resolve(c, inScope, Target(deps[0]), stack, h);
      Rest(c, inScope, f, deps, stack, h, args) ==
      if v.Err? then (Err(v.error), h')
      else Rest(c, inScope, f, deps[1..], stack, h', args + [Argument(deps[0].name, deps[0].positional, v.value)])
  {
    PlanIsMentioned(c.g, f, deps[0]);
    var (v, h') := R.Resolve(c, inScope, Target(deps[0]), stack, h);
    if v.Ok? {
      var arg := Argument(deps[0].name, deps[0].positional, v.value);
      var rest := R.Arguments(c, inScope, f, deps[1..], stack, h').0;
      if rest.Ok? { assert args + ([arg] + rest.value) == (args + [arg]) + rest.value; }
    }
  }

  lemma RestSkips(c: R.Context, inScope: bool, f: Factory, deps: seq<Dependency>, stack: seq<Key>, h: R.Heap,
                  args: seq<Argument>)
    requires stack != [] && Plan(c.g, f).Some? && deps != [] && forall d | d in deps :: d in Plan(c.g, f).value
    requires R.Skipped(c, inScope, h, deps[0])
    ensures Rest(c, inScope, f, deps, stack, h, args) == Rest(c, inScope, f, deps[1..], stack, h, args)
  {
  }

  class ResolutionEngine {
    const container: Container
    const state: ScopeState?

    constructor (container: Container, state: ScopeState?)
      ensures this.container == container && this.state == state
    {
      this.container, this.state := container, state;
    }

    ghost function Own(): set<ScopeState> {
      if state == null then {} else {state}
    }

    ghost predicate Ready(c: R.Context)
      reads container, container.root, state
    {
      && container.Valid() && state != container.root && !c.asynchronous
      && c.g == Graph(container.providers, container.signatures) && c.failing == container.failing
      && c.rootPending == container.root.pending
      && (state != null ==> c.scopePending == state.pending)
    }

    /** The objects seen from here; an engine without a scope leaves the caller's alone. */
    ghost function View(outer: map<Key, Value>): R.Heap
      reads container, container.root, state
    {
      R.Heap(container.root.instances, if state == null then outer else state.instances, container.serial)
    }

    method Resolve(asked: Key, above: seq<Key>, ghost c: R.Context, ghost outer: map<Key, Value>)
      returns (r: Result<Value>)
      requires Ready(c) && (above == [] || Unwrap(asked) in Mentioned(c.g))
      modifies container`plans, container`autowired, container`serial, container.root`instances, Own()`instances
      ensures Ready(c)
      ensures (r, View(outer)) == R.Resolve(c, state != null, asked, above, old(View(outer)))
      decreases Room(c.g, above), 0, 0
    {
      var key := Unwrap(asked);
      if key in above {
        return Err(Circular(above + [key]));
      }
      var stack := above + [key];
      if state != null && key in state.instances {
        return Ok(state.instances[key]);
      }
      RoomShrinks(c.g, above, key);
      if key in container.providers {
        r := Provided(container.providers[key], key, stack, c, outer);
      } else {
        var wired := container.Wire(key);
        if wired.Err? {
          return Err(wired.error);
        }
        r := Build(wired.value, Transient, stack, c, outer);
      }
    }

    /** The three lifetimes: build, or use and fill the scope's or the container's cache. */
    method Provided(p: Provider, key: Key, stack: seq<Key>, ghost c: R.Context, ghost outer: map<Key, Value>)
      returns (r: Result<Value>)
      requires Ready(c) && stack != []
      modifies container`plans, container`autowired, container`serial, container.root`instances, Own()`instances
      ensures Ready(c)
      ensures match R.Shortcut(c, state != null, p, key, old(View(outer)))
        case Some(found) => r == found && View(outer) == old(View(outer))
        case None =>
          var (v, h) := R.Build(c, state != null && p.lifetime != Singleton, p.factory, p.lifetime, stack,
                                old(View(outer)));
          r == v && View(outer) == R.Store(p.lifetime, key, v, h)
      decreases Room(c.g, stack), 3, 0
    {
      match p.lifetime {
        case Transient =>
          r := Build(p.factory, Transient, stack, c, outer);
        case Scoped =>
          if state == null {
            return Err(OutsideScope(key));
          }
          if key in state.pending {
            return Err(BuildPending(key));
          }
          r := Build(p.factory, Scoped, stack, c, outer);
          if r.Ok? {
            state.instances := state.instances[key := r.value];
          }
        case Singleton =>
          if key in container.root.instances {
            return Ok(container.root.instances[key]);
          }
          if key in container.root.pending {
            return Err(BuildPending(key));
          }
          var rootEngine := new ResolutionEngine(container, null);
          r := rootEngine.Build(p.factory, Singleton, stack, c, if state == null then outer else state.instances);
          if r.Ok? {
            container.root.instances := container.root.instances[key := r.value];
          }
      }
    }

    /** _is_known: registered, or an object of the scope. */
    predicate IsKnown(key: Key)
      reads container, state
    {
      key in container.providers || (state != null && key in state.instances)
    }

    /** One turn of the loop over a plan: a parameter with a default is left alone unless its key
        is known. `deps` are the parameters still to come, this one first. */
    method Inject(d: Dependency, args: seq<Argument>, stack: seq<Key>, ghost f: Factory, ghost deps: seq<Dependency>,
                  ghost c: R.Context, ghost outer: map<Key, Value>)
      returns (r: Result<seq<Argument>>)
      requires Ready(c) && stack != [] && Plan(c.g, f).Some? && deps != [] && deps[0] == d
      requires forall d | d in deps :: d in Plan(c.g, f).value
      modifies container`plans, container`autowired, container`serial, container.root`instances, Own()`instances
      ensures Ready(c)
      ensures Rest(c, state != null, f, deps, stack, old(View(outer)), args)
           == if r.Err? then (Err(r.error), View(outer))
             else Rest(c, state != null, f, deps[1..], stack, View(outer), r.value)
      decreases Room(c.g, stack), 1, 0
    {
      if d.hasDefault && !IsKnown(Target(d)) {
        RestSkips(c, state != null, f, deps, stack, View(outer), args);
        return Ok(args);
      }
      RestInjects(c, state != null, f, deps, stack, View(outer), args);
      var v := Resolve(Target(d), stack, c, outer);
      if v.Err? {
        return Err(v.error);
      }
      return Ok(args + [Argument(d.name, d.positional, v.value)]);
    }

    method Arguments(f: Factory, stack: seq<Key>, ghost c: R.Context, ghost outer: map<Key, Value>)
      returns (r: Result<seq<Argument>>)
      requires Ready(c) && stack != []
      modifies container`plans, container`autowired, container`serial, container.root`instances, Own()`instances
      ensures Ready(c)
      ensures Plan(c.g, f).None? ==> r == Err(Uninspectable(f)) && View(outer) == old(View(outer))
      ensures Plan(c.g, f).Some? ==>
        (r, View(outer)) == R.Arguments(c, state != null, f, Plan(c.g, f).value, stack, old(View(outer)))
      decreases Room(c.g, stack), 1, 1
    {
      var plan := container.PlanOf(f);
      if plan.Err? {
        return Err(plan.error);
      }
      var deps, args, i := plan.value, [], 0;
      ghost var result := R.Arguments(c, state != null, f, deps, stack, View(outer));
      assert deps[0..] == deps;
      assert result.0.Ok? ==> [] + result.0.value == result.0.value;
      while i < |deps|
        invariant 0 <= i <= |deps| && Ready(c)
        invariant Rest(c, state != null, f, deps[i..], stack, View(outer), args) == result
      {
        assert deps[i..][0] == deps[i] && deps[i..][1..] == deps[i + 1..];
        var more := Inject(deps[i], args, stack, f, deps[i..], c, outer);
        if more.Err? {
          return Err(more.error);
        }
        args := more.value;
        i := i + 1;
      }
      assert deps[i..] == [] && args + [] == args;
      return Ok(args);
    }

    method Build(f: Factory, lifetime: Lifetime, stack: seq<Key>, ghost c: R.Context, ghost outer: map<Key, Value>)
      returns (r: Result<Value>)
      requires Ready(c) && stack != []
      modifies container`plans, container`autowired, container`serial, container.root`instances, Own()`instances
      ensures Ready(c)
      ensures (r, View(outer)) == R.Build(c, state != null, f, lifetime, stack, old(View(outer)))
      decreases Room(c.g, stack), 2, 0
    {
      var key := stack[|stack| - 1];
      if IsAsync(f) {
        return Err(AsyncFactory(key));
      }
      var args := Arguments(f, stack, c, outer);
      if args.Err? {
        return Err(args.error);
      }
      var call := container.serial;
      container.serial := call + 1;
      if f.Constant? {
        return Ok(f.value);
      }
      if call in container.failing {
        return Err(FactoryRaised(call));
      }
      return Ok(Built(call, key, lifetime, args.value));
    }
  }

  class DependencyChecker {
    const container: Container
    const asynchronous: bool
    var seen: set<C.Node>

    constructor (container: Container, asynchronous: bool)
      ensures this.container == container && this.asynchronous == asynchronous && seen == {}
    {
      this.container, this.asynchronous, seen := container, asynchronous, {};
    }

    method Check(asked: Key, above: seq<Key>, owner: Lifetime, ghost g: Graph) returns (r: Result<()>)
      requires container.Valid() && g == Graph(container.providers, container.signatures)
      requires above == [] || Unwrap(asked) in Mentioned(g)
      modifies this`seen, container`plans, container`autowired
      ensures container.Valid() && (r, seen) == C.Check(g, asynchronous, asked, above, owner, old(seen))
      decreases Room(g, above), 0, 0
    {
      var key := Unwrap(asked);
      if key in above {
        return Err(Circular(above + [key]));
      }
      var stack := above + [key];
      if key == REQUEST {
        if owner == Singleton {
          return Err(CapturesRequest(stack));
        }
        return Ok(());
      }
      var found := Find(key, g);
      if found.Err? {
        return Err(found.error);
      }
      var factory, lifetime := found.value.factory, found.value.lifetime;
      if lifetime == Scoped && owner == Singleton {
        return Err(CapturesScoped(stack));
      }
      if !asynchronous && IsAsync(factory) {
        return Err(AsyncFactory(key));
      }
      var marker := C.Node(key, owner == Singleton);
      if marker in seen {
        return Ok(());
      }
      seen := seen + {marker};
      RoomShrinks(g, above, key);
      r := CheckPlan(factory, stack, if owner == Singleton || lifetime == Singleton then Singleton else lifetime, g);
    }

    method Find(key: Key, ghost g: Graph) returns (r: Result<Provider>)
      requires container.Valid() && g.providers == container.providers
      modifies container`autowired
      ensures container.Valid() && r == Lookup(g, key)
    {
      if key in container.providers {
        return Ok(container.providers[key]);
      }
      var wired := container.Wire(key);
      if wired.Err? {
        return Err(wired.error);
      }
      return Ok(Provider(wired.value, Transient));
    }

    /** The loop over a factory's parameters. */
    method CheckPlan(f: Factory, stack: seq<Key>, effective: Lifetime, ghost g: Graph) returns (r: Result<()>)
      requires container.Valid() && g == Graph(container.providers, container.signatures) && stack != []
      modifies this`seen, container`plans, container`autowired
      ensures container.Valid()
      ensures (r, seen) == match Plan(g, f)
        case Some(deps) => C.CheckAll(g, asynchronous, f, deps, stack, effective, old(seen))
        case None => (Err(Uninspectable(f)), old(seen))
      decreases Room(g, stack), 1, 0
    {
      var plan := container.PlanOf(f);
      if plan.Err? {
        return Err(plan.error);
      }
      var deps, i := plan.value, 0;
      assert deps[0..] == deps;
      while i < |deps|
        invariant 0 <= i <= |deps| && container.Valid()
        invariant C.CheckAll(g, asynchronous, f, deps[i..], stack, effective, seen)
               == C.CheckAll(g, asynchronous, f, deps, stack, effective, old(seen))
      {
        var d := deps[i];
        assert deps[i..][0] == d && deps[i..][1..] == deps[i + 1..];
        PlanIsMentioned(g, f, d);
        if !(d.hasDefault && Target(d) !in container.providers) {
          var checked := Check(Target(d), stack, effective, g);
          if checked.Err? {
            return checked;
          }
        }
        i := i + 1;
      }
      return Ok(());
    }
  }
}
