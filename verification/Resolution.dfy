/** One resolution as a function of the registrations and the objects already built. */
module Resolution {
  import opened DependencyGraph

  /** The objects a resolution reads and adds to. `serial` numbers factory calls. */
  datatype Heap = Heap(root: map<Key, Value>, scope: map<Key, Value>, serial: nat)

  /** The circumstances of one call: the async builds in flight, the factory calls that will
      raise, and whether async factories may be awaited. */
  datatype Context = Context(
    g: Graph,
    rootPending: set<Key>,
    scopePending: set<Key>,
    failing: set<nat>,
    asynchronous: bool)

  type Outcome<+T> = (Result<T>, Heap)

  predicate IsKnown(c: Context, inScope: bool, h: Heap, key: Key) {
    key in c.g.providers || (inScope && key in h.scope)
  }

  predicate Skipped(c: Context, inScope: bool, h: Heap, d: Dependency) {
    d.hasDefault && !IsKnown(c, inScope, h, Target(d))
  }

  /** `inScope` is "this engine has a scope"; a singleton is built by one that has none. */
  function Resolve(c: Context, inScope: bool, asked: Key, above: seq<Key>, h: Heap): (r: Outcome<Value>)
    requires above == [] || Unwrap(asked) in Mentioned(c.g)
    ensures Grows(above, h, r.1) && (!inScope ==> r.1.scope == h.scope)
    decreases Room(c.g, above), 0, 0
  {
    var key := Unwrap(asked);
    if key in above then (Err(Circular(above + [key])), h)
    else if inScope && key in h.scope then (Ok(h.scope[key]), h)
    else if Lookup(c.g, key).Err? then (Err(Lookup(c.g, key).error), h)
    else
      var p := Lookup(c.g, key).value;
      match Shortcut(c, inScope, p, key, h)
      case Some(r) => (r, h)
      case None =>
        RoomShrinks(c.g, above, key);
        var (v, h') := Build(c, inScope && p.lifetime != Singleton, p.factory, p.lifetime, above + [key], h);
        (v, Store(p.lifetime, key, v, h'))
  }

  /** A cached singleton, or a reason not to build at all. */
  function Shortcut(c: Context, inScope: bool, p: Provider, key: Key, h: Heap): Option<Result<Value>> {
    match p.lifetime
    case Transient => None
    case Scoped =>
      if !inScope then Some(Err(OutsideScope(key)))
      else if key in c.scopePending then Some(Err(BuildPending(key)))
      else None
    case Singleton =>
      if key in h.root then Some(Ok(h.root[key]))
      else if key in c.rootPending then Some(Err(BuildPending(key)))
      else None
  }

  function Store(lifetime: Lifetime, key: Key, v: Result<Value>, h: Heap): Heap {
    if v.Err? || lifetime == Transient then h
    else if lifetime == Scoped then h.(scope := h.scope[key := v.value])
    else h.(root := h.root[key := v.value])
  }

  /** What Resolve does with a key that must be built. */
  lemma ResolveBuilds(c: Context, inScope: bool, asked: Key, above: seq<Key>, h: Heap)
    requires above == [] || Unwrap(asked) in Mentioned(c.g)
    requires Unwrap(asked) !in above && !(inScope && Unwrap(asked) in h.scope)
    requires Lookup(c.g, Unwrap(asked)).Ok?
    requires Shortcut(c, inScope, Lookup(c.g, Unwrap(asked)).value, Unwrap(asked), h).None?
    ensures var p := Lookup(c.g, Unwrap(asked)).value;
      var (v, h') := Build(c, inScope && p.lifetime != Singleton, p.factory, p.lifetime, above + [Unwrap(asked)], h);
      Resolve(c, inScope, asked, above, h) == (v, Store(p.lifetime, Unwrap(asked), v, h'))
    ensures Room(c.g, above + [Unwrap(asked)]) < Room(c.g, above)
  {
    RoomShrinks(c.g, above, Unwrap(asked));
  }

  function Build(c: Context, inScope: bool, f: Factory, lifetime: Lifetime, stack: seq<Key>, h: Heap):
    (r: Outcome<Value>)
    requires stack != []
    ensures Grows(stack, h, r.1) && (!inScope ==> r.1.scope == h.scope)
    decreases Room(c.g, stack), 2, 0
  {
    if !c.asynchronous && IsAsync(f) then (Err(AsyncFactory(stack[|stack| - 1])), h)
    else if Plan(c.g, f).None? then (Err(Uninspectable(f)), h)
    else
      var (args, h') := Arguments(c, inScope, f, Plan(c.g, f).value, stack, h);
      if args.Err? then (Err(args.error), h')
      else Call(c, f, lifetime, stack[|stack| - 1], args.value, h')
  }

  function Call(c: Context, f: Factory, lifetime: Lifetime, key: Key, args: seq<Argument>, h: Heap): Outcome<Value> {
    var h' := h.(serial := h.serial + 1);
    if f.Constant? then (Ok(f.value), h')
    else if h.serial in c.failing then (Err(FactoryRaised(h.serial)), h')
    else (Ok(Built(h.serial, key, lifetime, args)), h')
  }

  function Arguments(c: Context, inScope: bool, f: Factory, deps: seq<Dependency>, stack: seq<Key>, h: Heap):
    (r: Outcome<seq<Argument>>)
    requires stack != [] && Plan(c.g, f).Some?
    requires forall d | d in deps :: d in Plan(c.g, f).value
    ensures Grows(stack, h, r.1) && (!inScope ==> r.1.scope == h.scope)
    decreases Room(c.g, stack), 1, |deps|
  {
    if deps == [] then (Ok([]), h)
    else if Skipped(c, inScope, h, deps[0]) then Arguments(c, inScope, f, deps[1..], stack, h)
    else
      PlanIsMentioned(c.g, f, deps[0]);
      var (v, h1) := Resolve(c, inScope, Target(deps[0]), stack, h);
      if v.Err? then (Err(v.error), h1)
      else
        var (rest, h2) := Arguments(c, inScope, f, deps[1..], stack, h1);
        if rest.Err? then (rest, h2)
        else (Ok([Argument(deps[0].name, deps[0].positional, v.value)] + rest.value), h2)
  }

  /** Nothing built is ever lost or replaced, and no key still being built appears. */
  ghost predicate Grows(stack: seq<Key>, h: Heap, h': Heap) {
    && h.serial <= h'.serial
    && Extends(h.scope, h'.scope)
    && Extends(h.root, h'.root)
    && (forall k | k in stack && k !in h.scope :: k !in h'.scope)
    && forall k | k in h'.scope && k !in h.scope :: k.Plain?
  }

  ghost predicate Extends(m: map<Key, Value>, m': map<Key, Value>) {
    forall k | k in m :: k in m' && m'[k] == m[k]
  }
}
