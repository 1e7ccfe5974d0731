/** What one resolution and one check answer, said from the registrations, the signatures and the
    objects at hand alone. */
module Answers {
  import opened DependencyGraph
  import opened Resolution
  import opened Checker

  // --- Which keys can be built at all -----------------------------------------------------------

  /** An unregistered key that is not a plain concrete class is refused by both walks, whatever else is
      registered: protocols, abstract classes, builtins, unions and the request are never built. */
  lemma UnregisteredIsRefused(c: Context, inScope: bool, asked: Key, above: seq<Key>, h: Heap, owner: Lifetime,
                              seen: set<Node>)
    requires above == [] || Plain(asked.t) in Mentioned(c.g)
    requires Plain(asked.t) !in c.g.providers && Plain(asked.t) !in above
    requires !(asked.t.Class? && asked.t.shape == Concrete)
    ensures !(inScope && Plain(asked.t) in h.scope) ==>
      Resolve(c, inScope, asked, above, h) == (Err(Unwirable(Plain(asked.t))), h)
    ensures asked.t != HttpRequest ==>
      Check(c.g, c.asynchronous, asked, above, owner, seen) == (Err(Unwirable(Plain(asked.t))), seen)
  {
  }

  /** What a resolution does once a factory is to be called for `key`: it gathers the arguments of its
      signature, calls it, and keeps the object where the lifetime says. */
  ghost predicate BuildsWith(c: Context, inScope: bool, f: Factory, lifetime: Lifetime, key: Key, above: seq<Key>,
                             h: Heap, out: Outcome<Value>)
  {
    if !c.asynchronous && f.Function? && (f.kind == Coroutine || f.kind == AsyncGenerator) then
      out == (Err(AsyncFactory(key)), h)
    else if f.Constant? then
      out.0 == Ok(f.value) && Keeps(lifetime, key, f.value, h.(serial := h.serial + 1), out.1)
    else if f !in c.g.plans then out == (Err(Uninspectable(f)), h)
    else
      var (args, h') := Arguments(c, inScope && lifetime != Singleton, f, c.g.plans[f], above + [key], h);
      if args.Err? then out == (Err(args.error), h')
      else if h'.serial in c.failing then out == (Err(FactoryRaised(h'.serial)), h'.(serial := h'.serial + 1))
      else
        var v := Built(h'.serial, key, lifetime, args.value);
        out.0 == Ok(v) && Keeps(lifetime, key, v, h'.(serial := h'.serial + 1), out.1)
  }

  ghost predicate Keeps(lifetime: Lifetime, key: Key, v: Value, h: Heap, h': Heap) {
    match lifetime
    case Transient => h' == h
    case Scoped => h' == h.(scope := h.scope[key := v])
    case Singleton => h' == h.(root := h.root[key := v])
  }

  lemma BuildAndKeep(c: Context, inScope: bool, f: Factory, lifetime: Lifetime, key: Key, above: seq<Key>, h: Heap)
    ensures var (v, h') := Build(c, inScope && lifetime != Singleton, f, lifetime, above + [key], h);
      BuildsWith(c, inScope, f, lifetime, key, above, h, (v, Store(lifetime, key, v, h')))
  {
    var stack := above + [key];
    assert stack[|stack| - 1] == key;
    if f.Constant? {
      assert Arguments(c, inScope && lifetime != Singleton, f, [], stack, h) == (Ok([]), h);
    }
  }

  /** An unregistered concrete class is built from its own constructor, a new object each time. */
  lemma UnregisteredClassIsBuilt(c: Context, inScope: bool, asked: Key, above: seq<Key>, h: Heap)
    requires above == [] || Plain(asked.t) in Mentioned(c.g)
    requires Plain(asked.t) !in c.g.providers && Plain(asked.t) !in above && !(inScope && Plain(asked.t) in h.scope)
    requires asked.t.Class? && asked.t.shape == Concrete
    ensures BuildsWith(c, inScope, ClassOf(Plain(asked.t)), Transient, Plain(asked.t), above, h,
                       Resolve(c, inScope, asked, above, h))
  {
    ResolveBuilds(c, inScope, asked, above, h);
    BuildAndKeep(c, inScope, ClassOf(Plain(asked.t)), Transient, Plain(asked.t), above, h);
  }

  /** A registered key is built by what was registered for it, when and where its lifetime says. */
  lemma RegisteredIsBuilt(c: Context, inScope: bool, asked: Key, above: seq<Key>, h: Heap)
    requires above == [] || Plain(asked.t) in Mentioned(c.g)
    requires Plain(asked.t) in c.g.providers && Plain(asked.t) !in above && !(inScope && Plain(asked.t) in h.scope)
    ensures var key, r := Plain(asked.t), Resolve(c, inScope, asked, above, h);
      var p := c.g.providers[key];
      if p.lifetime == Scoped && !inScope then r == (Err(OutsideScope(key)), h)
      else if p.lifetime == Scoped && key in c.scopePending then r == (Err(BuildPending(key)), h)
      else if p.lifetime == Singleton && key in h.root then r == (Ok(h.root[key]), h)
      else if p.lifetime == Singleton && key in c.rootPending then r == (Err(BuildPending(key)), h)
      else BuildsWith(c, inScope, p.factory, p.lifetime, key, above, h, r)
  {
    var key, p := Plain(asked.t), c.g.providers[Plain(asked.t)];
    if Shortcut(c, inScope, p, key, h).None? {
      ResolveBuilds(c, inScope, asked, above, h);
      BuildAndKeep(c, inScope, p.factory, p.lifetime, key, above, h);
    } else {
      assert Lookup(c.g, key) == Ok(p);
    }
  }

  /** Before any of that: a key being built is circular, and an object of the scope is used as it is. */
  lemma ScopeAnswersFirst(c: Context, inScope: bool, asked: Key, above: seq<Key>, h: Heap)
    requires above == [] || Plain(asked.t) in Mentioned(c.g)
    ensures Plain(asked.t) in above ==>
      Resolve(c, inScope, asked, above, h) == (Err(Circular(above + [Plain(asked.t)])), h)
    ensures Plain(asked.t) !in above && inScope && Plain(asked.t) in h.scope ==>
      Resolve(c, inScope, asked, above, h) == (Ok(h.scope[Plain(asked.t)]), h)
  {
  }

  // --- Parameters -------------------------------------------------------------------------------

  /** An optional parameter is looked up by the one type it is a union of; a parameter without a default is
      looked up by what it says. */
  lemma OptionalIsItsMember(name: string, t: Key, before: seq<Key>, member: Key, after: seq<Key>, positional: bool)
    requires t.t == UnionOf(before + [member] + after) && member != NONE_TYPE
    requires forall k | k in before + after :: k == NONE_TYPE
    ensures Target(Dependency(name, t, positional, true)) == member
    ensures Target(Dependency(name, t, positional, false)) == t
  {
    OneMemberIsLeft(before, member, after);
  }

  /** A union of more than `None` and one type is looked up as it is. */
  lemma UnionsAreLookedUpWhole(name: string, t: Key, i: nat, j: nat, positional: bool, hasDefault: bool)
    requires t.t.UnionOf? && i < j < |t.t.members| && t.t.members[i] != NONE_TYPE && t.t.members[j] != NONE_TYPE
    ensures Unwrap(Target(Dependency(name, t, positional, hasDefault))) == Plain(t.t)
  {
    TwoMembersAreLeft(t.t.members, i, j);
  }

  lemma {:induction false} TwoMembersAreLeft(members: seq<Key>, i: nat, j: nat)
    requires i < j < |members| && members[i] != NONE_TYPE && members[j] != NONE_TYPE
    ensures |DropNone(members)| >= 2
    decreases |members|
  {
    if i > 0 {
      TwoMembersAreLeft(members[1..], i - 1, j - 1);
    } else {
      AMemberIsLeft(members[1..], j - 1);
    }
  }

  lemma {:induction false} AMemberIsLeft(members: seq<Key>, i: nat)
    requires i < |members| && members[i] != NONE_TYPE
    ensures DropNone(members) != []
    decreases |members|
  {
    if i > 0 { AMemberIsLeft(members[1..], i - 1); }
  }

  lemma {:induction false} OneMemberIsLeft(before: seq<Key>, member: Key, after: seq<Key>)
    requires member != NONE_TYPE && forall k | k in before + after :: k == NONE_TYPE
    ensures DropNone(before + [member] + after) == [member]
    decreases |before|
  {
    var all := before + [member] + after;
    if before == [] {
      assert all == [member] + after && all[1..] == after && forall k | k in after :: k in before + after;
      NothingIsLeft(after);
    } else {
      assert before[0] in before + after && all[0] == before[0] && all[1..] == before[1..] + [member] + after;
      assert forall k | k in before[1..] + after :: k in before + after;
      OneMemberIsLeft(before[1..], member, after);
    }
  }

  lemma {:induction false} NothingIsLeft(members: seq<Key>)
    requires forall k | k in members :: k == NONE_TYPE
    ensures DropNone(members) == []
  {
    if members != [] {
      assert members[0] in members && forall k | k in members[1..] :: k in members;
      NothingIsLeft(members[1..]);
    }
  }

  /** A parameter with a default keeps it when its key is neither registered nor an object of the scope; every
      other parameter is resolved, in order, and the first that fails fails the call. */
  lemma ParametersAreResolvedInOrder(c: Context, inScope: bool, f: Factory, deps: seq<Dependency>, stack: seq<Key>,
                                     h: Heap)
    requires stack != [] && Plan(c.g, f).Some? && deps != [] && forall d | d in deps :: d in Plan(c.g, f).value
    ensures Unwrap(Target(deps[0])) in Mentioned(c.g)
    ensures var d, key, all := deps[0], Target(deps[0]), Arguments(c, inScope, f, deps, stack, h);
      if d.hasDefault && key !in c.g.providers && !(inScope && key in h.scope) then
        all == Arguments(c, inScope, f, deps[1..], stack, h)
      else
        var (v, h') := Resolve(c, inScope, key, stack, h);
        var rest := Arguments(c, inScope, f, deps[1..], stack, h');
        if v.Err? then all == (Err(v.error), h')
        else if rest.0.Err? then all == rest
        else all == (Ok([Argument(d.name, d.positional, v.value)] + rest.0.value), rest.1)
  {
    PlanIsMentioned(c.g, f, deps[0]);
  }

  // --- Refusals of the check are genuine ----------------------------------------------------------

  /** `needed` is a parameter of what builds `key` that the check does not leave to its default. */
  ghost predicate Needs(g: Graph, key: Key, needed: Key) {
    var f := if key in g.providers then g.providers[key].factory else ClassOf(key);
    f in g.plans && exists d :: d in g.plans[f] && Unwrap(Target(d)) == needed
                                && !(d.hasDefault && Target(d) !in g.providers)
  }

  /** Each key needs the next one. */
  ghost predicate Chain(g: Graph, chain: seq<Key>) {
    forall i | 0 < i < |chain| :: Needs(g, chain[i - 1], chain[i])
  }

  ghost predicate HasSingleton(g: Graph, keys: seq<Key>) {
    exists k :: k in keys && k in g.providers && g.providers[k].lifetime == Singleton
  }

  /** The error says what is wrong at the end of the chain. */
  ghost predicate Genuine(g: Graph, asynchronous: bool, owner: Lifetime, error: Error, chain: seq<Key>)
    requires chain != []
  {
    var last, before := chain[|chain| - 1], chain[..|chain| - 1];
    match error
    case Circular(found) => found == chain && last in before
    case CapturesRequest(found) => found == chain && last == REQUEST && (owner == Singleton || HasSingleton(g, before))
    case CapturesScoped(found) =>
      && found == chain && last in g.providers && g.providers[last].lifetime == Scoped
      && (owner == Singleton || HasSingleton(g, before))
    case Unwirable(key) => key == last && key !in g.providers && !(key.t.Class? && key.t.shape == Concrete)
    case AsyncFactory(key) =>
      && key == last && !asynchronous && key in g.providers && g.providers[key].factory.Function?
      && (g.providers[key].factory.kind == Coroutine || g.providers[key].factory.kind == AsyncGenerator)
    case Uninspectable(f) =>
      && f == (if last in g.providers then g.providers[last].factory else ClassOf(last))
      && f !in g.plans && !f.Constant?
    case OutsideScope(_) => false
    case BuildPending(_) => false
    case FactoryRaised(_) => false
  }

  /** The walk at `above`, for a singleton if `owner` says so, is where the registrations put it. */
  ghost predicate Underway(g: Graph, first: Lifetime, above: seq<Key>, owner: Lifetime) {
    owner == Singleton ==> first == Singleton || HasSingleton(g, above)
  }

  lemma LongerChain(g: Graph, above: seq<Key>, key: Key)
    requires Chain(g, above) && (above != [] ==> Needs(g, above[|above| - 1], key))
    ensures Chain(g, above + [key])
  {
  }

  lemma MoreKeys(g: Graph, keys: seq<Key>, key: Key)
    requires HasSingleton(g, keys)
    ensures HasSingleton(g, keys + [key])
  {
    var k :| k in keys && k in g.providers && g.providers[k].lifetime == Singleton;
    assert k in keys + [key];
  }

  /** Every refusal of a check names a real fault, and the chain of parameters that leads to it. */
  lemma {:induction false} RefusalIsGenuine(g: Graph, a: bool, first: Lifetime, asked: Key, above: seq<Key>,
                                            owner: Lifetime, seen: set<Node>, error: Error)
    returns (chain: seq<Key>)
    requires above == [] || Unwrap(asked) in Mentioned(g)
    requires Chain(g, above) && (above != [] ==> Needs(g, above[|above| - 1], Unwrap(asked)))
    requires Underway(g, first, above, owner)
    requires Check(g, a, asked, above, owner, seen).0 == Err(error)
    ensures above + [Plain(asked.t)] <= chain && Chain(g, chain) && Genuine(g, a, first, error, chain)
    decreases Room(g, above), 1, 0
  {
    var key := Unwrap(asked);
    if Descends(g, a, key, above, owner) {
      var p := Lookup(g, key).value;
      RefusedBelow(g, a, asked, above, owner, seen, key, p, Plan(g, p.factory).value);
      chain := DescentIsGenuine(g, a, first, key, p, above, owner, seen + {Node(key, owner == Singleton)}, error);
    } else {
      LongerChain(g, above, key);
      RefusedHere(g, a, first, asked, above, owner, seen);
      chain := above + [key];
    }
  }

  lemma {:induction false} DescentIsGenuine(g: Graph, a: bool, first: Lifetime, key: Key, p: Provider, above: seq<Key>,
                                            owner: Lifetime, seen: set<Node>, error: Error)
    returns (chain: seq<Key>)
    requires Lookup(g, key) == Ok(p) && Plan(g, p.factory).Some? && Room(g, above + [key]) < Room(g, above)
    requires Chain(g, above) && (above != [] ==> Needs(g, above[|above| - 1], key)) && Underway(g, first, above, owner)
    requires var deps := Plan(g, p.factory).value;
      CheckAll(g, a, p.factory, deps, above + [key], Effective(owner, p), seen).0 == Err(error)
    ensures above + [key] <= chain && Chain(g, chain) && Genuine(g, a, first, error, chain)
    decreases Room(g, above), 0, 0
  {
    LongerChain(g, above, key);
    StillUnderway(g, first, above, owner, key);
    chain := RefusalBelowIsGenuine(g, a, first, p.factory, Plan(g, p.factory).value, above + [key],
                                   Effective(owner, p), seen, error);
  }

  /** The walk goes on below `key`, unless it has seen it. */
  predicate Descends(g: Graph, a: bool, key: Key, above: seq<Key>, owner: Lifetime) {
    && key !in above && key != REQUEST && Lookup(g, key).Ok?
    && var p := Lookup(g, key).value;
       !(p.lifetime == Scoped && owner == Singleton) && (a || !IsAsync(p.factory)) && Plan(g, p.factory).Some?
  }

  lemma RefusedBelow(g: Graph, a: bool, asked: Key, above: seq<Key>, owner: Lifetime, seen: set<Node>, key: Key,
                     p: Provider, deps: seq<Dependency>)
    requires above == [] || key in Mentioned(g)
    requires key == Unwrap(asked) && key !in above && key != REQUEST && Lookup(g, key) == Ok(p)
    requires !(p.lifetime == Scoped && owner == Singleton) && (a || !IsAsync(p.factory))
    requires Plan(g, p.factory) == Some(deps) && Check(g, a, asked, above, owner, seen).0.Err?
    ensures Room(g, above + [key]) < Room(g, above)
    ensures Check(g, a, asked, above, owner, seen)
         == CheckAll(g, a, p.factory, deps, above + [key], Effective(owner, p), seen + {Node(key, owner == Singleton)})
  {
    RoomShrinks(g, above, key);
  }

  lemma StillUnderway(g: Graph, first: Lifetime, above: seq<Key>, owner: Lifetime, key: Key)
    requires Underway(g, first, above, owner) && Lookup(g, key).Ok?
    ensures Underway(g, first, above + [key], Effective(owner, Lookup(g, key).value))
  {
    if owner == Singleton && first != Singleton { MoreKeys(g, above, key); }
    assert key in above + [key];
  }

  lemma RefusedHere(g: Graph, a: bool, first: Lifetime, asked: Key, above: seq<Key>, owner: Lifetime, seen: set<Node>)
    requires above == [] || Unwrap(asked) in Mentioned(g)
    requires Underway(g, first, above, owner) && !Descends(g, a, Unwrap(asked), above, owner)
    requires Check(g, a, asked, above, owner, seen).0.Err?
    ensures Genuine(g, a, first, Check(g, a, asked, above, owner, seen).0.error, above + [Unwrap(asked)])
  {
    var chain := above + [Unwrap(asked)];
    assert chain[..|chain| - 1] == above;
  }

  lemma {:induction false} RefusalBelowIsGenuine(g: Graph, a: bool, first: Lifetime, f: Factory,
                                                 deps: seq<Dependency>, stack: seq<Key>, owner: Lifetime,
                                                 seen: set<Node>, error: Error)
    returns (chain: seq<Key>)
    requires stack != [] && Plan(g, f).Some? && forall d | d in deps :: d in Plan(g, f).value
    requires f == if stack[|stack| - 1] in g.providers then g.providers[stack[|stack| - 1]].factory
                  else ClassOf(stack[|stack| - 1])
    requires Chain(g, stack) && Underway(g, first, stack, owner)
    requires CheckAll(g, a, f, deps, stack, owner, seen).0 == Err(error)
    ensures stack <= chain && chain != [] && Chain(g, chain) && Genuine(g, a, first, error, chain)
    decreases Room(g, stack), 2, |deps|
  {
    if Ignored(g, deps[0]) {
      chain := RefusalBelowIsGenuine(g, a, first, f, deps[1..], stack, owner, seen, error);
    } else {
      PlanIsMentioned(g, f, deps[0]);
      var (r, seen') := Check(g, a, Target(deps[0]), stack, owner, seen);
      if r.Err? {
        assert !f.Constant? && deps[0] in g.plans[f] && Needs(g, stack[|stack| - 1], Unwrap(Target(deps[0])));
        chain := RefusalIsGenuine(g, a, first, Target(deps[0]), stack, owner, seen, error);
      } else {
        chain := RefusalBelowIsGenuine(g, a, first, f, deps[1..], stack, owner, seen', error);
      }
    }
  }
}
