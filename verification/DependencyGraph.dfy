/** What the container knows before anything is built: keys, providers, constructor plans. */
module DependencyGraph {

  datatype Option<+T> = None | Some(value: T)

  datatype Result<+T> = Ok(value: T) | Err(error: Error)

  /** A class as `autowire` sees it; only a concrete one can be built unregistered. */
  datatype ClassShape = Concrete | ProtocolShape | AbstractShape | BuiltinShape

  datatype Type =
    | HttpRequest
    | Class(name: string, shape: ClassShape)
    | Alias(name: string)
    | UnionOf(members: seq<Key>)

  /** What a caller or a parameter asks for. Python flattens nested `Annotated`. */
  datatype Key = Plain(t: Type) | Annotated(t: Type)

  const REQUEST := Plain(HttpRequest)
  const NONE_TYPE := Plain(Class("NoneType", BuiltinShape))

  datatype Lifetime = Singleton | Scoped | Transient

  datatype Kind = PlainCall | Generator | Coroutine | AsyncGenerator

  datatype Factory =
    | ClassOf(key: Key)
    | Function(name: string, kind: Kind)
    | Constant(value: Value)

  datatype Argument = Argument(name: string, positional: bool, value: Value)

  /** A built object remembers the call that made it, so that what it reaches can be stated.
      `serial` is its identity; a given object was made outside the container. */
  datatype Value =
    | Given(id: nat, fromScope: bool)
    | Built(serial: nat, key: Key, lifetime: Lifetime, args: seq<Argument>)

  datatype Dependency = Dependency(name: string, key: Key, positional: bool, hasDefault: bool)

  datatype Provider = Provider(factory: Factory, lifetime: Lifetime)

  datatype Error =
    | Circular(chain: seq<Key>)
    | Unwirable(key: Key)
    | OutsideScope(key: Key)
    | CapturesRequest(chain: seq<Key>)
    | CapturesScoped(chain: seq<Key>)
    | AsyncFactory(key: Key)
    | BuildPending(key: Key)
    | Uninspectable(factory: Factory)
    | FactoryRaised(serial: nat)

  /** Registrations and inspected signatures. A factory missing from `plans` is one whose
      inspection raises. */
  datatype Graph = Graph(providers: map<Key, Provider>, plans: map<Factory, seq<Dependency>>)

  function KindOf(f: Factory): Kind {
    if f.Function? then f.kind else PlainCall
  }

  predicate IsAsync(f: Factory) {
    KindOf(f) in {Coroutine, AsyncGenerator}
  }

  function Unwrap(k: Key): Key {
    Plain(k.t)
  }

  function DropNone(members: seq<Key>): seq<Key> {
    if members == [] then []
    else if members[0] == NONE_TYPE then DropNone(members[1..])
    else [members[0]] + DropNone(members[1..])
  }

  function WithoutNone(k: Key): Key {
    if k.t.UnionOf? && |DropNone(k.t.members)| == 1 then DropNone(k.t.members)[0] else Unwrap(k)
  }

  /** The key a parameter is resolved by: an optional one is looked up without its `None`. */
  function Target(d: Dependency): Key {
    if d.hasDefault then WithoutNone(d.key) else d.key
  }

  function Plan(g: Graph, f: Factory): Option<seq<Dependency>> {
    if f.Constant? then Some([])
    else if f in g.plans then Some(g.plans[f])
    else None
  }

  function Autowire(key: Key): Result<Factory> {
    if key.Plain? && key.t.Class? && key.t.shape == Concrete then Ok(ClassOf(key)) else Err(Unwirable(key))
  }

  /** The registered provider, or the class itself wired as a transient. */
  function Lookup(g: Graph, key: Key): Result<Provider> {
    if key in g.providers then Ok(g.providers[key])
    else match Autowire(key)
         case Ok(f) => Ok(Provider(f, Transient))
         case Err(e) => Err(e)
  }

  /** Every key some constructor asks for: the finite universe a resolution walks in. */
  ghost function Mentioned(g: Graph): set<Key> {
    set f, d | f in g.plans && d in g.plans[f] :: Unwrap(Target(d))
  }

  ghost function Elements(s: seq<Key>): set<Key> {
    set k | k in s
  }

  /** How many keys a resolution may still push: it bounds every walk below. */
  ghost function Room(g: Graph, stack: seq<Key>): nat {
    |Mentioned(g) - Elements(stack)| + (if stack == [] then 1 else 0)
  }

  lemma RoomShrinks(g: Graph, stack: seq<Key>, key: Key)
    requires key !in stack
    requires stack == [] || key in Mentioned(g)
    ensures Room(g, stack + [key]) < Room(g, stack)
  {
    assert Elements(stack + [key]) == Elements(stack) + {key};
    OneFewer(Mentioned(g), Elements(stack), key);
  }

  lemma OneFewer(all: set<Key>, gone: set<Key>, key: Key)
    ensures |all - (gone + {key})| == |all - gone| - if key in all && key !in gone then 1 else 0
  {
    assert all - (gone + {key}) == (all - gone) - {key};
  }

  lemma PlanIsMentioned(g: Graph, f: Factory, d: Dependency)
    requires Plan(g, f).Some? && d in Plan(g, f).value
    ensures Unwrap(Target(d)) in Mentioned(g)
  {
  }
}
