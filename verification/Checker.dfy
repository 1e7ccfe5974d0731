/** The startup walk over types alone, and what it predicts about resolution. */
module Checker {
  import opened DependencyGraph
  import opened Resolution

  /** `captive` says that a singleton is being built above this key. */
  datatype Node = Node(key: Key, captive: bool)

  type Report = (Result<()>, set<Node>)

  predicate Ignored(g: Graph, d: Dependency) {
    d.hasDefault && Target(d) !in g.providers
  }

  /** What is built below a singleton is built for it. */
  function Effective(owner: Lifetime, p: Provider): Lifetime {
    if owner == Singleton || p.lifetime == Singleton then Singleton else p.lifetime
  }

  function Check(g: Graph, asynchronous: bool, asked: Key, above: seq<Key>, owner: Lifetime, seen: set<Node>): Report
    requires above == [] || Unwrap(asked) in Mentioned(g)
    decreases Room(g, above), 0, 0
  {
    var key := Unwrap(asked);
    var stack := above + [key];
    if key in above then (Err(Circular(stack)), seen)
    else if key == REQUEST then
      (if owner == Singleton then Err(CapturesRequest(stack)) else Ok(()), seen)
    else if Lookup(g, key).Err? then (Err(Lookup(g, key).error), seen)
    else
      var p := Lookup(g, key).value;
      var marker := Node(key, owner == Singleton);
      if p.lifetime == Scoped && owner == Singleton then (Err(CapturesScoped(stack)), seen)
      else if !asynchronous && IsAsync(p.factory) then (Err(AsyncFactory(key)), seen)
      else if marker in seen then (Ok(()), seen)
      else if Plan(g, p.factory).None? then (Err(Uninspectable(p.factory)), seen + {marker})
      else
        RoomShrinks(g, above, key);
        CheckAll(g, asynchronous, p.factory, Plan(g, p.factory).value, stack, Effective(owner, p), seen + {marker})
  }

  function CheckAll(g: Graph, asynchronous: bool, f: Factory, deps: seq<Dependency>, stack: seq<Key>,
                    owner: Lifetime, seen: set<Node>): Report
    requires stack != [] && Plan(g, f).Some?
    requires forall d | d in deps :: d in Plan(g, f).value
    decreases Room(g, stack), 1, |deps|
  {
    if deps == [] then (Ok(()), seen)
    else if Ignored(g, deps[0]) then CheckAll(g, asynchronous, f, deps[1..], stack, owner, seen)
    else
      PlanIsMentioned(g, f, deps[0]);
      var (r, seen') := Check(g, asynchronous, Target(deps[0]), stack, owner, seen);
      if r.Err? then (r, seen') else CheckAll(g, asynchronous, f, deps[1..], stack, owner, seen')
  }

  // --- The derivation an accepted graph has ---------------------------------------------

  ghost predicate Sound(g: Graph, asynchronous: bool, n: Node) {
    && n.key != REQUEST && n.key.Plain?
    && Lookup(g, n.key).Ok?
    && var p := Lookup(g, n.key).value;
    && !(p.lifetime == Scoped && n.captive)
    && (asynchronous || !IsAsync(p.factory))
    && Plan(g, p.factory).Some?
  }

  /** The node a dependency of `n` is built at: captivity is inherited. */
  ghost function Child(g: Graph, n: Node, d: Dependency): Node
    requires Lookup(g, n.key).Ok?
  {
    Node(Unwrap(Target(d)), n.captive || Lookup(g, n.key).value.lifetime == Singleton)
  }

  ghost predicate Settled(n: Node, done: seq<Node>) {
    (n.key == REQUEST && !n.captive) || n in done
  }

  ghost predicate Grounded(g: Graph, asynchronous: bool, n: Node, before: seq<Node>) {
    && Sound(g, asynchronous, n)
    && forall d | d in Plan(g, Lookup(g, n.key).value.factory).value && !Ignored(g, d) ::
         Settled(Child(g, n, d), before)
  }

  /** Everything a node needs is listed before it: a topological order of the walk. */
  ghost predicate Derivation(g: Graph, asynchronous: bool, done: seq<Node>) {
    forall i | 0 <= i < |done| :: Grounded(g, asynchronous, done[i], done[..i])
  }

  ghost function Position(done: seq<Node>, n: Node): (i: nat)
    requires n in done
    ensures i < |done| && done[i] == n && n !in done[..i]
  {
    if done[0] == n then 0 else 1 + Position(done[1..], n)
  }

  lemma DerivationAppends(g: Graph, asynchronous: bool, done: seq<Node>, n: Node)
    requires Derivation(g, asynchronous, done) && Grounded(g, asynchronous, n, done)
    ensures Derivation(g, asynchronous, done + [n])
  {
    var longer := done + [n];
    forall i | 0 <= i < |longer| ensures Grounded(g, asynchronous, longer[i], longer[..i]) {
      assert longer[..i] == done[..i];
      if i == |done| { assert done[..i] == done; }
    }
  }

  lemma GroundedByChildren(g: Graph, a: bool, n: Node, owner: Lifetime, done: seq<Node>)
    requires Sound(g, a, n)
    requires owner == Singleton <==> n.captive || Lookup(g, n.key).value.lifetime == Singleton
    requires forall d | d in Plan(g, Lookup(g, n.key).value.factory).value && !Ignored(g, d) ::
               Settled(Node(Unwrap(Target(d)), owner == Singleton), done)
    ensures Grounded(g, a, n, done)
  {
    forall d | d in Plan(g, Lookup(g, n.key).value.factory).value && !Ignored(g, d)
      ensures Settled(Child(g, n, d), done)
    {
      assert Child(g, n, d) == Node(Unwrap(Target(d)), owner == Singleton);
    }
  }

  lemma SettledStays(n: Node, done: seq<Node>, done': seq<Node>)
    requires Settled(n, done) && done <= done'
    ensures Settled(n, done')
  {
  }

  /** Keys still being built come after `key` in the derivation, whatever their captivity: this
      is what makes the pruned walk agree with one that repeats every path. */
  ghost predicate Deeper(done: seq<Node>, above: seq<Key>, n: Node) {
    forall s, captive | s in above && (n.captive ==> captive) && Node(s, captive) in done ::
      && Node(n.key, captive) in done
      && Position(done, Node(n.key, captive)) < Position(done, Node(s, captive))
  }

  lemma DeeperIsFresh(done: seq<Node>, above: seq<Key>, n: Node)
    requires n in done && Deeper(done, above, n)
    ensures n.key !in above
  {
    assert n == Node(n.key, n.captive);
  }

  lemma ChildIsDeeper(g: Graph, asynchronous: bool, done: seq<Node>, above: seq<Key>, n: Node, d: Dependency)
    requires Derivation(g, asynchronous, done) && n in done && Deeper(done, above, n)
    requires Sound(g, asynchronous, n) && d in Plan(g, Lookup(g, n.key).value.factory).value && !Ignored(g, d)
    ensures Settled(Child(g, n, d), done)
    ensures Child(g, n, d).key != REQUEST ==> Deeper(done, above + [n.key], Child(g, n, d))
  {
    var child := Child(g, n, d);
    var i := Position(done, n);
    assert Grounded(g, asynchronous, done[i], done[..i]);
    SettledStays(child, done[..i], done);
    forall s, captive | child.key != REQUEST && s in above + [n.key] && (child.captive ==> captive)
      && Node(s, captive) in done
      ensures Node(child.key, captive) in done
      ensures Position(done, Node(child.key, captive)) < Position(done, Node(s, captive))
    {
      var here := Node(n.key, captive);
      assert here in done;
      var j := Position(done, here);
      assert Grounded(g, asynchronous, done[j], done[..j]);
      assert Child(g, here, d) == Node(child.key, captive);
      EarlierPosition(done, Node(child.key, captive), j);
    }
  }

  lemma EarlierPosition(done: seq<Node>, n: Node, j: nat)
    requires j <= |done| && n in done[..j]
    ensures n in done && Position(done, n) < j
  {
  }

  // --- Accepting builds a derivation; a derivation is accepted ------------------------------

  /** What an accepting walk does with a key it has not seen. */
  lemma CheckDescends(g: Graph, a: bool, asked: Key, above: seq<Key>, owner: Lifetime, seen: set<Node>)
    requires above == [] || Unwrap(asked) in Mentioned(g)
    requires Check(g, a, asked, above, owner, seen).0.Ok?
    requires Unwrap(asked) != REQUEST && Node(Unwrap(asked), owner == Singleton) !in seen
    ensures var key := Unwrap(asked); var marker := Node(key, owner == Singleton);
      && key !in above && Sound(g, a, marker) && Room(g, above + [key]) < Room(g, above)
      && var p := Lookup(g, key).value;
         Check(g, a, asked, above, owner, seen)
         == CheckAll(g, a, p.factory, Plan(g, p.factory).value, above + [key], Effective(owner, p), seen + {marker})
  {
    RoomShrinks(g, above, Unwrap(asked));
  }

  lemma {:induction false} AcceptedIsDerived(g: Graph, a: bool, asked: Key, above: seq<Key>, owner: Lifetime,
                                             seen: set<Node>, done: seq<Node>)
    returns (done': seq<Node>)
    requires above == [] || Unwrap(asked) in Mentioned(g)
    requires Check(g, a, asked, above, owner, seen).0.Ok?
    requires Derivation(g, a, done)
    requires forall n | n in seen :: n in done || n.key in above
    ensures Derivation(g, a, done') && done <= done'
    ensures forall n | n in Check(g, a, asked, above, owner, seen).1 :: n in done' || n in seen
    ensures Settled(Node(Unwrap(asked), owner == Singleton), done')
    decreases Room(g, above), 0, 1
  {
    var key := Unwrap(asked);
    var marker := Node(key, owner == Singleton);
    done' := done;
    if key != REQUEST && marker !in seen {
      CheckDescends(g, a, asked, above, owner, seen);
      done' := DescentIsDerived(g, a, key, above, owner, seen, done);
    }
  }

  lemma {:induction false} DescentIsDerived(g: Graph, a: bool, key: Key, above: seq<Key>, owner: Lifetime,
                                            seen: set<Node>, done: seq<Node>)
    returns (done': seq<Node>)
    requires Sound(g, a, Node(key, owner == Singleton)) && Room(g, above + [key]) < Room(g, above)
    requires var p := Lookup(g, key).value;
      CheckAll(g, a, p.factory, Plan(g, p.factory).value, above + [key], Effective(owner, p),
               seen + {Node(key, owner == Singleton)}).0.Ok?
    requires Derivation(g, a, done)
    requires forall n | n in seen :: n in done || n.key in above
    ensures Derivation(g, a, done') && done <= done' && Node(key, owner == Singleton) in done'
    ensures var p := Lookup(g, key).value;
      forall n | n in CheckAll(g, a, p.factory, Plan(g, p.factory).value, above + [key], Effective(owner, p),
                               seen + {Node(key, owner == Singleton)}).1 ::
        n in done' || n in seen
    decreases Room(g, above), 0, 0
  {
    var p, marker := Lookup(g, key).value, Node(key, owner == Singleton);
    var mid := AllAcceptedAreDerived(g, a, p.factory, Plan(g, p.factory).value, above + [key], Effective(owner, p),
                                     seen + {marker}, done);
    GroundedByChildren(g, a, marker, Effective(owner, p), mid);
    DerivationAppends(g, a, mid, marker);
    done' := mid + [marker];
  }

  lemma {:induction false} AllAcceptedAreDerived(g: Graph, a: bool, f: Factory, deps: seq<Dependency>, stack: seq<Key>,
                                                 owner: Lifetime, seen: set<Node>, done: seq<Node>)
    returns (done': seq<Node>)
    requires stack != [] && Plan(g, f).Some?
    requires forall d | d in deps :: d in Plan(g, f).value
    requires CheckAll(g, a, f, deps, stack, owner, seen).0.Ok?
    requires Derivation(g, a, done)
    requires forall n | n in seen :: n in done || n.key in stack
    ensures Derivation(g, a, done') && done <= done'
    ensures forall n | n in CheckAll(g, a, f, deps, stack, owner, seen).1 :: n in done' || n in seen
    ensures forall d | d in deps && !Ignored(g, d) :: Settled(Node(Unwrap(Target(d)), owner == Singleton), done')
    decreases Room(g, stack), 1, |deps|
  {
    done' := done;
    if deps != [] {
      if Ignored(g, deps[0]) {
        done' := AllAcceptedAreDerived(g, a, f, deps[1..], stack, owner, seen, done);
      } else {
        PlanIsMentioned(g, f, deps[0]);
        var mid := AcceptedIsDerived(g, a, Target(deps[0]), stack, owner, seen, done);
        var seen' := Check(g, a, Target(deps[0]), stack, owner, seen).1;
        done' := AllAcceptedAreDerived(g, a, f, deps[1..], stack, owner, seen', mid);
        SettledStays(Node(Unwrap(Target(deps[0])), owner == Singleton), mid, done');
      }
    }
  }

  lemma {:induction false} DerivedIsAccepted(g: Graph, a: bool, asked: Key, above: seq<Key>, owner: Lifetime,
                                             seen: set<Node>, done: seq<Node>)
    requires above == [] || Unwrap(asked) in Mentioned(g)
    requires Derivation(g, a, done)
    requires Settled(Node(Unwrap(asked), owner == Singleton), done)
    requires REQUEST !in above
    requires Unwrap(asked) != REQUEST ==> Deeper(done, above, Node(Unwrap(asked), owner == Singleton))
    ensures Check(g, a, asked, above, owner, seen).0.Ok?
    decreases Room(g, above), 0, 0
  {
    var key := Unwrap(asked);
    if key != REQUEST {
      var n := Node(key, owner == Singleton);
      DeeperIsFresh(done, above, n);
      assert Grounded(g, a, done[Position(done, n)], done[..Position(done, n)]);
      if n !in seen {
        var p := Lookup(g, key).value;
        RoomShrinks(g, above, key);
        var effective := Effective(owner, p);
        AllDerivedAreAccepted(g, a, n, Plan(g, p.factory).value, above, effective, seen + {n}, done);
      }
    }
  }

  lemma {:induction false} AllDerivedAreAccepted(g: Graph, a: bool, n: Node, deps: seq<Dependency>, above: seq<Key>,
                                                 owner: Lifetime, seen: set<Node>, done: seq<Node>)
    requires Sound(g, a, n) && n in done && Deeper(done, above, n) && Derivation(g, a, done)
    requires forall d | d in deps :: d in Plan(g, Lookup(g, n.key).value.factory).value
    requires REQUEST !in above
    requires owner == Singleton <==> n.captive || Lookup(g, n.key).value.lifetime == Singleton
    ensures CheckAll(g, a, Lookup(g, n.key).value.factory, deps, above + [n.key], owner, seen).0.Ok?
    decreases Room(g, above + [n.key]), 1, |deps|
  {
    var f := Lookup(g, n.key).value.factory;
    if deps != [] {
      if Ignored(g, deps[0]) {
        AllDerivedAreAccepted(g, a, n, deps[1..], above, owner, seen, done);
      } else {
        PlanIsMentioned(g, f, deps[0]);
        ChildIsDeeper(g, a, done, above, n, deps[0]);
        DerivedIsAccepted(g, a, Target(deps[0]), above + [n.key], owner, seen, done);
        AllDerivedAreAccepted(g, a, n, deps[1..], above, owner,
                              Check(g, a, Target(deps[0]), above + [n.key], owner, seen).1, done);
      }
    }
  }
}
