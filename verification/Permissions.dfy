/** Permission trees judged twice: before the object exists, and with it. */
module Permissions {

  datatype Option<+T> = None | Some(value: T)

  datatype Permission =
    | Leaf(id: nat, checksObjects: bool)
    | AllOf(operands: seq<Permission>)
    | AnyOf(operands: seq<Permission>)
    | Not(operand: Permission)

  datatype Verdict = Yes | No | Unknown

  /** The leaves whose request check passes and, once there is an object, the leaves whose own
      object check passes for it. */
  datatype Target = Preflight | Object(passing: set<nat>)

  /** An object-time leaf is its request check and its object check together. */
  predicate LeafAllows(leaf: Permission, request: set<nat>, target: Target)
    requires leaf.Leaf?
  {
    leaf.id in request && (target.Object? && leaf.checksObjects ==> leaf.id in target.passing)
  }

  // --- What a tree means: strong Kleene logic -----------------------------------------------

  function Meaning(p: Permission, request: set<nat>, target: Target): Verdict {
    match p
    case Leaf(_, checks) =>
      if !LeafAllows(p, request, target) then No
      else if target.Preflight? && checks then Unknown
      else Yes
    case AllOf(ps) =>
      if exists q | q in ps :: Meaning(q, request, target) == No then No
      else if exists q | q in ps :: Meaning(q, request, target) == Unknown then Unknown
      else Yes
    case AnyOf(ps) =>
      if exists q | q in ps :: Meaning(q, request, target) == Yes then Yes
      else if exists q | q in ps :: Meaning(q, request, target) == Unknown then Unknown
      else No
    case Not(q) =>
      match Meaning(q, request, target) case Yes => No case No => Yes case Unknown => Unknown
  }

  /** `q` is a node of the tree `p`. */
  ghost predicate Within(q: Permission, p: Permission) {
    || q == p
    || (p.Not? && Within(q, p.operand))
    || ((p.AllOf? || p.AnyOf?) && exists c | c in p.operands :: Within(q, c))
  }

  /** The node a denial reports: the first refusal of an `AllOf`, the last of an `AnyOf`. */
  ghost predicate Refuses(p: Permission, q: Permission, request: set<nat>, target: Target) {
    match p
    case Leaf(_, _) => q == p
    case Not(_) => q == p
    case AllOf(ps) =>
      exists i | 0 <= i < |ps| ::
        && Meaning(ps[i], request, target) == No && Refuses(ps[i], q, request, target)
        && forall j | 0 <= j < i :: Meaning(ps[j], request, target) != No
    case AnyOf(ps) => if ps == [] then q == p else Refuses(ps[|ps| - 1], q, request, target)
  }

  /** _evaluate: a left-to-right loop that stops as soon as the answer is known. */
  method Evaluate(p: Permission, request: set<nat>, target: Target)
    returns (allowed: Verdict, refused: Option<Permission>)
    ensures allowed == Meaning(p, request, target)
    ensures refused.Some? <==> allowed == No
    ensures allowed == No ==> Refuses(p, refused.value, request, target)
    decreases p
  {
    match p {
      case Leaf(_, checks) =>
        if !LeafAllows(p, request, target) {
          return No, Some(p);
        }
        return if target.Preflight? && checks then Unknown else Yes, None;
      case Not(q) =>
        var inner, _ := Evaluate(q, request, target);
        match inner {
          case Unknown => return Unknown, None;
          case Yes => return No, Some(p);
          case No => return Yes, None;
        }
      case AllOf(ps) =>
        var pending, i := false, 0;
        while i < |ps|
          invariant 0 <= i <= |ps|
          invariant forall j | 0 <= j < i :: Meaning(ps[j], request, target) != No
          invariant pending <==> exists j | 0 <= j < i :: Meaning(ps[j], request, target) == Unknown
        {
          var verdict, childRefused := Evaluate(ps[i], request, target);
          if verdict == No {
            return No, childRefused;
          }
          pending := pending || verdict == Unknown;
          i := i + 1;
        }
        return if pending then Unknown else Yes, None;
      case AnyOf(ps) =>
        var pending, latest, i := false, p, 0;
        while i < |ps|
          invariant 0 <= i <= |ps|
          invariant forall j | 0 <= j < i :: Meaning(ps[j], request, target) != Yes
          invariant pending <==> exists j | 0 <= j < i :: Meaning(ps[j], request, target) == Unknown
          invariant !pending ==> if i == 0 then latest == p else Refuses(ps[i - 1], latest, request, target)
        {
          var verdict, childRefused := Evaluate(ps[i], request, target);
          if verdict == Yes {
            return Yes, None;
          }
          pending := pending || verdict == Unknown;
          if childRefused.Some? {
            latest := childRefused.value;
          }
          i := i + 1;
        }
        return if pending then Unknown else No, if pending then None else Some(latest);
    }
  }

  /** A denial names a node of the tree that is itself denied. */
  lemma {:induction false} WitnessIsDenied(p: Permission, q: Permission, request: set<nat>, target: Target)
    requires Meaning(p, request, target) == No && Refuses(p, q, request, target)
    ensures Within(q, p) && Meaning(q, request, target) == No
  {
    match p
    case AllOf(ps) =>
      var i :| 0 <= i < |ps| && Meaning(ps[i], request, target) == No && Refuses(ps[i], q, request, target);
      WitnessIsDenied(ps[i], q, request, target);
      assert ps[i] in p.operands;
    case AnyOf(ps) =>
      if ps != [] {
        var last := ps[|ps| - 1];
        assert last in p.operands;
        WitnessIsDenied(last, q, request, target);
      }
    case Leaf(_, _) =>
    case Not(_) =>
  }

  /** With an object, a tree is the Boolean formula it looks like: a leaf is its request check and, if it has one,
      its object check; `all` of nothing is allowed and `any` of nothing is not. */
  lemma {:induction false} ObjectTimeIsBoolean(p: Permission, request: set<nat>, passing: set<nat>)
    ensures match p
      case Leaf(id, checks) =>
        Meaning(p, request, Object(passing)) == if id in request && (checks ==> id in passing) then Yes else No
      case AllOf(ps) =>
        Meaning(p, request, Object(passing)) ==
          if forall q | q in ps :: Meaning(q, request, Object(passing)) == Yes then Yes else No
      case AnyOf(ps) =>
        Meaning(p, request, Object(passing)) ==
          if exists q :: q in ps && Meaning(q, request, Object(passing)) == Yes then Yes else No
      case Not(q) =>
        Meaning(p, request, Object(passing)) == if Meaning(q, request, Object(passing)) == Yes then No else Yes
  {
    match p
    case Leaf(_, _) =>
    case Not(q) => PreflightIsStable(q, request, passing);
    case AllOf(ps) => forall q | q in ps { PreflightIsStable(q, request, passing); }
    case AnyOf(ps) => forall q | q in ps { PreflightIsStable(q, request, passing); }
  }

  /** Before there is an object, a leaf is known to fail as soon as its request check does, and is known to pass
      only if it has no object check. */
  lemma PreflightOfALeaf(id: nat, checks: bool, request: set<nat>)
    ensures Meaning(Leaf(id, checks), request, Preflight) ==
      if id !in request then No else if checks then Unknown else Yes
  {
  }

  // --- Two phases are one ------------------------------------------------------------------

  /** What is known before the object exists stays true of every object. */
  lemma {:induction false} PreflightIsStable(p: Permission, request: set<nat>, passing: set<nat>)
    ensures Meaning(p, request, Object(passing)) != Unknown
    ensures Meaning(p, request, Preflight) != Unknown ==>
      Meaning(p, request, Preflight) == Meaning(p, request, Object(passing))
  {
    match p
    case Leaf(_, _) =>
    case Not(q) => PreflightIsStable(q, request, passing);
    case AllOf(ps) => forall q | q in ps { PreflightIsStable(q, request, passing); }
    case AnyOf(ps) => forall q | q in ps { PreflightIsStable(q, request, passing); }
  }

  /** Only a certain refusal denies: `denied` returns its witness then, and nothing otherwise. */
  method Denied(p: Permission, request: set<nat>, target: Target) returns (refused: Option<Permission>)
    ensures refused.Some? <==> Meaning(p, request, target) == No
    ensures refused.Some? ==> Within(refused.value, p) && Meaning(refused.value, request, target) == No
  {
    var allowed, blamed := Evaluate(p, request, target);
    if allowed == No {
      WitnessIsDenied(p, blamed.value, request, target);
      return blamed;
    }
    return None;
  }

  /** A preflight followed, unless it denies, by the object check decides exactly what the
      object check alone would have. */
  method TwoPhases(p: Permission, request: set<nat>, passing: set<nat>) returns (allowed: bool)
    ensures allowed <==> Meaning(p, request, Object(passing)) == Yes
  {
    PreflightIsStable(p, request, passing);
    var early := Denied(p, request, Preflight);
    if early.Some? {
      return false;
    }
    var late := Denied(p, request, Object(passing));
    return late.None?;
  }

  // --- Waiting for the object is not overcautious -----------------------------------------

  ghost function Leaves(p: Permission): set<nat> {
    match p
    case Leaf(id, _) => {id}
    case Not(q) => Leaves(q)
    case AllOf(ps) => LeavesOf(ps)
    case AnyOf(ps) => LeavesOf(ps)
  }

  ghost function LeavesOf(ps: seq<Permission>): set<nat> {
    if ps == [] then {} else Leaves(ps[0]) + LeavesOf(ps[1..])
  }

  /** No leaf occurs twice. */
  ghost predicate ReadOnce(p: Permission) {
    match p
    case Leaf(_, _) => true
    case Not(q) => ReadOnce(q)
    case AllOf(ps) => ReadOnceAll(ps)
    case AnyOf(ps) => ReadOnceAll(ps)
  }

  ghost predicate ReadOnceAll(ps: seq<Permission>) {
    ps == [] || (ReadOnce(ps[0]) && Leaves(ps[0]) !! LeavesOf(ps[1..]) && ReadOnceAll(ps[1..]))
  }

  lemma {:induction false} LeavesContain(ps: seq<Permission>, q: Permission)
    requires q in ps
    ensures Leaves(q) <= LeavesOf(ps)
  {
    if q != ps[0] { LeavesContain(ps[1..], q); }
  }

  /** Only the leaves of a tree matter to it. */
  lemma {:induction false} MeaningIsLocal(p: Permission, request: set<nat>, a: set<nat>, b: set<nat>)
    requires forall id | id in Leaves(p) :: id in a <==> id in b
    ensures Meaning(p, request, Object(a)) == Meaning(p, request, Object(b))
  {
    match p
    case Leaf(_, _) =>
    case Not(q) => MeaningIsLocal(q, request, a, b);
    case AllOf(ps) =>
      forall q | q in ps ensures Meaning(q, request, Object(a)) == Meaning(q, request, Object(b)) {
        LeavesContain(ps, q);
        MeaningIsLocal(q, request, a, b);
      }
    case AnyOf(ps) =>
      forall q | q in ps ensures Meaning(q, request, Object(a)) == Meaning(q, request, Object(b)) {
        LeavesContain(ps, q);
        MeaningIsLocal(q, request, a, b);
      }
  }

  ghost predicate Open(p: Permission, request: set<nat>, wanted: Verdict) {
    wanted != Unknown && Meaning(p, request, Preflight) in {wanted, Unknown}
  }

  /** When no leaf is repeated, a preflight that cannot tell really could go either way: some
      object is allowed and some object is not. */
  lemma {:induction false} UnknownCanGoEitherWay(p: Permission, request: set<nat>, wanted: Verdict)
    returns (passing: set<nat>)
    requires ReadOnce(p) && Open(p, request, wanted)
    ensures passing <= Leaves(p) && Meaning(p, request, Object(passing)) == wanted
    decreases p, 1
  {
    match p
    case Leaf(id, _) => passing := if wanted == Yes then {id} else {};
    case Not(q) => passing := UnknownCanGoEitherWay(q, request, if wanted == Yes then No else Yes);
    case AllOf(ps) =>
      if wanted == Yes {
        passing := AllTogether(p, ps, request, Yes);
      } else {
        var q :| q in ps && Open(q, request, No);
        passing := UnknownCanGoEitherWayOf(p, ps, q, request, No);
      }
    case AnyOf(ps) =>
      if wanted == No {
        passing := AllTogether(p, ps, request, No);
      } else {
        var q :| q in ps && Open(q, request, Yes);
        passing := UnknownCanGoEitherWayOf(p, ps, q, request, Yes);
      }
  }

  lemma {:induction false} UnknownCanGoEitherWayOf(p: Permission, ps: seq<Permission>, q: Permission,
                                                   request: set<nat>, wanted: Verdict)
    returns (passing: set<nat>)
    requires q in ps && (forall c | c in ps :: c < p) && ReadOnceAll(ps) && Open(q, request, wanted)
    ensures passing <= LeavesOf(ps) && Meaning(q, request, Object(passing)) == wanted
    decreases p, 0, |ps|
  {
    if q == ps[0] {
      passing := UnknownCanGoEitherWay(q, request, wanted);
    } else {
      assert forall c | c in ps[1..] :: c in ps;
      passing := UnknownCanGoEitherWayOf(p, ps[1..], q, request, wanted);
    }
  }

  /** Disjoint operands can be steered independently of each other. */
  lemma {:induction false} AllTogether(p: Permission, ps: seq<Permission>, request: set<nat>, wanted: Verdict)
    returns (passing: set<nat>)
    requires (forall c | c in ps :: c < p && Open(c, request, wanted)) && ReadOnceAll(ps)
    requires wanted != Unknown
    ensures passing <= LeavesOf(ps) && forall c | c in ps :: Meaning(c, request, Object(passing)) == wanted
    decreases p, 0, |ps|
  {
    if ps == [] {
      passing := {};
    } else {
      assert ps[0] in ps;
      assert forall c | c in ps[1..] :: c in ps;
      var head := UnknownCanGoEitherWay(ps[0], request, wanted);
      var tail := AllTogether(p, ps[1..], request, wanted);
      passing := head + tail;
      MeaningIsLocal(ps[0], request, head, passing);
      forall c | c in ps[1..] ensures Meaning(c, request, Object(passing)) == wanted {
        LeavesContain(ps[1..], c);
        MeaningIsLocal(c, request, tail, passing);
      }
    }
  }

  /** A repeated leaf is where the tree can know more than its evaluation does. */
  lemma RepeatedLeafIsOvercautious(id: nat, passing: set<nat>)
    ensures var p := AnyOf([Leaf(id, true), Not(Leaf(id, true))]);
      !ReadOnce(p) && Meaning(p, {id}, Preflight) == Unknown && Meaning(p, {id}, Object(passing)) == Yes
  {
    var a, b := Leaf(id, true), Not(Leaf(id, true));
    var ps := [a, b];
    assert ps[0] == a && ps[1] == b && a in ps && b in ps;
    assert ps[1..] == [b] && LeavesOf([b]) == Leaves(b) + LeavesOf([b][1..]);
    assert Meaning(a, {id}, Preflight) == Unknown && Meaning(b, {id}, Preflight) == Unknown;
    assert Meaning(if id in passing then a else b, {id}, Object(passing)) == Yes;
  }
}
