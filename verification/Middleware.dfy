/** The middleware onion: a flat loop over the entered middlewares against nested layers. */
module Middleware {

  type Response = nat
  type Exception = nat

  datatype Outcome = Return(response: Response) | Raise(exception: Exception)

  datatype RequestOutcome = Nothing | Respond(response: Response) | Refuse(exception: Exception)

  /** What a middleware's hooks do: anything at all, and its cleanup may raise too. */
  datatype Layer = Layer(request: RequestOutcome, respond: Response -> Outcome, cleanupRaises: bool)

  /** Layers are numbered from the outside; a cleanup that raises is logged and swallowed. */
  datatype Event = Asked(layer: nat) | Handled | Answered(layer: nat) | Cleaned(layer: nat, swallowed: bool)

  type Run = (Outcome, seq<Event>)

  // --- The onion by nesting -----------------------------------------------------------------

  /** One layer around an inner run: its response hook sees a response, its exception hook any
      exception of what is inside it or of its own hooks. */
  function Wrap(layer: Layer, i: nat, inner: Run): Run {
    match inner.0
    case Raise(_) => (inner.0, inner.1 + [Cleaned(i, layer.cleanupRaises)])
    case Return(response) =>
      var out := layer.respond(response);
      (out, inner.1 + [if out.Return? then Answered(i) else Cleaned(i, layer.cleanupRaises)])
  }

  function Onion(layers: seq<Layer>, i: nat, handler: Outcome): Run
    requires i <= |layers|
    decreases |layers| - i
  {
    if i == |layers| then (handler, [Handled])
    else match layers[i].request
         case Refuse(e) => (Raise(e), [Asked(i), Cleaned(i, layers[i].cleanupRaises)])
         case Respond(response) => Wrap(layers[i], i, (Return(response), [Asked(i)]))
         case Nothing =>
           var inner := Onion(layers, i + 1, handler);
           Wrap(layers[i], i, (inner.0, [Asked(i)] + inner.1))
  }

  // --- The code -------------------------------------------------------------------------------

  /** Closing the first `n` layers, from the inside out. */
  function Close(layers: seq<Layer>, n: nat, run: Run): Run
    requires n <= |layers|
  {
    if n == 0 then run else Close(layers, n - 1, Wrap(layers[n - 1], n - 1, run))
  }

  function Downs(n: nat): seq<Event> {
    seq(n, i requires 0 <= i => Asked(i))
  }

  /** What the nested layers do when the first `i` of them have let the request through. */
  lemma {:induction false} OnionCloses(layers: seq<Layer>, i: nat, handler: Outcome)
    requires i <= |layers| && forall j | 0 <= j < i :: layers[j].request.Nothing?
    ensures Onion(layers, 0, handler) ==
      Close(layers, i, var inner := Onion(layers, i, handler); (inner.0, Downs(i) + inner.1))
    decreases i
  {
    if i == 0 {
      assert Downs(0) + Onion(layers, 0, handler).1 == Onion(layers, 0, handler).1;
    } else {
      OnionCloses(layers, i - 1, handler);
      var inner := Onion(layers, i, handler);
      var outer := Wrap(layers[i - 1], i - 1, (inner.0, [Asked(i - 1)] + inner.1));
      var last := outer.1[|outer.1| - 1..];
      assert outer.1 == ([Asked(i - 1)] + inner.1) + last;
      assert Downs(i) == Downs(i - 1) + [Asked(i - 1)];
      assert Downs(i - 1) + outer.1 == (Downs(i) + inner.1) + last;
    }
  }

  /** middleware_decorator's srun and arun: push while asking, pop after each response hook, and
      on any exception call the exception hook of whatever is still on the stack. */
  method Serve(layers: seq<Layer>, handler: Outcome) returns (out: Outcome, log: seq<Event>)
    ensures (out, log) == Onion(layers, 0, handler)
  {
    var entered: seq<nat> := [];
    log := [];
    var current := Return(0);
    var answered, i := false, 0;
    while i < |layers| && !answered && current.Return?
      invariant 0 <= i <= |layers|
      invariant !answered && current.Return? ==>
        entered == seq(i, j => j) && log == Downs(i) && forall j | 0 <= j < i :: layers[j].request.Nothing?
      invariant answered || current.Raise? ==>
        && |entered| <= |layers| && entered == seq(|entered|, j => j)
        && Onion(layers, 0, handler)
          == (if current.Raise? then Unwind(layers, |entered|, current, log)
              else Close(layers, |entered|, (current, log)))
      decreases |layers| - i
    {
      OnionCloses(layers, i, handler);
      entered := entered + [i];
      log := log + [Asked(i)];
      match layers[i].request {
        case Nothing =>
        case Respond(response) =>
          answered, current := true, Return(response);
          assert Downs(i) + Onion(layers, i, handler).1 == Wrap(layers[i], i, (current, log)).1;
        case Refuse(e) =>
          current := Raise(e);
          assert Downs(i) + [Asked(i), Cleaned(i, layers[i].cleanupRaises)]
            == log + [Cleaned(i, layers[i].cleanupRaises)];
          UnwindCloses(layers, i + 1, current, log);
      }
      i := i + 1;
    }
    if !answered && current.Return? {
      OnionCloses(layers, i, handler);
      log := log + [Handled];
      current := handler;
      if current.Raise? { UnwindCloses(layers, i, current, log); }
    }
    while entered != [] && current.Return?
      invariant |entered| <= |layers| && entered == seq(|entered|, j => j)
      invariant Onion(layers, 0, handler)
        == (if current.Raise? then Unwind(layers, |entered|, current, log)
            else Close(layers, |entered|, (current, log)))
      decreases |entered|, current.Return?
    {
      var innermost := entered[|entered| - 1];
      var next := layers[innermost].respond(current.response);
      if next.Return? {
        log := log + [Answered(innermost)];
        entered := entered[..|entered| - 1];
      } else {
        UnwindCloses(layers, |entered| - 1, next, log + [Cleaned(innermost, layers[innermost].cleanupRaises)]);
      }
      current := next;
    }
    if current.Raise? {
      while entered != []
        invariant |entered| <= |layers| && entered == seq(|entered|, j => j)
        invariant Onion(layers, 0, handler) == Unwind(layers, |entered|, current, log)
        decreases |entered|
      {
        var innermost := entered[|entered| - 1];
        log := log + [Cleaned(innermost, layers[innermost].cleanupRaises)];
        entered := entered[..|entered| - 1];
      }
    }
    out := current;
  }

  /** Exception hooks of the first `n` layers, whatever they do themselves. */
  function Unwind(layers: seq<Layer>, n: nat, out: Outcome, log: seq<Event>): Run
    requires n <= |layers|
  {
    if n == 0 then (out, log) else Unwind(layers, n - 1, out, log + [Cleaned(n - 1, layers[n - 1].cleanupRaises)])
  }

  lemma {:induction false} UnwindCloses(layers: seq<Layer>, n: nat, out: Outcome, log: seq<Event>)
    requires n <= |layers| && out.Raise?
    ensures Unwind(layers, n, out, log) == Close(layers, n, (out, log))
    decreases n
  {
    if n > 0 { UnwindCloses(layers, n - 1, out, log + [Cleaned(n - 1, layers[n - 1].cleanupRaises)]); }
  }

  // --- What every run looks like ----------------------------------------------------------------

  ghost predicate Closes(layers: seq<Layer>, e: Event, i: nat)
    requires i < |layers|
  {
    e == Answered(i) || e == Cleaned(i, layers[i].cleanupRaises)
  }

  /** Every layer from `n` outwards is closed once, inside out, and after one cleanup only
      cleanups follow. */
  ghost predicate Closings(layers: seq<Layer>, ups: seq<Event>, first: nat, n: nat)
    requires first <= n <= |layers|
  {
    && |ups| == n - first
    && (forall k | 0 <= k < |ups| :: Closes(layers, ups[k], n - 1 - k))
    && forall k, l | 0 <= k < l < |ups| :: ups[k].Cleaned? ==> ups[l].Cleaned?
  }

  /** The middle of a run: the handler, unless some layer answered or refused instead. */
  ghost predicate Core(layers: seq<Layer>, n: nat, core: seq<Event>) {
    if core == [Handled] then n == |layers|
    else core == [] && 0 < n <= |layers| && !layers[n - 1].request.Nothing?
  }

  /** The outcome before any layer is closed, and after the response hooks that follow. */
  ghost predicate Survives(run: Run, ups: seq<Event>) {
    run.0.Raise? <==> ups != [] && ups[|ups| - 1].Cleaned?
  }

  /** Around an inner run a layer adds one closing event, a cleanup exactly when it fails. */
  lemma WrapCloses(layers: seq<Layer>, i: nat, inner: Run) returns (e: Event)
    requires i < |layers|
    ensures var run := Wrap(layers[i], i, inner);
      && run.1 == inner.1 + [e] && Closes(layers, e, i)
      && (run.0.Raise? <==> e.Cleaned?) && (inner.0.Raise? ==> run.0 == inner.0)
  {
    var run := Wrap(layers[i], i, inner);
    e := run.1[|run.1| - 1];
  }

  lemma ClosingsGrow(layers: seq<Layer>, ups: seq<Event>, first: nat, n: nat, e: Event)
    requires first < n <= |layers| && Closings(layers, ups, first + 1, n) && Closes(layers, e, first)
    requires ups != [] && ups[|ups| - 1].Cleaned? ==> e.Cleaned?
    ensures Closings(layers, ups + [e], first, n)
  {
    var longer := ups + [e];
    forall k, l | 0 <= k < l < |longer| && longer[k].Cleaned? ensures longer[l].Cleaned? {
      if l == |ups| && k < |ups| - 1 { assert ups[|ups| - 1].Cleaned?; }
    }
  }

  lemma Regroups(a: seq<Event>, b: seq<Event>, core: seq<Event>, inner: seq<Event>, e: seq<Event>)
    ensures a + (b + core + inner) + e == (a + b) + core + (inner + e)
  {
  }

  lemma {:induction false} OnionShape(layers: seq<Layer>, i: nat, handler: Outcome)
    returns (n: nat, core: seq<Event>, ups: seq<Event>)
    requires i <= |layers|
    ensures i <= n <= |layers| && Core(layers, n, core) && Closings(layers, ups, i, n)
    ensures forall j | i <= j < n - 1 :: layers[j].request.Nothing?
    ensures core == [Handled] ==> forall j | i <= j < n :: layers[j].request.Nothing?
    ensures Onion(layers, i, handler).1 == Downs(n)[i..] + core + ups
    ensures i < |layers| ==> i < n
    ensures ups != [] ==> Survives(Onion(layers, i, handler), ups)
    decreases |layers| - i
  {
    if i == |layers| {
      n, core, ups := i, [Handled], [];
      assert Downs(n)[i..] == [];
    } else if layers[i].request.Nothing? {
      var inner;
      n, core, inner := OnionShape(layers, i + 1, handler);
      var below := Onion(layers, i + 1, handler);
      var e := WrapCloses(layers, i, (below.0, [Asked(i)] + below.1));
      ups := inner + [e];
      ClosingsGrow(layers, inner, i, n, e);
      assert Downs(n)[i..] == [Asked(i)] + Downs(n)[i + 1..];
      Regroups([Asked(i)], Downs(n)[i + 1..], core, inner, [e]);
    } else {
      n, core := i + 1, [];
      var run := Onion(layers, i, handler);
      ups := [run.1[|run.1| - 1]];
      assert Downs(n)[i..] == [Asked(i)];
    }
  }

  ghost function Count(log: seq<Event>, e: Event): nat {
    multiset(log)[e]
  }

  /** Every middleware whose request hook began has exactly one of "its response hook returned"
      and "its exception hook was called"; one that was not reached has none of them. */
  lemma EachLayerIsClosedOnce(layers: seq<Layer>, handler: Outcome, i: nat)
    requires i < |layers|
    ensures var log := Onion(layers, 0, handler).1;
      && Count(log, Asked(i)) <= 1
      && Count(log, Answered(i)) + Count(log, Cleaned(i, true)) + Count(log, Cleaned(i, false)) == Count(log, Asked(i))
      && (Count(log, Asked(i)) == 1 <==> forall j | 0 <= j < i :: layers[j].request.Nothing?)
  {
    var n, core, ups := OnionShape(layers, 0, handler);
    var log := Onion(layers, 0, handler).1;
    assert Downs(n)[0..] == Downs(n);
    assert multiset(log) == multiset(Downs(n)) + multiset(core) + multiset(ups);
    CountDowns(n, i);
    CountUps(layers, ups, n, i);
  }

  lemma {:induction false} CountDowns(n: nat, i: nat)
    ensures multiset(Downs(n))[Asked(i)] == if i < n then 1 else 0
    ensures multiset(Downs(n))[Answered(i)] == 0
      && multiset(Downs(n))[Cleaned(i, true)] + multiset(Downs(n))[Cleaned(i, false)] == 0
    decreases n
  {
    if n > 0 {
      assert Downs(n) == Downs(n - 1) + [Asked(n - 1)];
      CountDowns(n - 1, i);
    }
  }

  lemma {:induction false} CountUps(layers: seq<Layer>, ups: seq<Event>, n: nat, i: nat)
    requires |ups| <= n <= |layers| && forall k | 0 <= k < |ups| :: Closes(layers, ups[k], n - 1 - k)
    ensures multiset(ups)[Answered(i)] + multiset(ups)[Cleaned(i, true)] + multiset(ups)[Cleaned(i, false)]
      == if n - |ups| <= i < n then 1 else 0
    ensures multiset(ups)[Asked(i)] == 0
    decreases |ups|
  {
    if ups != [] {
      var front := ups[..|ups| - 1];
      assert ups == front + [ups[|ups| - 1]];
      CountUps(layers, front, n, i);
    }
  }

  /** What a response becomes on its way out through the first `n` layers: each hook is given what the one inside
      it returned, until one raises. */
  ghost function Outward(layers: seq<Layer>, n: nat, out: Outcome): Outcome
    requires n <= |layers|
  {
    if n == 0 || out.Raise? then out else Outward(layers, n - 1, layers[n - 1].respond(out.response))
  }

  lemma {:induction false} ClosingIsOutward(layers: seq<Layer>, n: nat, run: Run)
    requires n <= |layers|
    ensures Close(layers, n, run).0 == Outward(layers, n, run.0)
    decreases n
  {
    if n > 0 {
      ClosingIsOutward(layers, n - 1, Wrap(layers[n - 1], n - 1, run));
      if run.0.Raise? { assert Outward(layers, n - 1, run.0) == run.0; }
    }
  }

  /** What the client gets is what the first layer that does not let the request through answers or raises, or
      else the handler, carried outward through the response hooks of the layers that were asked. */
  lemma OutcomeIsCarriedOutward(layers: seq<Layer>, handler: Outcome) returns (n: nat)
    ensures n <= |layers| && forall j | 0 <= j < n :: layers[j].request.Nothing?
    ensures n < |layers| ==> !layers[n].request.Nothing?
    ensures Onion(layers, 0, handler).0 ==
      if n == |layers| then Outward(layers, n, handler)
      else if layers[n].request.Refuse? then Raise(layers[n].request.exception)
      else Outward(layers, n + 1, Return(layers[n].request.response))
  {
    n := 0;
    while n < |layers| && layers[n].request.Nothing?
      invariant n <= |layers| && forall j | 0 <= j < n :: layers[j].request.Nothing?
    {
      n := n + 1;
    }
    OnionCloses(layers, n, handler);
    var inner := Onion(layers, n, handler);
    ClosingIsOutward(layers, n, (inner.0, Downs(n) + inner.1));
    if n < |layers| && layers[n].request.Refuse? { assert Outward(layers, n, inner.0) == inner.0; }
  }

  /** The exception that comes out is the innermost one, and failing cleanups do not replace it:
      once a layer was cleaned up, so is every layer around it. */
  lemma {:induction false} FirstExceptionSurvives(layers: seq<Layer>, n: nat, run: Run)
    requires n <= |layers|
    ensures run.0.Raise? ==> Close(layers, n, run).0 == run.0
    decreases n
  {
    if n > 0 { FirstExceptionSurvives(layers, n - 1, Wrap(layers[n - 1], n - 1, run)); }
  }
}
