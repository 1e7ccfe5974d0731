/** Cached responses under one prefix, invalidated by moving its version on. */
module ResponseCache {

  datatype Option<+T> = None | Some(value: T)

  /** Everything but the version that a cache key is made of. */
  datatype Variant = Variant(method_: string, path: string, vary: seq<string>)

  datatype EntryKey = EntryKey(version: int, variant: Variant)

  datatype Body = Body(status: nat, content: seq<int>, contentType: string)

  /** What was stored and, as history, when the request that produced it had read its version:
      its handler ran after that. */
  datatype Entry = Entry(body: Body, since: nat)

  datatype Phase =
    | Idle
    | Rereading(variant: Variant)              // the version was missing and has been added
    | Versioned(variant: Variant, version: int, since: nat)
    | Handling(variant: Variant, version: int, since: nat)
    | Served(body: Body, since: nat, producedSince: nat)
    | Over

  /** `incr` found no version; the fallback has still to set one. */
  datatype Invalidation = NotStarted | FellBack | Returned

  datatype Bump = Bump(at: nat, version: int)

  /** `now` numbers the steps; `bumps` is history: the invalidations that have returned. */
  datatype State = State(
    version: Option<int>,
    entries: map<EntryKey, Entry>,
    requests: map<nat, Phase>,
    invalidations: map<nat, Invalidation>,
    now: nat,
    bumps: seq<Bump>)

  const START := State(None, map[], map[], map[], 0, [])

  datatype Step =
    | ReadVersion(r: nat, variant: Variant)
    | RereadVersion(r: nat)
    | LookUp(r: nat)
    | Respond(r: nat, body: Body)
    | Evict(key: EntryKey)
    | Increment(i: nat)
    | SetVersion(i: nat, seconds: int)

  const CACHEABLE := {200, 203, 300, 301, 404, 410}

  function At(s: State, r: nat): Phase {
    if r in s.requests then s.requests[r] else Idle
  }

  function Asked(s: State, i: nat): Invalidation {
    if i in s.invalidations then s.invalidations[i] else NotStarted
  }

  predicate Enabled(s: State, step: Step) {
    match step
    case ReadVersion(r, _) => At(s, r).Idle?
    case RereadVersion(r) => At(s, r).Rereading? && s.version.Some?
    case LookUp(r) => At(s, r).Versioned?
    case Respond(r, _) => At(s, r).Handling?
    case Evict(_) => true
    case Increment(i) => Asked(s, i).NotStarted?
    case SetVersion(i, _) => Asked(s, i).FellBack?
  }

  function Bumped(s: State, i: nat, version: int): State {
    s.(version := Some(version), invalidations := s.invalidations[i := Returned],
       bumps := s.bumps + [Bump(s.now, version)])
  }

  function Effect(s: State, step: Step): State
    requires Enabled(s, step)
  {
    match step
    case ReadVersion(r, variant) =>
      if s.version.None? then s.(version := Some(1), requests := s.requests[r := Rereading(variant)])
      else s.(requests := s.requests[r := Versioned(variant, s.version.value, s.now)])
    case RereadVersion(r) =>
      s.(requests := s.requests[r := Versioned(At(s, r).variant, s.version.value, s.now)])
    case LookUp(r) =>
      var Versioned(variant, version, since) := At(s, r);
      var key := EntryKey(version, variant);
      s.(requests := s.requests[r :=
           if key in s.entries then Served(s.entries[key].body, since, s.entries[key].since)
           else Handling(variant, version, since)])
    case Respond(r, body) =>
      var Handling(variant, version, since) := At(s, r);
      var s' := s.(requests := s.requests[r := Over]);
      if body.status in CACHEABLE then s'.(entries := s.entries[EntryKey(version, variant) := Entry(body, since)])
        else s'
    case Evict(key) => s.(entries := s.entries - {key})
    case Increment(i) =>
      if s.version.Some? then Bumped(s, i, s.version.value + 1)
      else s.(invalidations := s.invalidations[i := FellBack])
    case SetVersion(i, seconds) => Bumped(s, i, seconds)
  }

  function Next(s: State, step: Step): State
    requires Enabled(s, step)
  {
    var s' := Effect(s, step);
    s'.(now := s.now + 1)
  }

  /** The fallback of an invalidation that found no version sets one above the current. */
  predicate Raises(s: State, step: Step) {
    step.SetVersion? && s.version.Some? ==> s.version.value < step.seconds
  }

  // --- The invariant ----------------------------------------------------------------------

  /** A version read at `since` tells which invalidations had returned by then. */
  ghost predicate Dated(s: State, version: int, since: nat) {
    && since < s.now && s.version.Some? && version <= s.version.value
    && forall b | b in s.bumps ::
      b.at != since && (b.at < since ==> b.version <= version) && (since < b.at ==> version < b.version)
  }

  ghost predicate PhaseOk(s: State, p: Phase) {
    match p
    case Rereading(_) => s.version.Some?
    case Versioned(_, version, since) => Dated(s, version, since)
    case Handling(_, version, since) => Dated(s, version, since)
    case Served(_, since, producedSince) =>
      since < s.now && forall b | b in s.bumps && b.at < since :: b.at < producedSince
    case _ => true
  }

  ghost predicate Inv(s: State) {
    && (forall b | b in s.bumps :: b.at < s.now && s.version.Some? && b.version <= s.version.value)
    && (forall r: nat :: PhaseOk(s, At(s, r)))
    && (forall key | key in s.entries :: Dated(s, key.version, s.entries[key].since))
  }

  lemma DatedStays(s: State, s': State, version: int, since: nat)
    requires Dated(s, version, since) && s.now < s'.now
    requires s'.version.Some? && s.version.value <= s'.version.value
    requires s'.bumps == s.bumps ||
             (s'.bumps == s.bumps + [Bump(s.now, s'.version.value)] && s.version.value < s'.version.value)
    ensures Dated(s', version, since)
  {
  }

  /** What every step leaves alone, whoever takes it. */
  lemma OthersStay(s: State, s': State)
    requires Inv(s) && s'.now == s.now + 1
    requires s.version.Some? ==> s'.version.Some? && s.version.value <= s'.version.value
    requires s'.bumps == s.bumps ||
             (s'.version.Some? && s'.bumps == s.bumps + [Bump(s.now, s'.version.value)] &&
              (s.version.Some? ==> s.version.value < s'.version.value))
    ensures forall r: nat :: PhaseOk(s', At(s, r))
    ensures forall key | key in s.entries :: Dated(s', key.version, s.entries[key].since)
    ensures forall b | b in s'.bumps :: b.at < s'.now && s'.version.Some? && b.version <= s'.version.value
  {
    forall r: nat ensures PhaseOk(s', At(s, r)) {
      var p := At(s, r);
      assert PhaseOk(s, p);
      if p.Versioned? { DatedStays(s, s', p.version, p.since); }
      if p.Handling? { DatedStays(s, s', p.version, p.since); }
    }
    forall key | key in s.entries ensures Dated(s', key.version, s.entries[key].since) {
      DatedStays(s, s', key.version, s.entries[key].since);
    }
  }

  lemma HitIsFresh(s: State, version: int, since: nat, producedSince: nat)
    requires Dated(s, version, since) && Dated(s, version, producedSince)
    ensures forall b | b in s.bumps && b.at < since :: b.at < producedSince
  {
  }

  lemma StepKeepsInv(s: State, step: Step)
    requires Inv(s) && Enabled(s, step) && Raises(s, step)
    ensures Inv(Next(s, step))
  {
    var s' := Next(s, step);
    OthersStay(s, s');
    match step
    case ReadVersion(r, _) => assert forall x: nat | x != r :: At(s', x) == At(s, x);
    case RereadVersion(r) => assert forall x: nat | x != r :: At(s', x) == At(s, x);
    case LookUp(r) =>
      assert forall x: nat | x != r :: At(s', x) == At(s, x);
      var p := At(s, r);
      assert PhaseOk(s, p) && PhaseOk(s', p);
      var key := EntryKey(p.version, p.variant);
      if key in s.entries { HitIsFresh(s, p.version, p.since, s.entries[key].since); }
    case Respond(r, _) =>
      assert forall x: nat | x != r :: At(s', x) == At(s, x);
      assert PhaseOk(s', At(s, r));
    case Evict(_) => assert forall x: nat :: At(s', x) == At(s, x);
    case Increment(_) => assert forall x: nat :: At(s', x) == At(s, x);
    case SetVersion(_, _) => assert forall x: nat :: At(s', x) == At(s, x);
  }

  // --- Whole runs -------------------------------------------------------------------------

  ghost predicate CanRun(s: State, steps: seq<Step>)
    decreases |steps|
  {
    steps == [] || (Enabled(s, steps[0]) && CanRun(Next(s, steps[0]), steps[1..]))
  }

  ghost function After(s: State, steps: seq<Step>): State
    requires CanRun(s, steps)
    decreases |steps|
  {
    if steps == [] then s else After(Next(s, steps[0]), steps[1..])
  }

  ghost predicate AllRaise(s: State, steps: seq<Step>)
    requires CanRun(s, steps)
    decreases |steps|
  {
    steps == [] || (Raises(s, steps[0]) && AllRaise(Next(s, steps[0]), steps[1..]))
  }

  lemma {:induction false} RunKeepsInv(s: State, steps: seq<Step>)
    requires Inv(s) && CanRun(s, steps) && AllRaise(s, steps)
    ensures Inv(After(s, steps))
    decreases |steps|
  {
    if steps != [] {
      StepKeepsInv(s, steps[0]);
      RunKeepsInv(Next(s, steps[0]), steps[1..]);
    }
  }

  /** A hit on something produced before an invalidation that had already returned when the
      served request read its version. */
  ghost predicate StaleHit(s: State, r: nat, b: Bump) {
    At(s, r).Served? && b in s.bumps && b.at < At(s, r).since && At(s, r).producedSince < b.at
  }

  /** No stale hits: whatever the interleaving, and however late slower requests store. */
  lemma NoStaleHits(steps: seq<Step>, r: nat, b: Bump)
    requires CanRun(START, steps) && AllRaise(START, steps)
    ensures !StaleHit(After(START, steps), r, b)
  {
    RunKeepsInv(START, steps);
    assert PhaseOk(After(START, steps), At(After(START, steps), r));
  }

  // --- What each request gets --------------------------------------------------------------------

  /** A request is answered from the entry of the version it read and of its own variant, or goes on to its
      handler under exactly that key. */
  lemma LookingUpDecides(s: State, r: nat)
    requires At(s, r).Versioned?
    ensures var p, next := At(s, r), At(Next(s, LookUp(r)), r);
      if EntryKey(p.version, p.variant) in s.entries then
        next.Served? && next.body == s.entries[EntryKey(p.version, p.variant)].body
      else next == Handling(p.variant, p.version, p.since)
    ensures Next(s, LookUp(r)).entries == s.entries && Next(s, LookUp(r)).version == s.version
  {
  }

  /** A version is read as it is, and is one where there was none; nothing else moves it but invalidations. */
  lemma ReadingDecides(s: State, r: nat, variant: Variant)
    requires At(s, r).Idle?
    ensures var s' := Next(s, ReadVersion(r, variant));
      && s'.entries == s.entries && s'.version == Some(if s.version.Some? then s.version.value else 1)
      && At(s', r) == if s.version.Some? then Versioned(variant, s.version.value, s.now) else Rereading(variant)
    ensures var s' := Next(s, ReadVersion(r, variant));
      At(s', r).Rereading? ==> At(Next(s', RereadVersion(r)), r) == Versioned(variant, s'.version.value, s'.now)
  {
  }

  /** Invalidating raises the version by one, or sets it to the clock where there was none. */
  lemma InvalidatingDecides(s: State, i: nat, seconds: int)
    requires Asked(s, i).NotStarted?
    ensures var s' := Next(s, Increment(i));
      && s'.entries == s.entries
      && if s.version.Some? then s'.version == Some(s.version.value + 1) && Asked(s', i).Returned?
         else s'.version == None && Asked(s', i).FellBack? && Next(s', SetVersion(i, seconds)).version == Some(seconds)
  {
  }

  /** An entry that is evicted is gone, and nothing else is. */
  lemma EvictingDecides(s: State, key: EntryKey, other: EntryKey)
    ensures var s' := Next(s, Evict(key));
      && key !in s'.entries && s'.version == s.version
      && (other != key ==> (other in s'.entries <==> other in s.entries)
                           && (other in s.entries ==> s'.entries[other] == s.entries[other]))
  {
  }

  /** A response is stored under the key its request missed under when its status may be cached, and is not
      stored otherwise. */
  lemma RespondingDecides(s: State, r: nat, body: Body)
    requires At(s, r).Handling?
    ensures var p := At(s, r);
      Next(s, Respond(r, body)).entries ==
        if body.status in {200, 203, 300, 301, 404, 410}
        then s.entries[EntryKey(p.version, p.variant) := Entry(body, p.since)]
        else s.entries
  {
  }

  /** Everything stored or served has one of the six statuses that may be cached. */
  ghost predicate OnlyCacheable(s: State) {
    && (forall key | key in s.entries :: s.entries[key].body.status in {200, 203, 300, 301, 404, 410})
    && forall r: nat | At(s, r).Served? :: At(s, r).body.status in {200, 203, 300, 301, 404, 410}
  }

  lemma StepStoresOnlyCacheable(s: State, step: Step)
    requires Enabled(s, step) && OnlyCacheable(s)
    ensures OnlyCacheable(Next(s, step))
  {
    var s' := Next(s, step);
    forall r: nat | At(s', r).Served? ensures At(s', r).body.status in {200, 203, 300, 301, 404, 410} {
      assert At(s', r) == At(s, r) || (step == LookUp(r) && EntryKey(At(s, r).version, At(s, r).variant) in s.entries);
    }
  }

  /** In no run is an error of the server, or a redirect that may change, ever stored or served. */
  lemma {:induction false} OnlyCacheableIsStored(s: State, steps: seq<Step>)
    requires CanRun(s, steps) && OnlyCacheable(s)
    ensures OnlyCacheable(After(s, steps))
    decreases |steps|
  {
    if steps != [] {
      StepStoresOnlyCacheable(s, steps[0]);
      OnlyCacheableIsStored(Next(s, steps[0]), steps[1..]);
    }
  }

  // --- Exactly when the fallback is safe ------------------------------------------------------

  /** `n` invalidations, one after the other. */
  lemma {:induction false} IncrementsRun(s: State, n: nat, unused: nat) returns (steps: seq<Step>)
    requires s.version.Some? && forall i: nat | i >= unused :: Asked(s, i).NotStarted?
    ensures CanRun(s, steps)
    ensures var s' := After(s, steps);
      && s'.version == Some(s.version.value + n) && s'.entries == s.entries && s'.requests == s.requests
      && s.now <= s'.now && s.bumps <= s'.bumps
    decreases n
  {
    if n == 0 {
      steps := [];
    } else {
      var s1 := Next(s, Increment(unused));
      forall i: nat | i >= unused + 1 ensures Asked(s1, i).NotStarted? { assert Asked(s, i).NotStarted?; }
      var rest := IncrementsRun(s1, n - 1, unused + 1);
      steps := [Increment(unused)] + rest;
      assert steps[1..] == rest;
    }
  }

  lemma {:induction false} Concatenate(s: State, first: seq<Step>, second: seq<Step>)
    requires CanRun(s, first) && CanRun(After(s, first), second)
    ensures CanRun(s, first + second) && After(s, first + second) == After(After(s, first), second)
    decreases |first|
  {
    if first == [] {
      assert first + second == second;
    } else {
      Concatenate(Next(s, first[0]), first[1..], second);
      assert (first + second)[1..] == first[1..] + second;
    }
  }

  /** Requests and invalidations numbered from `unused` on have not begun. */
  ghost predicate Unused(s: State, unused: nat) {
    && (forall r: nat | r >= unused :: At(s, r).Idle?)
    && (forall i: nat | i >= unused :: Asked(s, i).NotStarted?)
  }

  /** A request has read the version and missed when the fallback brings back a version that is
      not higher; as many invalidations as it fell back by lead to the same version again, the
      request stores its old answer there, and the next request is served it. */
  lemma LoweringAllowsStaleHits(s: State, i: nat, seconds: int, unused: nat, variant: Variant, body: Body)
    returns (steps: seq<Step>, b: Bump)
    requires Asked(s, i).FellBack? && s.version.Some? && seconds <= s.version.value
    requires Unused(s, unused) && i < unused
    requires EntryKey(s.version.value, variant) !in s.entries && body.status in CACHEABLE
    ensures CanRun(s, steps) && StaleHit(After(s, steps), unused + 1, b)
  {
    var first, missed := MissThenLower(s, i, seconds, unused, variant);
    b := Bump(s.now + 2, seconds);
    var bumping := IncrementsRun(missed, s.version.value - seconds, unused);
    Concatenate(s, first, bumping);
    var last := StoreThenHit(After(missed, bumping), unused, variant, s.version.value, s.now, body);
    Concatenate(s, first + bumping, last);
    steps := first + bumping + last;
  }

  /** Such a fallback is reachable: two invalidations both find no version, and the second sets
      one before the first does. */
  lemma LateFallbackIsReachable(seconds: int)
    ensures var steps := [Increment(0), Increment(1), SetVersion(1, seconds)];
      && CanRun(START, steps) && AllRaise(START, steps)
      && Asked(After(START, steps), 0).FellBack? && After(START, steps).version == Some(seconds)
      && Unused(After(START, steps), 2) && After(START, steps).entries == map[]
  {
    ThreeSteps(START, Increment(0), Increment(1), SetVersion(1, seconds));
    var steps := [Increment(0), Increment(1), SetVersion(1, seconds)];
    assert steps[1..] == [Increment(1), SetVersion(1, seconds)] && steps[1..][1..] == [SetVersion(1, seconds)];
    assert steps[1..][1..][1..] == [];
    var s1 := Next(START, Increment(0));
    var s2 := Next(s1, Increment(1));
    assert AllRaise(s2, steps[1..][1..]) && AllRaise(s1, steps[1..]);
  }

  lemma ThreeSteps(s: State, a: Step, b: Step, c: Step)
    requires Enabled(s, a) && Enabled(Next(s, a), b) && Enabled(Next(Next(s, a), b), c)
    ensures CanRun(s, [a, b, c]) && After(s, [a, b, c]) == Next(Next(Next(s, a), b), c)
  {
    assert [a, b, c][1..] == [b, c] && [b, c][1..] == [c] && [c][1..] == [];
    assert CanRun(Next(Next(s, a), b), [c]) && CanRun(Next(s, a), [b, c]);
    assert After(Next(Next(s, a), b), [c]) == Next(Next(Next(s, a), b), c);
  }

  lemma MissThenLower(s: State, i: nat, seconds: int, unused: nat, variant: Variant)
    returns (steps: seq<Step>, s': State)
    requires Asked(s, i).FellBack? && s.version.Some? && Unused(s, unused) && i < unused
    requires EntryKey(s.version.value, variant) !in s.entries
    ensures CanRun(s, steps) && s' == After(s, steps)
    ensures s'.version == Some(seconds) && s'.entries == s.entries && s'.now == s.now + 3
    ensures s'.bumps == s.bumps + [Bump(s.now + 2, seconds)] && Bump(s.now + 2, seconds) in s'.bumps
    ensures At(s', unused) == Handling(variant, s.version.value, s.now) && At(s', unused + 1).Idle?
    ensures forall x: nat | x >= unused :: Asked(s', x).NotStarted?
  {
    steps := [ReadVersion(unused, variant), LookUp(unused), SetVersion(i, seconds)];
    ThreeSteps(s, ReadVersion(unused, variant), LookUp(unused), SetVersion(i, seconds));
    s' := After(s, steps);
    assert s'.bumps[|s.bumps|] == Bump(s.now + 2, seconds);
    forall x: nat | x >= unused ensures Asked(s', x).NotStarted? { assert Asked(s, x).NotStarted?; }
    assert At(s, unused + 1).Idle?;
  }

  lemma StoreThenHit(s: State, r: nat, variant: Variant, version: int, since: nat, body: Body)
    returns (steps: seq<Step>)
    requires At(s, r) == Handling(variant, version, since) && At(s, r + 1).Idle?
    requires s.version == Some(version) && body.status in CACHEABLE
    ensures CanRun(s, steps) && At(After(s, steps), r + 1) == Served(body, s.now + 1, since)
    ensures After(s, steps).bumps == s.bumps
  {
    steps := [Respond(r, body), ReadVersion(r + 1, variant), LookUp(r + 1)];
    ThreeSteps(s, Respond(r, body), ReadVersion(r + 1, variant), LookUp(r + 1));
  }

  // --- The objects ------------------------------------------------------------------------

  /** The cache backend, as far as one prefix goes; every call is atomic. */
  class Backend {
    var version: Option<int>
    var entries: map<EntryKey, Body>

    constructor ()
      ensures version == None && entries == map[]
    {
      version, entries := None, map[];
    }

    /** incr, which raises when there is no version. */
    method Increment() returns (found: bool)
      modifies this`version
      ensures found <==> old(version).Some?
      ensures version == if found then Some(old(version).value + 1) else None
    {
      found := version.Some?;
      if found {
        version := Some(version.value + 1);
      }
    }

    method SetVersion(seconds: int)
      modifies this`version
      ensures version == Some(seconds)
    {
      version := Some(seconds);
    }

    /** get_or_set, when nothing comes in between. */
    method Version() returns (v: int)
      modifies this`version
      ensures v == (if old(version).Some? then old(version).value else 1) && version == Some(v)
    {
      if version.None? {
        version := Some(1);
      }
      v := version.value;
    }
  }

  /** invalidate_cache, with the time its fallback would use. */
  method Invalidate(backend: Backend, seconds: int)
    modifies backend`version
    ensures backend.version == Some(if old(backend.version).Some? then old(backend.version).value + 1 else seconds)
  {
    var found := backend.Increment();
    if !found {
      backend.SetVersion(seconds);
    }
  }

  datatype Response = Response(body: Body, streaming: bool, hit: bool)

  /** The middleware's side of one request: the key it missed under is kept on the request. */
  class Visit {
    const backend: Backend
    const methods: set<string>
    const variant: Variant
    var key: Option<EntryKey>

    constructor (backend: Backend, methods: set<string>, variant: Variant)
      ensures this.backend == backend && this.methods == methods && this.variant == variant && key == None
    {
      this.backend, this.methods, this.variant, key := backend, methods, variant, None;
    }

    method ProcessRequest() returns (served: Option<Response>)
      modifies this`key, backend`version
      ensures variant.method_ !in methods ==> served.None? && key == old(key) && backend.version == old(backend.version)
      ensures variant.method_ in methods ==>
        && backend.version.Some? && (old(backend.version).Some? ==> backend.version == old(backend.version))
        && var k := EntryKey(backend.version.value, variant);
           if k in backend.entries then served == Some(Response(backend.entries[k], false, true)) && key == old(key)
           else served.None? && key == Some(k)
    {
      if variant.method_ !in methods {
        return None;
      }
      var version := backend.Version();
      var k := EntryKey(version, variant);
      if k !in backend.entries {
        key := Some(k);
        return None;
      }
      return Some(Response(backend.entries[k], false, true));
    }

    predicate Keeps(response: Response) {
      variant.method_ in methods && !response.hit && !response.streaming && response.body.status in CACHEABLE
    }

    /** Stores under the key the request missed under, not under the version of the moment. */
    method ProcessResponse(response: Response)
      modifies backend
      ensures !Keeps(response) ==>
        backend.entries == old(backend.entries) && backend.version == old(backend.version)
      ensures Keeps(response) ==> response.body.status in {200, 203, 300, 301, 404, 410}
      ensures Keeps(response) <==> variant.method_ in methods && !response.hit && !response.streaming
                                   && response.body.status in {200, 203, 300, 301, 404, 410}
      ensures Keeps(response) && key.Some? ==>
        backend.entries == old(backend.entries)[key.value := response.body] && backend.version == old(backend.version)
      ensures Keeps(response) && key.None? ==>
        && backend.version.Some? && (old(backend.version).Some? ==> backend.version == old(backend.version))
        && backend.entries == old(backend.entries)[EntryKey(backend.version.value, variant) := response.body]
    {
      if variant.method_ !in methods || response.hit {
        return;
      }
      if response.streaming || response.body.status !in CACHEABLE {
        return;
      }
      var k;
      if key.Some? {
        k := key.value;
      } else {
        var version := backend.Version();
        k := EntryKey(version, variant);
      }
      backend.entries := backend.entries[k := response.body];
    }
  }
}
