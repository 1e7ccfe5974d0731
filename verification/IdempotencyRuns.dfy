/** Any number of requests acquiring and finishing keys, each database statement one step. */
module IdempotencyRuns {
  import opened Idempotency

  datatype End = End(body: Body, finished: int, expires: int)

  /** One claim that was granted: history. */
  datatype Grant = Grant(token: Token, fingerprint: Fingerprint, granted: int, end: Option<End>)

  datatype Phase =
    | Idle
    | Looked(key: Key, fp: Fingerprint, token: Token, ttl: nat, row: Row)
    | Reclaiming(key: Key, fp: Fingerprint, token: Token, ttl: nat, seen: Token, now: int)
    | Owner(claim: Claim)
    | Finishing(claim: Claim, body: Body, now: int)   // the clock was read, the update not sent
    | Refused(status: nat)
    | Replayed(body: Body)
    | Left

  datatype State = State(
    rows: Rows,
    phases: map<nat, Phase>,
    clock: int,
    next: Token,
    grants: map<Key, seq<Grant>>)

  datatype Step =
    | GetOrCreate(r: nat, key: Key, fp: Fingerprint, ttl: nat)
    | Decide(r: nat)
    | Reclaim(r: nat)
    | Respond(r: nat, response: Response)
    | Finish(r: nat)
    | Fail(r: nat)                // the view raised, or the update: the claim is kept
    | Tick(elapsed: nat)

  function At(s: State, r: nat): Phase {
    if r in s.phases then s.phases[r] else Idle
  }

  function History(s: State, key: Key): seq<Grant> {
    if key in s.grants then s.grants[key] else []
  }

  /** The request is executing, or about to store its answer. */
  predicate Owns(p: Phase) {
    p.Owner? || p.Finishing?
  }

  predicate Enabled(s: State, step: Step) {
    match step
    case GetOrCreate(r, _, _, _) => At(s, r).Idle?
    case Decide(r) => At(s, r).Looked?
    case Reclaim(r) => At(s, r).Reclaiming?
    case Respond(r, _) => At(s, r).Owner?
    case Finish(r) => At(s, r).Finishing?
    case Fail(r) => Owns(At(s, r))
    case Tick(_) => true
  }

  /** What the snapshot and the clock lead to, in the order the code asks. */
  function Decision(p: Phase, now: int): Phase
    requires p.Looked?
  {
    if Expired(p.row, now) then Reclaiming(p.key, p.fp, p.token, p.ttl, p.row.token, now)
    else if p.row.fingerprint != p.fp then Refused(422)
    else if p.row.Running? then Refused(409)
    else Replayed(Replay(p.row.body))
  }

  function Granted(s: State, r: nat, key: Key, token: Token, fp: Fingerprint, ttl: nat): State {
    s.(rows := s.rows[key := Running(token, fp)],
       phases := s.phases[r := Owner(Claim(key, token, ttl))],
       grants := s.grants[key := History(s, key) + [Grant(token, fp, s.clock, None)]])
  }

  function Closed(g: seq<Grant>, end: End): seq<Grant>
    requires g != []
  {
    g[|g| - 1 := g[|g| - 1].(end := Some(end))]
  }

  function Next(s: State, step: Step): State
    requires Enabled(s, step)
  {
    match step
    case GetOrCreate(r, key, fp, ttl) =>
      var s' := s.(next := s.next + 1);
      if key !in s.rows then Granted(s', r, key, s.next, fp, ttl)
      else s'.(phases := s.phases[r := Looked(key, fp, s.next, ttl, s.rows[key])])
    case Decide(r) => s.(phases := s.phases[r := Decision(At(s, r), s.clock)])
    case Reclaim(r) =>
      var p := At(s, r);
      if CanReclaim(s.rows, p.key, p.seen, p.now) then Granted(s, r, p.key, p.token, p.fp, p.ttl)
      else s.(phases := s.phases[r := Refused(409)])
    case Respond(r, response) =>
      // a streaming answer is never stored
      s.(phases := s.phases[r := if response.Plain? then Finishing(At(s, r).claim, response.body, s.clock) else Left])
    case Finish(r) =>
      var p := At(s, r);
      var claim := p.claim;
      var rows := Finished(s.rows, claim, Plain(p.body), p.now);
      s.(rows := rows, phases := s.phases[r := Left],
         grants := if rows == s.rows || History(s, claim.key) == [] then s.grants
                   else s.grants[claim.key := Closed(History(s, claim.key),
                                                     End(rows[claim.key].body, s.clock, p.now + claim.ttl))])
    case Fail(r) => s.(phases := s.phases[r := Left])
    case Tick(elapsed) => s.(clock := s.clock + elapsed)
  }

  // --- The invariant ----------------------------------------------------------------------

  /** The row is what this grant left: still running, or exactly what its finish stored. */
  ghost predicate Leaves(g: Grant, row: Row) {
    && row.token == g.token && row.fingerprint == g.fingerprint
    && (row.Complete? ==> g.end.Some? && g.end.value.body == row.body && g.end.value.expires == row.expires)
  }

  /** Claims of one key in order: each was finished, and its answer had expired, before the
      next was granted; the row is what the last one left. */
  ghost predicate Chain(g: seq<Grant>, row: Row, clock: int, next: Token) {
    && g != [] && Leaves(g[|g| - 1], row) && (row.Running? <==> g[|g| - 1].end.None?)
    && (forall i | 0 <= i < |g| :: g[i].granted <= clock && g[i].token < next)
    && (forall i | 0 <= i < |g| && g[i].end.Some? :: g[i].granted <= g[i].end.value.finished <= clock)
    && (forall i, j | 0 <= i < j < |g| :: Over(g[i], g[j].granted))
  }

  ghost predicate Over(g: Grant, time: int) {
    g.end.Some? && g.end.value.finished <= time && g.end.value.expires <= time
  }

  ghost predicate Chains(s: State) {
    forall key {:trigger ChainAt(s, key)} | key in s.rows || key in s.grants :: ChainAt(s, key)
  }

  ghost predicate ChainAt(s: State, key: Key) {
    key in s.rows && Chain(History(s, key), s.rows[key], s.clock, s.next)
  }

  ghost predicate Snapshot(s: State, key: Key, row: Row) {
    exists i :: 0 <= i < |History(s, key)| && Leaves(History(s, key)[i], row)
  }

  predicate Executing(s: State, claim: Claim) {
    claim.key in s.rows && s.rows[claim.key].Running? && s.rows[claim.key].token == claim.token
  }

  ghost predicate PhaseOk(s: State, p: Phase) {
    match p
    case Looked(key, _, token, _, row) => token < s.next && Snapshot(s, key, row)
    case Reclaiming(_, _, token, _, _, now) => token < s.next && now <= s.clock
    case Owner(claim) => Executing(s, claim)
    case Finishing(claim, _, now) => Executing(s, claim) && now <= s.clock
    case _ => true
  }

  function TokenOf(p: Phase): Option<Token> {
    match p
    case Looked(_, _, token, _, _) => Some(token)
    case Reclaiming(_, _, token, _, _, _) => Some(token)
    case Owner(claim) => Some(claim.token)
    case Finishing(claim, _, _) => Some(claim.token)
    case _ => None
  }

  ghost predicate Inv(s: State) {
    && Chains(s)
    && (forall r :: PhaseOk(s, At(s, r)))
    && (forall r :: TokenOf(At(s, r)).Some? ==> TokenOf(At(s, r)).value < s.next)
    && (forall r, r' | r != r' && TokenOf(At(s, r)).Some? :: TokenOf(At(s, r)) != TokenOf(At(s, r')))
  }

  const START := State(map[], map[], 0, 0, map[])

  lemma ChainGrows(g: seq<Grant>, row: Row, clock: int, next: Token, token: Token, fp: Fingerprint)
    requires g == [] || (Chain(g, row, clock, next) && Expired(row, clock))
    requires token < next
    ensures Chain(g + [Grant(token, fp, clock, None)], Running(token, fp), clock, next)
  {
    var g' := g + [Grant(token, fp, clock, None)];
    forall i, j | 0 <= i < j < |g'| ensures Over(g'[i], g'[j].granted) {
      if j == |g| && i + 1 < |g| { assert Over(g[i], g[i + 1].granted); }
    }
  }

  lemma ChainCloses(g: seq<Grant>, row: Row, clock: int, next: Token, body: Body, expires: int)
    requires Chain(g, row, clock, next) && row.Running?
    ensures Chain(Closed(g, End(body, clock, expires)), Complete(row.token, row.fingerprint, body, expires), clock,
                  next)
  {
    var g' := Closed(g, End(body, clock, expires));
    forall i, j | 0 <= i < j < |g'| ensures Over(g'[i], g'[j].granted) {
      assert Over(g[i], g[j].granted);
    }
  }

  /** Granting and closing claims keep every earlier snapshot explained. */
  ghost predicate Keeps(g: seq<Grant>, g': seq<Grant>) {
    |g| <= |g'| && forall i, row | 0 <= i < |g| && Leaves(g[i], row) :: Leaves(g'[i], row)
  }

  lemma SnapshotStays(s: State, s': State, key: Key, row: Row)
    requires Snapshot(s, key, row) && Keeps(History(s, key), History(s', key))
    ensures Snapshot(s', key, row)
  {
    var i :| 0 <= i < |History(s, key)| && Leaves(History(s, key)[i], row);
    assert Leaves(History(s', key)[i], row);
  }

  lemma PhaseStays(s: State, s': State, p: Phase)
    requires PhaseOk(s, p) && s.next <= s'.next && s.clock <= s'.clock
    requires forall key :: Keeps(History(s, key), History(s', key))
    requires Owns(p) ==> p.claim.key in s'.rows && s'.rows[p.claim.key] == s.rows[p.claim.key]
    ensures PhaseOk(s', p)
  {
    if p.Looked? { SnapshotStays(s, s', p.key, p.row); }
  }

  /** Only request `r`, its row and its history changed. */
  ghost predicate Only(s: State, s': State, r: nat) {
    && s.next <= s'.next && s.clock <= s'.clock
    && (forall x: nat | x != r :: At(s', x) == At(s, x))
    && (forall key :: Keeps(History(s, key), History(s', key)))
    && forall x: nat | x != r && Owns(At(s, x)) ::
         At(s, x).claim.key in s.rows && At(s, x).claim.key in s'.rows
           && s'.rows[At(s, x).claim.key] == s.rows[At(s, x).claim.key]
  }

  ghost predicate Elsewhere(s: State, r: nat, key: Key) {
    forall x: nat | x != r && Owns(At(s, x)) :: At(s, x).claim.key in s.rows && At(s, x).claim.key != key
  }

  lemma OnlyOneKey(s: State, s': State, r: nat, key: Key)
    requires s.next <= s'.next && s.clock <= s'.clock && Elsewhere(s, r, key)
    requires s.phases - {r} == s'.phases - {r} && s.rows - {key} == s'.rows - {key}
    requires forall key :: Keeps(History(s, key), History(s', key))
    ensures Only(s, s', r)
  {
    forall x: nat | x != r ensures At(s', x) == At(s, x) {
      assert x in s.phases <==> x in s.phases - {r};
      assert x in s'.phases <==> x in s'.phases - {r};
      if x in s.phases { assert (s.phases - {r})[x] == (s'.phases - {r})[x]; }
    }
    forall x: nat | x != r && Owns(At(s, x))
      ensures At(s, x).claim.key in s'.rows && s'.rows[At(s, x).claim.key] == s.rows[At(s, x).claim.key]
    {
      var k := At(s, x).claim.key;
      assert k in s.rows - {key} && k in s'.rows - {key};
      assert (s.rows - {key})[k] == (s'.rows - {key})[k];
    }
  }

  /** A step of one request: the others' phases hold on, and no token is shared. */
  lemma OneRequestSteps(s: State, s': State, r: nat)
    requires Inv(s) && Only(s, s', r) && Chains(s') && PhaseOk(s', At(s', r))
    requires TokenOf(At(s', r)).None? || TokenOf(At(s', r)) == TokenOf(At(s, r)) ||
             (s.next < s'.next && TokenOf(At(s', r)) == Some(s.next))
    ensures Inv(s')
  {
    forall x: nat ensures PhaseOk(s', At(s', x)) {
      assert PhaseOk(s, At(s, x));
      if x != r { PhaseStays(s, s', At(s, x)); }
    }
  }

  lemma ChainStaysAt(s: State, s': State, k: Key)
    requires ChainAt(s, k) && s'.clock == s.clock && s'.next == s.next
    requires k in s'.rows && s'.rows[k] == s.rows[k] && History(s', k) == History(s, k)
    ensures ChainAt(s', k)
  {
  }

  /** Changing one key leaves the other chains alone. */
  lemma OneKeyChanges(s: State, s': State, key: Key)
    requires Chains(s) && s'.clock == s.clock && s'.next == s.next
    requires key in s'.rows && s'.rows == s.rows[key := s'.rows[key]]
    requires key in s'.grants && s'.grants == s.grants[key := s'.grants[key]]
    requires Chain(s'.grants[key], s'.rows[key], s.clock, s.next)
    requires Keeps(History(s, key), s'.grants[key])
    ensures Chains(s') && forall k :: Keeps(History(s, k), History(s', k))
  {
    forall k | k in s'.rows || k in s'.grants ensures ChainAt(s', k) {
      if k != key {
        assert ChainAt(s, k);
        ChainStaysAt(s, s', k);
      }
    }
  }

  lemma TimePasses(s: State, s': State)
    requires Chains(s) && s'.rows == s.rows && s'.grants == s.grants && s.clock <= s'.clock && s.next <= s'.next
    ensures Chains(s') && forall k :: Keeps(History(s, k), History(s', k))
  {
    forall k | k in s'.rows || k in s'.grants ensures ChainAt(s', k) {
      assert ChainAt(s, k);
    }
  }

  lemma OwnersHoldTheirRows(s: State, r: nat)
    requires Inv(s) && Owns(At(s, r))
    ensures var claim := At(s, r).claim;
      claim.key in s.rows && s.rows[claim.key] == Running(claim.token, s.rows[claim.key].fingerprint)
  {
    assert PhaseOk(s, At(s, r));
  }

  lemma GrantKeepsInv(s: State, r: nat, key: Key, token: Token, fp: Fingerprint, ttl: nat)
    requires Inv(s) && token < s.next
    requires key in s.rows ==> Expired(s.rows[key], s.clock)
    requires TokenOf(At(s, r)) == Some(token)
    ensures Inv(Granted(s, r, key, token, fp, ttl))
  {
    GrantKeepsChains(s, r, key, token, fp, ttl);
    OwnersAreElsewhere(s, r, key);
    var s' := Granted(s, r, key, token, fp, ttl);
    OnlyOneKey(s, s', r, key);
    OneRequestSteps(s, s', r);
  }

  lemma GrantKeepsChains(s: State, r: nat, key: Key, token: Token, fp: Fingerprint, ttl: nat)
    requires Chains(s) && token < s.next
    requires key in s.rows ==> Expired(s.rows[key], s.clock)
    ensures var s' := Granted(s, r, key, token, fp, ttl); Chains(s') && forall k :: Keeps(History(s, k), History(s', k))
  {
    var g := History(s, key);
    assert g != [] ==> ChainAt(s, key);
    ChainGrows(g, if key in s.rows then s.rows[key] else Running(token, fp), s.clock, s.next, token, fp);
    OneKeyChanges(s, Granted(s, r, key, token, fp, ttl), key);
  }

  /** A key whose row is not running, or is one's own, has no other owner. */
  lemma OwnersAreElsewhere(s: State, r: nat, key: Key)
    requires Inv(s)
    requires key in s.rows && s.rows[key].Running? ==> Owns(At(s, r)) && At(s, r).claim.key == key
    ensures Elsewhere(s, r, key)
  {
    forall x: nat | x != r && Owns(At(s, x))
      ensures At(s, x).claim.key in s.rows && At(s, x).claim.key != key
    {
      OwnersHoldTheirRows(s, x);
      assert TokenOf(At(s, x)) == Some(At(s, x).claim.token) && TokenOf(At(s, x)) != TokenOf(At(s, r));
      if Owns(At(s, r)) { OwnersHoldTheirRows(s, r); }
    }
  }

  lemma PhaseOnly(s: State, r: nat, p: Phase)
    requires Inv(s) && PhaseOk(s, p)
    requires TokenOf(p).None? || TokenOf(p) == TokenOf(At(s, r))
    ensures Inv(s.(phases := s.phases[r := p]))
  {
    var s' := s.(phases := s.phases[r := p]);
    TimePasses(s, s');
    PhaseStays(s, s', p);
    assert Only(s, s', r) by {
      forall x: nat | x != r && Owns(At(s, x)) ensures At(s, x).claim.key in s.rows { OwnersHoldTheirRows(s, x); }
    }
    OneRequestSteps(s, s', r);
  }

  /** Drawing a token: the request holds it while it looks the key up. */
  lemma DrawKeepsInv(s: State, r: nat, key: Key, fp: Fingerprint, ttl: nat)
    requires Inv(s) && At(s, r).Idle?
    ensures key in s.rows ==> Inv(Next(s, GetOrCreate(r, key, fp, ttl)))
    ensures key !in s.rows ==> Inv(Next(s, GetOrCreate(r, key, fp, ttl)))
  {
    var held := Drawn(s, r, key, fp, ttl);
    DrawnKeepsInv(s, r, key, fp, ttl);
    var s' := Next(s, GetOrCreate(r, key, fp, ttl));
    if key in s.rows {
      var p := Looked(key, fp, s.next, ttl, s.rows[key]);
      LastIsSnapshot(held, key);
      PhaseOnly(held, r, p);
      assert s' == held.(phases := held.phases[r := p]);
    } else {
      GrantKeepsInv(held, r, key, s.next, fp, ttl);
      assert s' == Granted(held, r, key, s.next, fp, ttl);
    }
  }

  /** A request that holds its fresh token and has not touched the store yet. */
  ghost function Drawn(s: State, r: nat, key: Key, fp: Fingerprint, ttl: nat): State {
    s.(next := s.next + 1, phases := s.phases[r := Reclaiming(key, fp, s.next, ttl, 0, s.clock)])
  }

  lemma DrawnKeepsInv(s: State, r: nat, key: Key, fp: Fingerprint, ttl: nat)
    requires Inv(s) && At(s, r).Idle?
    ensures Inv(Drawn(s, r, key, fp, ttl))
  {
    var held := Drawn(s, r, key, fp, ttl);
    TimePasses(s, held);
    assert Only(s, held, r) by {
      forall x: nat | x != r && Owns(At(s, x)) ensures At(s, x).claim.key in s.rows { OwnersHoldTheirRows(s, x); }
    }
    OneRequestSteps(s, held, r);
  }

  lemma LastIsSnapshot(s: State, key: Key)
    requires Chains(s) && key in s.rows
    ensures Snapshot(s, key, s.rows[key])
  {
    var g := History(s, key);
    assert ChainAt(s, key);
    assert Leaves(g[|g| - 1], s.rows[key]);
  }

  lemma FinishKeepsInv(s: State, r: nat)
    requires Inv(s) && At(s, r).Finishing?
    ensures Inv(Next(s, Finish(r)))
  {
    OwnersAreElsewhere(s, r, At(s, r).claim.key);
    StoredKeepsChains(s, r);
    OnlyOneKey(s, Next(s, Finish(r)), r, At(s, r).claim.key);
    OneRequestSteps(s, Next(s, Finish(r)), r);
  }

  lemma StoredKeepsChains(s: State, r: nat)
    requires Inv(s) && At(s, r).Finishing?
    ensures var s' := Next(s, Finish(r)); Chains(s') && forall k :: Keeps(History(s, k), History(s', k))
  {
    var p := At(s, r);
    OwnersHoldTheirRows(s, r);
    assert ChainAt(s, p.claim.key);
    ChainCloses(History(s, p.claim.key), s.rows[p.claim.key], s.clock, s.next, Stored(p.body), p.now + p.claim.ttl);
    OneKeyChanges(s, Next(s, Finish(r)), p.claim.key);
  }

  lemma TickKeepsInv(s: State, elapsed: nat)
    requires Inv(s)
    ensures Inv(Next(s, Tick(elapsed)))
  {
    var s' := Next(s, Tick(elapsed));
    TimePasses(s, s');
    forall x: nat ensures At(s', x) == At(s, x) && PhaseOk(s', At(s', x)) {
      assert PhaseOk(s, At(s, x));
      if Owns(At(s, x)) { OwnersHoldTheirRows(s, x); }
      PhaseStays(s, s', At(s, x));
    }
  }

  lemma StepKeepsInv(s: State, step: Step)
    requires Inv(s) && Enabled(s, step)
    ensures Inv(Next(s, step))
  {
    match step
    case GetOrCreate(r, key, fp, ttl) => DrawKeepsInv(s, r, key, fp, ttl);
    case Decide(r) =>
      assert PhaseOk(s, At(s, r));
      PhaseOnly(s, r, Decision(At(s, r), s.clock));
    case Reclaim(r) =>
      var p := At(s, r);
      assert PhaseOk(s, p);
      if CanReclaim(s.rows, p.key, p.seen, p.now) {
        GrantKeepsInv(s, r, p.key, p.token, p.fp, p.ttl);
      } else {
        PhaseOnly(s, r, Refused(409));
      }
    case Respond(r, response) =>
      assert PhaseOk(s, At(s, r));
      PhaseOnly(s, r, if response.Plain? then Finishing(At(s, r).claim, response.body, s.clock) else Left);
    case Finish(r) => FinishKeepsInv(s, r);
    case Fail(r) => PhaseOnly(s, r, Left);
    case Tick(elapsed) => TickKeepsInv(s, elapsed);
  }

  // --- Whole runs -------------------------------------------------------------------------

  ghost predicate CanRun(s: State, steps: seq<Step>)
    decreases |steps|
  {
    steps == [] || (Enabled(s, steps[0]) && CanRun(Next(s, steps[0]), steps[1..]))
  }

  ghost function After(s: State, steps: seq<Step>): State
    requires CanRun(s, steps)
    decreases |steps|
  {
    if steps == [] then s else After(Next(s, steps[0]), steps[1..])
  }

  lemma {:induction false} RunKeepsInv(s: State, steps: seq<Step>)
    requires Inv(s) && CanRun(s, steps)
    ensures Inv(After(s, steps))
    decreases |steps|
  {
    if steps != [] {
      StepKeepsInv(s, steps[0]);
      RunKeepsInv(Next(s, steps[0]), steps[1..]);
    }
  }

  /** In every interleaving, of two claims granted for a key the earlier one was finished and
      its answer had expired before the later one was granted, and at most one is open. */
  lemma ClaimsNeverOverlap(steps: seq<Step>, key: Key, i: nat, j: nat)
    requires CanRun(START, steps)
    requires i < j < |History(After(START, steps), key)|
    ensures var g := History(After(START, steps), key);
      && g[i].end.Some?
      && g[i].granted <= g[i].end.value.finished <= g[j].granted
      && g[i].end.value.expires <= g[j].granted
  {
    RunKeepsInv(START, steps);
    var s := After(START, steps);
    assert ChainAt(s, key);
    assert Over(History(s, key)[i], History(s, key)[j].granted);
  }

  /** Two requests never execute under the same key at the same time. */
  lemma OneOwner(s: State, r: nat, r': nat)
    requires Inv(s) && Owns(At(s, r)) && Owns(At(s, r')) && At(s, r).claim.key == At(s, r').claim.key
    ensures r == r'
  {
    OwnersAreElsewhere(s, r, At(s, r).claim.key);
  }

  /** A running row is left only by the finish of the request that holds its own token. */
  lemma RunningRowIsLeftByItsOwner(s: State, step: Step, key: Key)
    requires Inv(s) && Enabled(s, step) && key in s.rows && s.rows[key].Running?
    requires key !in Next(s, step).rows || Next(s, step).rows[key] != s.rows[key]
    ensures step.Finish?
    ensures At(s, step.r).claim.key == key && At(s, step.r).claim.token == s.rows[key].token
  {
  }

  /** What a replay read: the current, unexpired row, as the latest claim's finish stored it for
      the same fingerprint. */
  ghost predicate Current(s: State, p: Phase)
    requires p.Looked?
  {
    && p.key in s.rows && s.rows[p.key] == p.row && p.row.Complete?
    && p.row.fingerprint == p.fp && s.clock < p.row.expires
    && LastLeft(s, p.key, p.row)
  }

  /** The row is what the latest claim of the key left. */
  ghost predicate LastLeft(s: State, key: Key, row: Row) {
    History(s, key) != [] && Leaves(History(s, key)[|History(s, key)| - 1], row)
  }

  /** A replay shows what the latest finished claim of the same key and fingerprint stored; the
      row it was read from is still the current one and has not expired. */
  lemma ReplayIsCurrent(s: State, r: nat)
    requires Inv(s) && At(s, r).Looked? && Decision(At(s, r), s.clock).Replayed?
    ensures Current(s, At(s, r))
  {
    LookedIsOk(s, r);
    ReplayedIsCurrent(s, At(s, r));
  }

  lemma ReplayedIsCurrent(s: State, p: Phase)
    requires p.Looked? && Decision(p, s.clock).Replayed? && Chains(s) && Snapshot(s, p.key, p.row)
    ensures Current(s, p)
  {
    DecisionReplays(p, s.clock);
    SnapshotIsCurrent(s, p.key, p.row);
  }

  lemma LookedIsOk(s: State, r: nat)
    requires Inv(s) && At(s, r).Looked?
    ensures Chains(s) && Snapshot(s, At(s, r).key, At(s, r).row)
  {
    assert PhaseOk(s, At(s, r));
  }

  lemma DecisionReplays(p: Phase, now: int)
    requires p.Looked?
    ensures Decision(p, now).Replayed? <==> !Expired(p.row, now) && p.row.fingerprint == p.fp && p.row.Complete?
  {
  }

  /** A snapshot that is complete and has not expired is still the row. */
  lemma SnapshotIsCurrent(s: State, key: Key, row: Row)
    requires Chains(s) && Snapshot(s, key, row) && row.Complete? && !Expired(row, s.clock)
    ensures key in s.rows && s.rows[key] == row
    ensures LastLeft(s, key, row)
  {
    var g := History(s, key);
    var i :| 0 <= i < |g| && Leaves(g[i], row);
    assert ChainAt(s, key);
    assert i < |g| - 1 ==> Over(g[i], g[|g| - 1].granted);
  }

  // --- What each request gets -----------------------------------------------------------------

  /** Entering claims a key nobody has and otherwise looks its row up; no other key is touched. */
  lemma EnteringDecides(s: State, r: nat, key: Key, fp: Fingerprint, ttl: nat)
    requires At(s, r).Idle?
    ensures var s' := Next(s, GetOrCreate(r, key, fp, ttl));
      if key in s.rows then s'.rows == s.rows && At(s', r) == Looked(key, fp, s.next, ttl, s.rows[key])
      else s'.rows == s.rows[key := Running(s.next, fp)] && At(s', r) == Owner(Claim(key, s.next, ttl))
  {
  }

  /** An expired answer is contended for; until then another request for the key is a misuse, a request
      for what is still running waits, and only a request for the same is replayed the answer. */
  lemma LookingDecides(s: State, r: nat)
    requires At(s, r).Looked?
    ensures var p, next := At(s, r), At(Next(s, Decide(r)), r);
      if p.row.Complete? && p.row.expires <= s.clock then
        next == Reclaiming(p.key, p.fp, p.token, p.ttl, p.row.token, s.clock)
      else if p.row.fingerprint != p.fp then next == Refused(422)
      else if p.row.Running? then next == Refused(409)
      else next == Replayed(Replay(p.row.body))
    ensures Next(s, Decide(r)).rows == s.rows
  {
  }

  /** Whoever finds the expired answer it saw takes the key over; everyone else is refused. */
  lemma ReclaimingDecides(s: State, r: nat)
    requires At(s, r).Reclaiming?
    ensures var p, s' := At(s, r), Next(s, Reclaim(r));
      if p.key in s.rows && s.rows[p.key].Complete? && s.rows[p.key].token == p.seen && s.rows[p.key].expires <= p.now
      then s'.rows == s.rows[p.key := Running(p.token, p.fp)] && At(s', r) == Owner(Claim(p.key, p.token, p.ttl))
      else s'.rows == s.rows && At(s', r) == Refused(409)
  {
  }

  /** What an owner responds is what it stores, and a streaming response or an exception stores nothing. */
  lemma RespondingDecides(s: State, r: nat, response: Response)
    requires At(s, r).Owner?
    ensures var s' := Next(s, Respond(r, response));
      && s'.rows == s.rows
      && At(s', r) == if response.Plain? then Finishing(At(s, r).claim, response.body, s.clock) else Left
    ensures Next(s, Fail(r)).rows == s.rows && At(Next(s, Fail(r)), r) == Left
  {
  }

  /** From the update on, and until `ttl` after its clock was read, a request for the same is replayed the
      owner's response, and a request for something else is told of its misuse; after that, the key is free
      to be taken over. */
  lemma FinishedIsReplayedUntilItExpires(s: State, r: nat, later: Phase, now: int)
    requires Inv(s) && At(s, r).Finishing? && later.Looked? && later.key == At(s, r).claim.key
    requires var s' := Next(s, Finish(r)); later.key in s'.rows && later.row == s'.rows[later.key]
    ensures var p := At(s, r); var until := p.now + p.claim.ttl;
      && later.key in s.rows
      && (now < until && later.fp == s.rows[later.key].fingerprint ==>
            Decision(later, now) == Replayed(Replay(Stored(p.body))))
      && (now < until && later.fp != s.rows[later.key].fingerprint ==> Decision(later, now) == Refused(422))
      && (until <= now ==> Decision(later, now).Reclaiming? && Decision(later, now).seen == p.claim.token)
    ensures At(Next(s, Finish(r)), r) == Left
    ensures forall key | key in s.rows && key != later.key ::
      key in Next(s, Finish(r)).rows && Next(s, Finish(r)).rows[key] == s.rows[key]
  {
    OwnersHoldTheirRows(s, r);
  }

  // --- The objects ------------------------------------------------------------------------

  /** The table, as the three statements of the store change it. */
  class Records {
    var rows: Rows

    constructor ()
      ensures rows == map[]
    {
      rows := map[];
    }

    method GetOrCreate(key: Key, token: Token, fp: Fingerprint) returns (row: Row, created: bool)
      modifies this
      ensures rows == Created(old(rows), key, token, fp)
      ensures rows == if key in old(rows) then old(rows) else old(rows)[key := Running(token, fp)]
      ensures key in rows && row == rows[key] && (created <==> key !in old(rows))
    {
      created := key !in rows;
      if created {
        rows := rows[key := Running(token, fp)];
      }
      row := rows[key];
    }

    method Reclaim(key: Key, seen: Token, now: int, token: Token, fp: Fingerprint) returns (claimed: bool)
      modifies this
      ensures rows == Reclaimed(old(rows), key, seen, now, token, fp)
      ensures rows == if claimed then old(rows)[key := Running(token, fp)] else old(rows)
      ensures claimed <==>
        && key in old(rows) && old(rows)[key].token == seen
        && old(rows)[key].Complete? && old(rows)[key].expires <= now
      ensures claimed <==> CanReclaim(old(rows), key, seen, now)
    {
      claimed := key in rows && rows[key].token == seen && rows[key].Complete? && rows[key].expires <= now;
      if claimed {
        rows := rows[key := Running(token, fp)];
      }
    }

    /** Claim.finish. */
    method Finish(claim: Claim, response: Response, now: int)
      modifies this
      ensures rows == Finished(old(rows), claim, response, now)
      ensures
        if response.Plain? && claim.key in old(rows) && old(rows)[claim.key].Running?
           && old(rows)[claim.key].token == claim.token
        then rows == old(rows)[claim.key := Complete(claim.token, old(rows)[claim.key].fingerprint,
                                                     Stored(response.body), now + claim.ttl)]
        else rows == old(rows)
    {
      if response.Streaming? {
        return;
      }
      if claim.key in rows && rows[claim.key].token == claim.token && rows[claim.key].Running? {
        rows := rows[claim.key := Complete(claim.token, rows[claim.key].fingerprint, Stored(response.body),
                                           now + claim.ttl)];
      }
    }
  }

  /** `Contend`: the answer found has expired, so its row is to be taken over. */
  datatype Answer = Proceed | Refuse(status: nat) | Answer(body: Body) | Misconfigured | Contend(seen: Token)

  /** What a request carries: its header, the parts of its digests, and whether the alias is
      already inside a transaction. */
  datatype Request = Request(header: string, parts: seq<string>, fpParts: seq<string>, body: seq<int>, atomic: bool) {
    function Key(): Idempotency.Key { Idempotency.Key.Key(parts + [header]) }
    function Fingerprint(): Idempotency.Fingerprint { Idempotency.Fingerprint.Fingerprint(fpParts, body) }
  }

  /** Requests share a row exactly when they have the same header and the same identity, method and path, and
      count as the same request exactly when their query, negotiation headers and body are the same as well. */
  lemma KeysAreEqualExactly(a: Request, b: Request)
    ensures a.Key() == b.Key() <==> a.header == b.header && a.parts == b.parts
    ensures a.Fingerprint() == b.Fingerprint() <==> a.fpParts == b.fpParts && a.body == b.body
  {
    assert a.Key().parts == a.parts + [a.header] && b.Key().parts == b.parts + [b.header];
    assert (a.parts + [a.header])[..|a.parts|] == a.parts && (b.parts + [b.header])[..|b.parts|] == b.parts;
  }

  /** No row that `other` looks at has changed. */
  ghost predicate Spared(rows: Rows, rows': Rows, other: Request) {
    (other.Key() in rows <==> other.Key() in rows') && (other.Key() in rows ==> rows'[other.Key()] == rows[other.Key()])
  }

  lemma OthersAreSpared(rows: Rows, request: Request, row: Row)
    ensures forall other: Request | other.header != request.header || other.parts != request.parts ::
      Spared(rows, rows[request.Key() := row], other)
  {
    forall other: Request | other.header != request.header || other.parts != request.parts
      ensures Spared(rows, rows[request.Key() := row], other)
    {
      KeysAreEqualExactly(request, other);
    }
  }

  /** One request's side: `before` keeps the claim, `finish` hands it over once. */
  class Policy {
    const required: bool
    const ttl: int
    var claim: Option<Claim>

    constructor (required: bool, ttl: int)
      ensures this.required == required && this.ttl == ttl && claim == None
    {
      this.required, this.ttl, claim := required, ttl, None;
    }

    /** Policy.before and acquire, up to the statement that takes an expired row over: other
        requests may come in between. */
    method Before(records: Records, request: Request, token: Token, now: int) returns (answer: Answer)
      modifies this, records
      ensures request.header == "" ==> answer == (if required then Refuse(400) else Proceed)
      ensures |request.header| > 255 ==> answer == Refuse(400)
      ensures request.header != "" && |request.header| <= 255 && (ttl <= 0 || request.atomic) ==>
        answer == Misconfigured
      ensures request.header == "" || |request.header| > 255 || ttl <= 0 || request.atomic ==>
        records.rows == old(records.rows) && claim == old(claim)
      ensures request.header != "" && |request.header| <= 255 && ttl > 0 && !request.atomic ==>
        var key, fp := request.Key(), request.Fingerprint();
        if key !in old(records.rows) then
          && answer == Proceed && claim == Some(Claim(key, token, ttl))
          && records.rows == old(records.rows)[key := Running(token, fp)]
        else
          var row := old(records.rows)[key];
          && claim == old(claim) && records.rows == old(records.rows)
          && answer == if row.Complete? && row.expires <= now then Contend(row.token)
                       else if row.fingerprint != fp then Refuse(422)
                       else if row.Running? then Refuse(409)
                       else Answer(Replay(row.body))
      ensures forall other: Request | other.header != request.header || other.parts != request.parts ::
        Spared(old(records.rows), records.rows, other)
    {
      if request.header == "" {
        return if required then Refuse(400) else Proceed;
      }
      if |request.header| > 255 {
        return Refuse(400);
      }
      if ttl <= 0 || request.atomic {
        return Misconfigured;
      }
      var key, fp := request.Key(), request.Fingerprint();
      OthersAreSpared(records.rows, request, Running(token, fp));
      var row, created := records.GetOrCreate(key, token, fp);
      if created {
        claim := Some(Claim(key, token, ttl));
        return Proceed;
      }
      if row.Complete? && row.expires <= now {
        return Contend(row.token);
      }
      if row.fingerprint != fp {
        return Refuse(422);
      }
      if row.Running? {
        return Refuse(409);
      }
      return Answer(Replay(row.body));
    }

    /** The rest of acquire: exactly one of the requests that found the same expired answer
        takes it over, and no loser replays it. */
    method TakeOver(records: Records, request: Request, seen: Token, token: Token, now: int) returns (answer: Answer)
      requires ttl > 0
      modifies this, records
      ensures var key, rows := request.Key(), old(records.rows);
        if key in rows && rows[key].Complete? && rows[key].token == seen && rows[key].expires <= now then
          && answer == Proceed && claim == Some(Claim(key, token, ttl))
          && records.rows == rows[key := Running(token, request.Fingerprint())]
        else answer == Refuse(409) && claim == old(claim) && records.rows == rows
      ensures forall other: Request | other.header != request.header || other.parts != request.parts ::
        Spared(old(records.rows), records.rows, other)
    {
      OthersAreSpared(records.rows, request, Running(token, request.Fingerprint()));
      var claimed := records.Reclaim(request.Key(), seen, now, token, request.Fingerprint());
      if claimed {
        claim := Some(Claim(request.Key(), token, ttl));
        return Proceed;
      }
      return Refuse(409);
    }

    /** The claim is handed over exactly once: a second finish finds nothing to do. */
    method Finish(records: Records, response: Response, now: int)
      modifies this, records
      ensures claim == None
      ensures old(claim).None? ==> records.rows == old(records.rows)
      ensures old(claim).Some? ==> records.rows == Finished(old(records.rows), old(claim).value, response, now)
    {
      if claim.Some? {
        var held := claim.value;
        claim := None;
        records.Finish(held, response, now);
      }
    }
  }
}
