/** Shared single-flight builds: any number of tasks, every interleaving of the sections the
    container runs under its lock. */
module AsyncBuilds {
  import opened DependencyGraph
  import opened WaitGraph

  /** A cached key of one scope; scope 0 is the container's root. */
  datatype Slot = Slot(scope: nat, key: Key)

  datatype Outcome = Running | Returned(value: nat) | Raised(error: nat)

  /** A PendingBuild: the slot it fills, the task that builds it and what became of it. */
  datatype Build = Build(slot: Slot, builder: Task, outcome: Outcome)

  /** `building` are the activations of `_cached_async` a task is inside of, innermost last. */
  datatype Local = Local(building: seq<nat>, awaiting: Option<nat>)

  /** What filled a slot: an async build, or a sync build or a registered object. */
  datatype Filling = Filling(build: Option<nat>, value: nat)

  /** `fillings` is history: what was put in a slot since its key was last registered or its
      scope last cleared. */
  datatype State = State(
    instances: map<Slot, nat>,
    pending: map<Slot, nat>,
    builds: seq<Build>,
    waiting: map<Task, Task>,
    tasks: map<Task, Local>,
    fillings: map<Slot, seq<Filling>>)

  const START := State(map[], map[], [], map[], map[], map[])

  datatype Step =
    | Ask(t: Task, slot: Slot)             // enter _cached_async
    | StoreValue(t: Task, value: nat)      // the innermost build returned
    | StoreError(t: Task, error: nat)      // it raised, or its task was cancelled
    | PopPending(t: Task)                  // its finally clause
    | Resume(t: Task)                      // a joined build is done
    | CancelWait(t: Task)                  // a joiner is cancelled
    | SyncBuild(slot: Slot, value: nat)    // a sync resolution, under the lock
    | Register(key: Key)
    | SetInstance(key: Key, value: nat)    // instance(), and entering or leaving an override
    | CloseScope(scope: nat)

  function At(s: State, t: Task): Local {
    if t in s.tasks then s.tasks[t] else Local([], None)
  }

  function History(s: State, slot: Slot): seq<Filling> {
    if slot in s.fillings then s.fillings[slot] else []
  }

  predicate Inside(s: State, t: Task, b: nat) {
    b in At(s, t).building
  }

  /** The innermost build of a task that is not waiting. */
  function Innermost(s: State, t: Task): Option<nat> {
    var l := At(s, t);
    if l.awaiting.None? && l.building != [] then Some(l.building[|l.building| - 1]) else None
  }

  predicate IsRunning(s: State, b: nat) {
    b < |s.builds| && s.builds[b].outcome.Running?
  }

  predicate IsDone(s: State, b: nat) {
    b < |s.builds| && !s.builds[b].outcome.Running?
  }

  predicate BeingBuilt(s: State, slot: Slot) {
    slot in s.pending && IsRunning(s, s.pending[slot])
  }

  ghost predicate Enabled(s: State, step: Step) {
    match step
    case Ask(t, slot) =>
      && At(s, t).awaiting.None? && (slot in s.pending ==> s.pending[slot] < |s.builds|)
      && (Innermost(s, t).Some? ==> IsRunning(s, Innermost(s, t).value))
    case StoreValue(t, _) => Innermost(s, t).Some? && IsRunning(s, Innermost(s, t).value)
    case StoreError(t, _) => Innermost(s, t).Some? && IsRunning(s, Innermost(s, t).value)
    case PopPending(t) => Innermost(s, t).Some? && IsDone(s, Innermost(s, t).value)
    case Resume(t) => At(s, t).awaiting.Some? && IsDone(s, At(s, t).awaiting.value)
    case CancelWait(t) => At(s, t).awaiting.Some?
    case SyncBuild(slot, _) => slot !in s.instances && slot !in s.pending
    case Register(_) => true
    case SetInstance(_, _) => true
    case CloseScope(scope) => scope != 0
  }

  /** A join that `track_waiter` answers with a circular dependency. */
  ghost predicate Refused(s: State, t: Task, slot: Slot) {
    && slot !in s.instances && slot in s.pending && s.pending[slot] < |s.builds|
    && Reaches(s.waiting, s.builds[s.pending[slot]].builder, t)
  }

  function Begin(s: State, t: Task, slot: Slot): State {
    var l := At(s, t);
    s.(pending := s.pending[slot := |s.builds|],
       builds := s.builds + [Build(slot, t, Running)],
       tasks := s.tasks[t := l.(building := l.building + [|s.builds|])])
  }

  function Join(s: State, t: Task, slot: Slot): State
    requires slot in s.pending && s.pending[slot] < |s.builds|
  {
    var b := s.pending[slot];
    s.(waiting := s.waiting[t := s.builds[b].builder], tasks := s.tasks[t := At(s, t).(awaiting := Some(b))])
  }

  function Settle(s: State, b: nat, outcome: Outcome): State
    requires b < |s.builds|
  {
    s.(builds := s.builds[b := s.builds[b].(outcome := outcome)])
  }

  function Pop(s: State, t: Task): State
    requires Innermost(s, t).Some? && Innermost(s, t).value < |s.builds|
  {
    var l := At(s, t);
    s.(pending := s.pending - {s.builds[Innermost(s, t).value].slot},
       tasks := s.tasks[t := l.(building := l.building[..|l.building| - 1])])
  }

  function Woken(s: State, t: Task): State {
    s.(waiting := s.waiting - {t}, tasks := s.tasks[t := At(s, t).(awaiting := None)])
  }

  function Put(s: State, slot: Slot, filling: Filling): State {
    s.(instances := s.instances[slot := filling.value], fillings := s.fillings[slot := History(s, slot) + [filling]])
  }

  function Forget(s: State, slots: set<Slot>): State {
    s.(instances := s.instances - slots, fillings := s.fillings - slots)
  }

  function SlotsOf(s: State, scope: nat): set<Slot> {
    set slot | slot in s.instances.Keys + s.fillings.Keys && slot.scope == scope
  }

  ghost function Next(s: State, step: Step): State
    requires Enabled(s, step)
  {
    match step
    case Ask(t, slot) =>
      if slot in s.instances || Refused(s, t, slot) then s
      else if slot in s.pending then Join(s, t, slot)
      else Begin(s, t, slot)
    case StoreValue(t, value) =>
      var b := Innermost(s, t).value;
      Put(Settle(s, b, Returned(value)), s.builds[b].slot, Filling(Some(b), value))
    case StoreError(t, error) => Settle(s, Innermost(s, t).value, Raised(error))
    case PopPending(t) => Pop(s, t)
    case Resume(t) => Woken(s, t)
    case CancelWait(t) => Woken(s, t)
    case SyncBuild(slot, value) => Put(s, slot, Filling(None, value))
    case Register(key) => Forget(s, {Slot(0, key)})
    case SetInstance(key, value) => Put(Forget(s, {Slot(0, key)}), Slot(0, key), Filling(None, value))
    case CloseScope(scope) => Forget(s, SlotsOf(s, scope))
  }

  // --- The invariant ----------------------------------------------------------------------

  /** A task is inside exactly the builds that are pending under its name, each once. */
  ghost predicate OwnBuilds(s: State) {
    BuildsArePending(s) && BuildsDiffer(s) && PendingIsOwned(s)
  }

  ghost predicate BuildsArePending(s: State) {
    forall t: Task, b: nat | Inside(s, t, b) ::
      b < |s.builds| && s.builds[b].builder == t && s.builds[b].slot in s.pending && s.pending[s.builds[b].slot] == b
  }

  ghost predicate BuildsDiffer(s: State) {
    forall t: Task :: Distinct(At(s, t).building)
  }

  ghost predicate Distinct(bs: seq<nat>) {
    forall i, j | 0 <= i < j < |bs| :: bs[i] != bs[j]
  }

  ghost predicate PendingIsOwned(s: State) {
    forall slot | slot in s.pending ::
      && s.pending[slot] < |s.builds| && s.builds[s.pending[slot]].slot == slot
      && Inside(s, s.builds[s.pending[slot]].builder, s.pending[slot])
  }

  ghost predicate RunningIsPending(s: State) {
    forall b: nat | IsRunning(s, b) :: s.builds[b].slot in s.pending && s.pending[s.builds[b].slot] == b
  }

  ghost predicate WaitsAreRecorded(s: State) {
    && (forall t | t in s.waiting :: At(s, t).awaiting.Some?)
    && forall t | At(s, t).awaiting.Some? ::
         && t in s.waiting && At(s, t).awaiting.value < |s.builds|
         && s.waiting[t] == s.builds[At(s, t).awaiting.value].builder
  }

  /** Since its key was last registered a slot was filled at most once, it still holds that
      value, and the build that filled it returned that value. */
  ghost predicate FilledOnce(s: State) {
    && (forall slot | slot in s.instances ::
          |History(s, slot)| == 1 && History(s, slot)[0].value == s.instances[slot])
    && (forall slot | slot !in s.instances :: History(s, slot) == [])
    && (forall slot | slot in s.instances && History(s, slot)[0].build.Some? ::
          && History(s, slot)[0].build.value < |s.builds|
          && s.builds[History(s, slot)[0].build.value].outcome == Returned(s.instances[slot]))
    && forall slot | BeingBuilt(s, slot) :: slot !in s.instances
  }

  ghost predicate Inv(s: State) {
    && OwnBuilds(s) && RunningIsPending(s) && WaitsAreRecorded(s) && Acyclic(s.waiting) && FilledOnce(s)
  }

  /** Nobody puts an object in place of a key that is being built. */
  predicate Undisturbed(s: State, step: Step) {
    step.SetInstance? ==> !BeingBuilt(s, Slot(0, step.key))
  }

  lemma JoinKeepsInv(s: State, t: Task, slot: Slot)
    requires Inv(s) && At(s, t).awaiting.None? && slot in s.pending
    requires !Reaches(s.waiting, s.builds[s.pending[slot]].builder, t)
    ensures Inv(Join(s, t, slot))
  {
    EdgeKeepsAcyclic(s.waiting, t, s.builds[s.pending[slot]].builder);
    SameBuilds(s, Join(s, t, slot));
  }

  lemma WokenKeepsInv(s: State, t: Task)
    requires Inv(s)
    ensures Inv(Woken(s, t))
  {
    SameBuilds(s, Woken(s, t));
    RemovalKeepsAcyclic(s.waiting, t);
  }

  /** Changing only what tasks wait for leaves the builds in flight as they were. */
  lemma SameBuilds(s: State, s': State)
    requires OwnBuilds(s) && RunningIsPending(s)
    requires s'.pending == s.pending && s'.builds == s.builds
    requires forall t: Task :: At(s', t).building == At(s, t).building
    ensures OwnBuilds(s') && RunningIsPending(s')
  {
    assert forall t: Task, b: nat :: Inside(s', t, b) <==> Inside(s, t, b);
    assert forall b: nat :: IsRunning(s', b) <==> IsRunning(s, b);
  }

  lemma BeginAdds(s: State, t: Task, slot: Slot)
    ensures var s', b := Begin(s, t, slot), |s.builds|;
      && At(s', t).building == At(s, t).building + [b]
      && (forall x: Task | x != t :: At(s', x) == At(s, x))
      && (forall x: nat | x < b :: s'.builds[x] == s.builds[x])
      && (forall x: Task, y: nat :: Inside(s', x, y) <==> Inside(s, x, y) || (x == t && y == b))
      && (forall x: nat | IsRunning(s', x) :: x == b || IsRunning(s, x))
  {
    var s', b := Begin(s, t, slot), |s.builds|;
    assert At(s', t).building == At(s, t).building + [b];
    forall x: nat | IsRunning(s', x) ensures x == b || IsRunning(s, x) { }
  }

  lemma BeginKeepsBuilds(s: State, t: Task, slot: Slot)
    requires OwnBuilds(s) && RunningIsPending(s) && slot !in s.pending
    ensures OwnBuilds(Begin(s, t, slot)) && RunningIsPending(Begin(s, t, slot))
  {
    BeginAdds(s, t, slot);
    BeginKeepsDistinct(s, t, slot);
  }

  lemma BeginKeepsDistinct(s: State, t: Task, slot: Slot)
    requires OwnBuilds(s)
    ensures BuildsDiffer(Begin(s, t, slot))
  {
    BeginAdds(s, t, slot);
    forall i | 0 <= i < |At(s, t).building| ensures At(s, t).building[i] != |s.builds| {
      assert Inside(s, t, At(s, t).building[i]);
    }
    assert Distinct(At(Begin(s, t, slot), t).building);
  }

  lemma BeginKeepsInv(s: State, t: Task, slot: Slot)
    requires Inv(s) && At(s, t).awaiting.None? && slot !in s.instances && slot !in s.pending
    ensures Inv(Begin(s, t, slot))
  {
    BeginKeepsBuilds(s, t, slot);
    BeginKeepsRest(s, t, slot);
  }

  lemma BeginKeepsRest(s: State, t: Task, slot: Slot)
    requires PendingIsOwned(s) && WaitsAreRecorded(s) && FilledOnce(s)
    requires At(s, t).awaiting.None? && slot !in s.instances && slot !in s.pending
    ensures WaitsAreRecorded(Begin(s, t, slot)) && FilledOnce(Begin(s, t, slot))
  {
    var s' := Begin(s, t, slot);
    assert forall x: nat | x < |s.builds| :: s'.builds[x] == s.builds[x];
    assert WaitsAreRecorded(s') by {
      assert forall x :: At(s', x).awaiting == At(s, x).awaiting;
    }
    assert FilledOnce(s') by {
      assert forall other :: History(s', other) == History(s, other);
      forall other | BeingBuilt(s', other) ensures other !in s'.instances {
        assert other == slot || BeingBuilt(s, other);
      }
    }
  }

  lemma SameTasks(s: State, s': State)
    requires s'.tasks == s.tasks
    ensures forall t: Task :: At(s', t) == At(s, t)
    ensures forall t: Task, b: nat :: Inside(s', t, b) <==> Inside(s, t, b)
  {
  }

  lemma SettleKeepsBuilds(s: State, b: nat, outcome: Outcome)
    requires OwnBuilds(s) && RunningIsPending(s) && WaitsAreRecorded(s) && b < |s.builds| && !outcome.Running?
    ensures OwnBuilds(Settle(s, b, outcome)) && RunningIsPending(Settle(s, b, outcome))
      && WaitsAreRecorded(Settle(s, b, outcome))
  {
    var s' := Settle(s, b, outcome);
    SameTasks(s, s');
    assert forall x: nat | IsRunning(s', x) :: IsRunning(s, x);
  }

  lemma SettleKeepsFilling(s: State, b: nat, outcome: Outcome)
    requires FilledOnce(s) && IsRunning(s, b) && !outcome.Running?
    ensures FilledOnce(Settle(s, b, outcome))
  {
    var s' := Settle(s, b, outcome);
    assert forall slot :: History(s', slot) == History(s, slot);
    forall slot | BeingBuilt(s', slot) ensures slot !in s'.instances { assert BeingBuilt(s, slot); }
  }

  lemma StoreKeepsInv(s: State, b: nat, outcome: Outcome)
    requires Inv(s) && IsRunning(s, b) && !outcome.Running?
    ensures outcome.Raised? ==> Inv(Settle(s, b, outcome))
    ensures outcome.Returned? ==> Inv(Put(Settle(s, b, outcome), s.builds[b].slot, Filling(Some(b), outcome.value)))
  {
    var s', slot := Settle(s, b, outcome), s.builds[b].slot;
    SettleKeepsBuilds(s, b, outcome);
    SettleKeepsFilling(s, b, outcome);
    assert BeingBuilt(s, slot) && !BeingBuilt(s', slot);
    if outcome.Returned? {
      PutKeepsInv(s', slot, Filling(Some(b), outcome.value));
    }
  }

  lemma PopKeepsBuilds(s: State, t: Task)
    requires OwnBuilds(s) && RunningIsPending(s) && Innermost(s, t).Some? && IsDone(s, Innermost(s, t).value)
    ensures OwnBuilds(Pop(s, t)) && RunningIsPending(Pop(s, t))
  {
    var s', b, was := Pop(s, t), Innermost(s, t).value, At(s, t).building;
    LastIsGone(was, b);
    assert forall x: Task | x != t :: At(s', x) == At(s, x);
    assert Inside(s, t, b);
    forall x: Task, y: nat ensures Inside(s', x, y) <==> Inside(s, x, y) && y != b {
      if Inside(s, x, b) { assert s.builds[b].builder == x; }
    }
    assert Distinct(At(s, t).building);
    assert forall x: nat | IsRunning(s', x) :: IsRunning(s, x) && x != b;
  }

  lemma LastIsGone(bs: seq<nat>, last: nat)
    requires Distinct(bs) && bs != [] && bs[|bs| - 1] == last
    ensures forall b: nat :: b in bs[..|bs| - 1] <==> b in bs && b != last
  {
    forall b: nat | b in bs && b != last ensures b in bs[..|bs| - 1] {
      var i :| 0 <= i < |bs| && bs[i] == b;
      assert bs[..|bs| - 1][i] == b;
    }
  }

  lemma PopKeepsInv(s: State, t: Task)
    requires Inv(s) && Innermost(s, t).Some? && IsDone(s, Innermost(s, t).value)
    ensures Inv(Pop(s, t))
  {
    PopKeepsBuilds(s, t);
    var s' := Pop(s, t);
    assert WaitsAreRecorded(s') by {
      forall x ensures At(s', x).awaiting == At(s, x).awaiting { }
    }
    assert FilledOnce(s') by {
      assert forall slot :: History(s', slot) == History(s, slot);
      forall slot | BeingBuilt(s', slot) ensures slot !in s'.instances { assert BeingBuilt(s, slot); }
    }
  }

  lemma PutKeepsInv(s: State, slot: Slot, filling: Filling)
    requires Inv(s) && slot !in s.instances && !BeingBuilt(s, slot)
    requires filling.build.Some? ==>
      filling.build.value < |s.builds| && s.builds[filling.build.value].outcome == Returned(filling.value)
    ensures Inv(Put(s, slot, filling))
  {
    var s' := Put(s, slot, filling);
    assert History(s', slot) == [filling];
    assert forall other | other != slot :: History(s', other) == History(s, other);
    forall other | BeingBuilt(s', other) ensures other != slot && other !in s.instances { assert BeingBuilt(s, other); }
    SameTasks(s, s');
    SameBuilds(s, s');
  }

  lemma ForgetKeepsInv(s: State, slots: set<Slot>)
    requires Inv(s)
    ensures Inv(Forget(s, slots))
  {
    SameTasks(s, Forget(s, slots));
    SameBuilds(s, Forget(s, slots));
    forall other | BeingBuilt(Forget(s, slots), other) ensures other !in s.instances { assert BeingBuilt(s, other); }
  }

  /** Every step of every interleaving keeps the wait graph acyclic and every slot filled once. */
  lemma StepKeepsInv(s: State, step: Step)
    requires Inv(s) && Enabled(s, step) && Undisturbed(s, step)
    ensures Inv(Next(s, step))
  {
    match step
    case Ask(t, slot) =>
      if slot !in s.instances && !Refused(s, t, slot) {
        if slot in s.pending { JoinKeepsInv(s, t, slot); } else { BeginKeepsInv(s, t, slot); }
      }
    case StoreValue(t, value) => StoreKeepsInv(s, Innermost(s, t).value, Returned(value));
    case StoreError(t, error) => StoreKeepsInv(s, Innermost(s, t).value, Raised(error));
    case PopPending(t) => PopKeepsInv(s, t);
    case Resume(t) => WokenKeepsInv(s, t);
    case CancelWait(t) => WokenKeepsInv(s, t);
    case SyncBuild(slot, value) => PutKeepsInv(s, slot, Filling(None, value));
    case Register(key) => ForgetKeepsInv(s, {Slot(0, key)});
    case SetInstance(key, value) =>
      ForgetKeepsInv(s, {Slot(0, key)});
      PutKeepsInv(Forget(s, {Slot(0, key)}), Slot(0, key), Filling(None, value));
    case CloseScope(scope) => ForgetKeepsInv(s, SlotsOf(s, scope));
  }

  /** A task asks for its next object, or is told how its build went, when it is not waiting; a joiner goes on when
      the build it joined is over, and is cancelled at any time; a sync resolution builds what is neither there nor
      being built. */
  lemma StepsHappenExactly(s: State, t: Task, slot: Slot, n: nat)
    requires Inv(s)
    ensures var l := At(s, t);
      && (Enabled(s, CancelWait(t)) <==> l.awaiting != None)
      && (Enabled(s, Resume(t)) <==> l.awaiting != None && s.builds[l.awaiting.value].outcome != Running)
      && (Enabled(s, SyncBuild(slot, n)) <==> slot !in s.instances && slot !in s.pending)
      && (l.awaiting != None ==> !Enabled(s, Ask(t, slot)) && !Enabled(s, StoreValue(t, n))
                                 && !Enabled(s, StoreError(t, n)) && !Enabled(s, PopPending(t)))
      && (l.building == [] && l.awaiting == None ==> Enabled(s, Ask(t, slot)))
      && (l.building != [] && l.awaiting == None ==>
            var last := l.building[|l.building| - 1];
            var running := last < |s.builds| && s.builds[last].outcome == Running;
            && (Enabled(s, Ask(t, slot)) <==> running) && (Enabled(s, StoreValue(t, n)) <==> running)
            && (Enabled(s, StoreError(t, n)) <==> running) && (Enabled(s, PopPending(t)) <==> !running))
  {
    var l := At(s, t);
    if l.building != [] { assert Inside(s, t, l.building[|l.building| - 1]); }
  }

  // --- Runs ---------------------------------------------------------------------------------

  /** A run in which nobody replaces a key while it is being built. */
  ghost predicate CanRun(s: State, steps: seq<Step>)
    decreases |steps|
  {
    steps == [] ||
    (Enabled(s, steps[0]) && Undisturbed(s, steps[0]) && CanRun(Next(s, steps[0]), steps[1..]))
  }

  ghost function After(s: State, steps: seq<Step>): State
    requires CanRun(s, steps)
    decreases |steps|
  {
    if steps == [] then s else After(Next(s, steps[0]), steps[1..])
  }

  /** In every interleaving the recorded graph is acyclic and single flight holds. */
  lemma {:induction false} EveryRunKeepsInv(s: State, steps: seq<Step>)
    requires Inv(s) && CanRun(s, steps)
    ensures Inv(After(s, steps))
    decreases |steps|
  {
    if steps != [] {
      StepKeepsInv(s, steps[0]);
      EveryRunKeepsInv(Next(s, steps[0]), steps[1..]);
    }
  }

  /** A task that can take a step of its own: continue a build it is inside of, or pick up a
      build that is done. */
  ghost predicate CanMove(s: State, t: Task) {
    Innermost(s, t).Some? || Enabled(s, Resume(t))
  }

  /** No deadlock: the chain of a waiting task ends at one that is not waiting, and somebody on
      it can move. */
  lemma NoDeadlock(s: State, t: Task) returns (n: nat, last: Task, mover: Task)
    requires Inv(s) && t in s.waiting
    ensures Hop(s.waiting, t, n) == Some(last) && last !in s.waiting
    ensures Reaches(s.waiting, t, mover) && CanMove(s, mover)
  {
    n, last := ChainEnds(s.waiting, t);
    mover := last;
    assert n > 0;
    var before := Predecessor(s.waiting, t, n);
    var b := At(s, before).awaiting.value;
    if IsRunning(s, b) {
      assert Inside(s, last, b);
      assert At(s, last).awaiting.None?;
    } else {
      mover := before;
      assert Enabled(s, Resume(before));
    }
  }

  lemma Predecessor(w: map<Task, Task>, t: Task, n: nat) returns (before: Task)
    requires n > 0 && Hop(w, t, n).Some?
    ensures Reaches(w, t, before) && before in w && w[before] == Hop(w, t, n).value
  {
    HopAdds(w, t, n - 1, 1);
    before := Hop(w, t, n - 1).value;
    assert Hop(w, before, 1).Some?;
  }

  /** What became of a build never changes: every joiner gets its one value or its exception. */
  lemma OutcomeStays(s: State, step: Step, b: nat)
    requires Inv(s) && Enabled(s, step) && IsDone(s, b)
    ensures b < |Next(s, step).builds| && Next(s, step).builds[b] == s.builds[b]
  {
  }

  /** A build that raised leaves neither an instance nor a pending entry behind. */
  lemma FailureLeavesNothing(s: State, t: Task, error: nat)
    requires Inv(s) && Enabled(s, StoreError(t, error))
    ensures var slot, failed := s.builds[Innermost(s, t).value].slot, Next(s, StoreError(t, error));
      && slot !in failed.instances
      && Enabled(failed, PopPending(t))
      && slot !in Next(failed, PopPending(t)).pending
      && slot !in Next(failed, PopPending(t)).instances
  {
    var b := Innermost(s, t).value;
    assert BeingBuilt(s, s.builds[b].slot);
    assert Innermost(Settle(s, b, Raised(error)), t) == Some(b);
  }

  /** The one who builds decides: the value it returns is the outcome and the instance, the error it raises
      is the outcome and no instance; no other build is settled. */
  lemma BuilderDecides(s: State, t: Task, value: nat, error: nat)
    requires Inv(s) && Innermost(s, t).Some? && IsRunning(s, Innermost(s, t).value)
    ensures var b := Innermost(s, t).value;
      var returned, raised := Next(s, StoreValue(t, value)), Next(s, StoreError(t, error));
      && returned.builds == s.builds[b := Build(s.builds[b].slot, s.builds[b].builder, Returned(value))]
      && returned.instances == s.instances[s.builds[b].slot := value]
      && raised.builds == s.builds[b := Build(s.builds[b].slot, s.builds[b].builder, Raised(error))]
      && raised.instances == s.instances && s.builds[b].slot !in raised.instances
  {
    assert BeingBuilt(s, s.builds[Innermost(s, t).value].slot);
  }

  lemma {:induction false} OutcomeStaysOverRuns(s: State, steps: seq<Step>, b: nat)
    requires Inv(s) && CanRun(s, steps) && IsDone(s, b)
    ensures b < |After(s, steps).builds| && After(s, steps).builds[b] == s.builds[b]
    decreases |steps|
  {
    if steps != [] {
      OutcomeStays(s, steps[0], b);
      StepKeepsInv(s, steps[0]);
      OutcomeStaysOverRuns(Next(s, steps[0]), steps[1..], b);
    }
  }

  lemma JoinerWaitsOn(s: State, step: Step, joiner: Task, b: nat)
    requires Enabled(s, step) && At(s, joiner).awaiting == Some(b)
    requires step != Resume(joiner) && step != CancelWait(joiner)
    ensures At(Next(s, step), joiner).awaiting == Some(b)
  {
  }

  /** Nobody makes a joiner wait for something else, or stop waiting, but itself or who cancels it. */
  lemma {:induction false} JoinerWaits(s: State, steps: seq<Step>, joiner: Task, b: nat)
    requires CanRun(s, steps) && At(s, joiner).awaiting == Some(b)
    requires Resume(joiner) !in steps && CancelWait(joiner) !in steps
    ensures At(After(s, steps), joiner).awaiting == Some(b)
    decreases |steps|
  {
    if steps != [] {
      assert steps[0] in steps && forall step | step in steps[1..] :: step in steps;
      JoinerWaitsOn(s, steps[0], joiner, b);
      JoinerWaits(Next(s, steps[0]), steps[1..], joiner, b);
    }
  }

  /** Whoever has joined a build, however many steps of others come in between, picks up the error its
      builder raised, or the value it returned. */
  lemma JoinersShareTheOutcome(s: State, t: Task, value: nat, error: nat, raises: bool, joiner: Task, steps: seq<Step>)
    requires Inv(s) && Innermost(s, t).Some? && IsRunning(s, Innermost(s, t).value)
    requires At(s, joiner).awaiting == Some(Innermost(s, t).value)
    requires Resume(joiner) !in steps && CancelWait(joiner) !in steps
    requires CanRun(Next(s, if raises then StoreError(t, error) else StoreValue(t, value)), steps)
    ensures var end := After(Next(s, if raises then StoreError(t, error) else StoreValue(t, value)), steps);
      && At(end, joiner).awaiting == Some(Innermost(s, t).value) && Enabled(end, Resume(joiner))
      && end.builds[Innermost(s, t).value].outcome == if raises then Raised(error) else Returned(value)
  {
    var b, step := Innermost(s, t).value, if raises then StoreError(t, error) else StoreValue(t, value);
    var settled := Next(s, step);
    StepKeepsInv(s, step);
    BuilderDecides(s, t, value, error);
    assert IsDone(settled, b);
    OutcomeStaysOverRuns(settled, steps, b);
    JoinerWaits(settled, steps, joiner, b);
  }

  /** Entering uses the instance, is refused, joins the build in flight as a waiter on its builder, or
      starts the one build of the key. */
  lemma EnteringDecides(s: State, t: Task, slot: Slot)
    requires Enabled(s, Ask(t, slot))
    ensures var s' := Next(s, Ask(t, slot));
      && s'.instances == s.instances && (forall u: Task | u != t :: At(s', u) == At(s, u))
      && if slot in s.instances then s' == s
         else if slot !in s.pending then
           && s'.builds == s.builds + [Build(slot, t, Running)] && s'.pending == s.pending[slot := |s.builds|]
           && At(s', t) == Local(At(s, t).building + [|s.builds|], None) && s'.waiting == s.waiting
         else if Reaches(s.waiting, s.builds[s.pending[slot]].builder, t) then s' == s
         else
           && s'.builds == s.builds && s'.pending == s.pending
           && At(s', t) == Local(At(s, t).building, Some(s.pending[slot]))
           && s'.waiting == s.waiting[t := s.builds[s.pending[slot]].builder]
  {
  }

  /** Resuming and being cancelled end the waiter's own wait, and touch nothing of what is shared: a
      cancelled waiter does not cancel the build. */
  lemma LeavingOnlyStopsWaiting(s: State, t: Task)
    requires At(s, t).awaiting.Some?
    ensures forall step | (step == CancelWait(t) || step == Resume(t)) && Enabled(s, step) ::
      var s' := Next(s, step);
      && At(s', t) == Local(At(s, t).building, None) && s'.waiting == s.waiting - {t}
      && s'.builds == s.builds && s'.pending == s.pending && s'.instances == s.instances
      && forall u: Task | u != t :: At(s', u) == At(s, u)
  {
  }

  /** The finally clause ends the innermost build and no other. */
  lemma PoppingEndsTheInnermost(s: State, t: Task)
    requires Enabled(s, PopPending(t))
    ensures var s', b := Next(s, PopPending(t)), Innermost(s, t).value;
      && s'.pending == s.pending - {s.builds[b].slot} && s'.builds == s.builds && s'.instances == s.instances
      && At(s', t) == Local(At(s, t).building[..|At(s, t).building| - 1], None)
      && forall u: Task | u != t :: At(s', u) == At(s, u)
  {
  }

  // --- What registrations may disturb ---------------------------------------------------------

  /** Registering drops the object of the root's key, an object given for it replaces it, and a sync build
      fills its slot. */
  lemma RegistrationsTakeEffect(s: State, key: Key, value: nat, slot: Slot)
    ensures Next(s, Register(key)).instances == s.instances - {Slot(0, key)}
    ensures Next(s, SetInstance(key, value)).instances == s.instances[Slot(0, key) := value]
    ensures Enabled(s, SyncBuild(slot, value)) ==>
      Next(s, SyncBuild(slot, value)).instances == s.instances[slot := value]
  {
  }

  /** Closing a scope drops the objects of that scope and of no other. */
  lemma ClosingDropsTheScope(s: State, scope: nat, slot: Slot)
    requires scope != 0
    ensures slot in Next(s, CloseScope(scope)).instances <==> slot in s.instances && slot.scope != scope
    ensures slot in Next(s, CloseScope(scope)).instances ==>
      Next(s, CloseScope(scope)).instances[slot] == s.instances[slot]
  {
  }

  /** Builds in flight go on whatever is registered, given or closed, and whoever waits goes on waiting. */
  lemma BuildsGoOn(s: State, step: Step)
    requires step.Register? || step.SetInstance? || step.CloseScope? || step.SyncBuild?
    requires Enabled(s, step)
    ensures Next(s, step) == s.(instances := Next(s, step).instances, fillings := Next(s, step).fillings)
  {
  }

  /** Registering an object, or entering or leaving an override, keeps single flight exactly
      when the key is not being built at that moment. */
  lemma ReplacingIsSafeExactlyWhenIdle(s: State, key: Key, value: nat)
    requires Inv(s)
    ensures Inv(Next(s, SetInstance(key, value))) <==> !BeingBuilt(s, Slot(0, key))
  {
    if BeingBuilt(s, Slot(0, key)) {
      assert BeingBuilt(Next(s, SetInstance(key, value)), Slot(0, key));
    } else {
      StepKeepsInv(s, SetInstance(key, value));
    }
  }

  /** Otherwise the build in flight overwrites the replacement when it ends. */
  lemma BuildOverwritesReplacement(s: State, key: Key, fake: nat, t: Task, built: nat)
    requires Inv(s) && Innermost(s, t).Some? && IsRunning(s, Innermost(s, t).value)
    requires s.builds[Innermost(s, t).value].slot == Slot(0, key)
    ensures var replaced := Next(s, SetInstance(key, fake));
      && Enabled(replaced, StoreValue(t, built))
      && Next(replaced, StoreValue(t, built)).instances[Slot(0, key)] == built
      && |History(Next(replaced, StoreValue(t, built)), Slot(0, key))| == 2
  {
    var replaced := Next(s, SetInstance(key, fake));
    assert Innermost(replaced, t) == Innermost(s, t);
    assert History(replaced, Slot(0, key)) == [Filling(None, fake)];
  }

  // --- When a refusal is genuine --------------------------------------------------------------

  ghost predicate OnChain(w: map<Task, Task>, owner: Task, waiter: Task, x: Task) {
    Reaches(w, owner, x) && Reaches(w, x, waiter)
  }

  /** A refused join would have deadlocked exactly when every edge of the recorded chain is
      live, that is, its build is still running: edges outlive the builds they wait for. */
  lemma RefusalIsGenuineExactlyWhenLive(s: State, t: Task, slot: Slot)
    requires Inv(s) && Enabled(s, Ask(t, slot)) && Refused(s, t, slot)
    ensures var owner := s.builds[s.pending[slot]].builder;
      (forall x | OnChain(s.waiting, owner, t, x) :: !CanMove(Join(s, t, slot), x)) <==>
      (IsRunning(s, s.pending[slot]) &&
       forall x | OnChain(s.waiting, owner, t, x) && x != t ::
         At(s, x).awaiting.Some? && IsRunning(s, At(s, x).awaiting.value))
  {
    var owner, joined := s.builds[s.pending[slot]].builder, Join(s, t, slot);
    assert OnChain(s.waiting, owner, t, t) by { assert Hop(s.waiting, t, 0) == Some(t); }
    forall x | OnChain(s.waiting, owner, t, x) && x != t
      ensures At(s, x).awaiting.Some? && At(joined, x) == At(s, x)
    {
      var n: nat :| Hop(s.waiting, x, n) == Some(t);
      assert n > 0 && x in s.waiting;
    }
    assert At(joined, t).awaiting == Some(s.pending[slot]);
    forall x | OnChain(s.waiting, owner, t, x)
      ensures !CanMove(joined, x) <==> IsRunning(s, At(joined, x).awaiting.value)
    {
      assert At(joined, x).awaiting.Some? && At(joined, x).awaiting.value < |s.builds|;
    }
  }

  ghost predicate Reachable(s: State) {
    exists steps :: CanRun(START, steps) && After(START, steps) == s
  }

  lemma {:induction false} Extend(s: State, steps: seq<Step>, step: Step)
    requires CanRun(s, steps) && Enabled(After(s, steps), step) && Undisturbed(After(s, steps), step)
    ensures CanRun(s, steps + [step]) && After(s, steps + [step]) == Next(After(s, steps), step)
    decreases |steps|
  {
    if steps == [] {
      assert steps + [step] == [step] && [step][1..] == [];
    } else {
      Extend(Next(s, steps[0]), steps[1..], step);
      assert (steps + [step])[1..] == steps[1..] + [step];
    }
  }

  lemma ReachableStep(s: State, step: Step)
    requires Reachable(s) && Enabled(s, step) && Undisturbed(s, step)
    ensures Reachable(Next(s, step))
  {
    var steps :| CanRun(START, steps) && After(START, steps) == s;
    Extend(START, steps, step);
  }

  /** Tasks 1 and 2 build `a` and `b`, and 1 joins the build of `b`. */
  lemma JoinedState(a: Slot, b: Slot) returns (s: State)
    requires a != b
    ensures Reachable(s)
    ensures At(s, 1) == Local([0], Some(1)) && At(s, 2) == Local([1], None)
    ensures s.pending == map[a := 0, b := 1] && s.builds == [Build(a, 1, Running), Build(b, 2, Running)]
    ensures s.instances == map[] && s.waiting == map[1 := 2]
  {
    var s1 := Begin(START, 1, a);
    var s2 := Begin(s1, 2, b);
    s := Join(s2, 1, b);
    assert CanRun(START, []) && After(START, []) == START;
    assert Next(START, Ask(1, a)) == s1;
    ReachableStep(START, Ask(1, a));
    assert Next(s1, Ask(2, b)) == s2;
    ReachableStep(s1, Ask(2, b));
    assert !Reaches(s2.waiting, 2, 1) by {
      forall n: nat ensures Hop(s2.waiting, 2, n) != Some(1) { }
    }
    assert Next(s2, Ask(1, b)) == s;
    ReachableStep(s2, Ask(1, b));
  }

  /** A refusal that is not genuine: task 2 has finished what task 1 waits for, but task 1 has
      not resumed yet when task 2 asks for what task 1 builds. */
  lemma SpuriousRefusal(a: Slot, b: Slot) returns (s: State)
    requires a != b
    ensures Reachable(s) && Enabled(s, Ask(2, a)) && Refused(s, 2, a)
    ensures OnChain(s.waiting, 1, 2, 1) && CanMove(Join(s, 2, a), 1)
  {
    var joined := JoinedState(a, b);
    ReachableStep(joined, StoreValue(2, 0));
    var stored := Next(joined, StoreValue(2, 0));
    assert Innermost(stored, 2) == Some(1);
    ReachableStep(stored, PopPending(2));
    s := Next(stored, PopPending(2));
    assert Hop(s.waiting, 1, 1) == Some(2) && Hop(s.waiting, 1, 0) == Some(1) && Hop(s.waiting, 2, 0) == Some(2);
    assert Enabled(Join(s, 2, a), Resume(1));
  }
}
