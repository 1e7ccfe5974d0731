/** No singleton holds on to a scope although async resolutions are suspended between any two of
    their steps, and whatever is registered, overridden or resolved meanwhile. */
module AsyncCaptivity {
  import opened DependencyGraph
  import opened Resolution
  import opened Captivity

  datatype Stage = Collecting | Made(value: Value) | Stored(value: Value)

  /** A suspended `_abuild`, with its caller `_cached_async` when it has a future; or a task that
      joined the build of another. `within` is the scope of the engine, none for the root's. */
  datatype Frame =
    | Building(within: Option<nat>, key: Key, provider: Provider, future: Option<nat>,
               deps: seq<Dependency>, args: seq<Argument>, stage: Stage)
    | Joining(build: nat)

  /** The innermost frame is last. */
  datatype Task = Task(within: Option<nat>, asked: Key, frames: seq<Frame>)

  datatype Outcome = Unsettled | Settled(value: Value) | Raised

  /** `root` says whose pending builds the future is among, and `key` what is built. */
  datatype Future = Future(root: bool, key: Key, outcome: Outcome)

  datatype Answer = Answer(within: Option<nat>, asked: Key, value: Value)

  datatype State = State(
    system: System,
    tasks: map<nat, Task>,
    futures: seq<Future>,
    pending: map<(Option<nat>, Key), nat>,
    answers: seq<Answer>)

  datatype Step =
    | Do(op: Operation)         // a sync resolution goes on even past a build that is pending
    | Start(task: nat, within: Option<nat>, key: Key)
    | Ask(task: nat)          // for the key of the task, or of the next parameter
    | Call(task: nat)         // the factory returns
    | Store(task: nat)        // the value becomes the instance and the result of the future
    | Leave(task: nat)        // the pending entry goes and the value is handed up
    | Resume(task: nat)       // after the build that was joined
    | Abort(task: nat)        // an error, a refused join, a cancellation

  const START := State(EMPTY, map[], [], map[], [])

  function Instances(s: System, owner: Option<nat>): map<Key, Value> {
    if owner.None? then s.root else if owner.value in s.scopes then s.scopes[owner.value] else map[]
  }

  function WithStored(s: System, owner: Option<nat>, key: Key, v: Value): System {
    if owner.None? then s.(root := s.root[key := v])
    else s.(scopes := s.scopes[owner.value := Instances(s, owner)[key := v]])
  }

  function Frames(s: State, task: nat): seq<Frame> {
    if task in s.tasks then s.tasks[task].frames else []
  }

  predicate Busy(s: State, task: nat) {
    Frames(s, task) != [] && Top(s, task).Building?
  }

  function Top(s: State, task: nat): Frame
    requires Frames(s, task) != []
  {
    Frames(s, task)[|Frames(s, task)| - 1]
  }

  /** The engine that resolves the next key of a task. */
  function Engine(s: State, task: nat): Option<nat>
    requires task in s.tasks && Awaits(Frames(s, task))
  {
    if Frames(s, task) == [] then s.tasks[task].within else Top(s, task).within
  }

  function WithFrames(s: State, task: nat, frames: seq<Frame>): State
    requires task in s.tasks
  {
    s.(tasks := s.tasks[task := s.tasks[task].(frames := frames)])
  }

  /** The innermost frame, if any, is a build with parameters left. */
  predicate Awaits(frames: seq<Frame>) {
    frames != [] ==> frames[|frames| - 1].Building? && frames[|frames| - 1].deps != []
  }

  /** A value reaches whoever asked: the frame below, or the caller of the whole resolution. */
  function Delivered(s: State, task: nat, v: Value): State
    requires task in s.tasks && Awaits(Frames(s, task))
  {
    var frames := Frames(s, task);
    if frames == [] then
      s.(tasks := s.tasks - {task}, answers := s.answers + [Answer(s.tasks[task].within, s.tasks[task].asked, v)])
    else
      var top := Top(s, task);
      var d := top.deps[0];
      WithFrames(s, task, frames[..|frames| - 1]
                          + [top.(deps := top.deps[1..], args := top.args + [Argument(d.name, d.positional, v)])])
  }

  /** The exception passes through every frame: futures are settled with it, pending entries go. */
  function Aborted(s: State, task: nat): State {
    var mine := set f | f in Frames(s, task) && f.Building? && f.future.Some? :: f.future.value;
    s.(tasks := s.tasks - {task},
       futures := seq(|s.futures|, i requires 0 <= i < |s.futures| =>
                    if i in mine && s.futures[i].outcome.Unsettled? then s.futures[i].(outcome := Raised)
                    else s.futures[i]),
       pending := map p | p in s.pending && s.pending[p] !in mine :: s.pending[p])
  }

  function Entered(plans: map<Factory, seq<Dependency>>, s: State, task: nat, within: Option<nat>, key: Key,
                   p: Provider, future: Option<nat>): State
    requires task in s.tasks
  {
    var plan := Plan(Graph(s.system.providers, plans), p.factory);
    if plan.None? then Aborted(s, task)
    else WithFrames(s, task, Frames(s, task) + [Building(within, key, p, future, plan.value, [], Collecting)])
  }

  /** `_cached_async`: the instance, a join, or a build of its own. */
  function Cached(plans: map<Factory, seq<Dependency>>, s: State, task: nat, owner: Option<nat>, key: Key,
                  p: Provider): State
    requires task in s.tasks && Awaits(Frames(s, task))
  {
    if key in Instances(s.system, owner) then Delivered(s, task, Instances(s.system, owner)[key])
    else if (owner, key) in s.pending then WithFrames(s, task, Frames(s, task) + [Joining(s.pending[(owner, key)])])
    else
      var s' := s.(futures := s.futures + [Future(owner.None?, key, Unsettled)],
                   pending := s.pending[(owner, key) := |s.futures|]);
      Entered(plans, s', task, owner, key, p, Some(|s.futures|))
  }

  predicate OnStack(frames: seq<Frame>, key: Key) {
    exists f | f in frames :: f.Building? && f.key == key
  }

  /** `aresolve` up to its next await. */
  function Asked(plans: map<Factory, seq<Dependency>>, s: State, task: nat, asked: Key): State
    requires task in s.tasks && Awaits(Frames(s, task))
  {
    var key, within := Unwrap(asked), Engine(s, task);
    var found := Lookup(Graph(s.system.providers, plans), key);
    if OnStack(Frames(s, task), key) then Aborted(s, task)
    else if within.Some? && key in Instances(s.system, within) then Delivered(s, task, Instances(s.system, within)[key])
    else if found.Err? then Aborted(s, task)
    else match found.value.lifetime
         case Transient => Entered(plans, s, task, within, key, found.value, None)
         case Scoped => if within.None? then Aborted(s, task) else Cached(plans, s, task, within, key, found.value)
         case Singleton => Cached(plans, s, task, None, key, found.value)
  }

  predicate Known(s: System, within: Option<nat>, key: Key) {
    key in s.providers || (within.Some? && key in Instances(s, within))
  }

  /** One turn of the loop over the parameters. */
  function NextParameter(plans: map<Factory, seq<Dependency>>, s: State, task: nat): State
    requires task in s.tasks && Busy(s, task) && Top(s, task).deps != []
  {
    var top, frames := Top(s, task), Frames(s, task);
    var d := top.deps[0];
    if d.hasDefault && !Known(s.system, top.within, Target(d)) then
      WithFrames(s, task, frames[..|frames| - 1] + [top.(deps := top.deps[1..])])
    else Asked(plans, s, task, Target(d))
  }

  predicate Enabled(s: State, step: Step) {
    match step
    case Do(_) => true
    case Start(task, within, _) => task !in s.tasks && (within.Some? ==> within.value in s.system.scopes)
    case Ask(task) =>
      task in s.tasks && Awaits(Frames(s, task)) && (Frames(s, task) != [] ==> Top(s, task).stage.Collecting?)
    case Call(task) => task in s.tasks && Busy(s, task) && Top(s, task).stage.Collecting? && Top(s, task).deps == []
    case Store(task) => task in s.tasks && Busy(s, task) && Top(s, task).stage.Made? && Top(s, task).future.Some?
    case Leave(task) =>
      task in s.tasks && Busy(s, task) && Awaits(Frames(s, task)[..|Frames(s, task)| - 1])
      && if Top(s, task).future.Some? then Top(s, task).stage.Stored? else Top(s, task).stage.Made?
    case Resume(task) =>
      task in s.tasks && Frames(s, task) != [] && Top(s, task).Joining?
        && Awaits(Frames(s, task)[..|Frames(s, task)| - 1])
      && Top(s, task).build < |s.futures| && !s.futures[Top(s, task).build].outcome.Unsettled?
    case Abort(task) => task in s.tasks
  }

  function Popped(s: State, task: nat): State
    requires task in s.tasks && Frames(s, task) != []
  {
    WithFrames(s, task, Frames(s, task)[..|Frames(s, task)| - 1])
  }

  function WithTop(s: State, task: nat, stage: Stage): State
    requires task in s.tasks && Busy(s, task)
  {
    var frames := Frames(s, task);
    WithFrames(s, task, frames[..|frames| - 1] + [Top(s, task).(stage := stage)])
  }

  function Product(f: Frame, serial: nat): Value
    requires f.Building?
  {
    if f.provider.factory.Constant? then f.provider.factory.value
    else Built(serial, f.key, f.provider.lifetime, f.args)
  }

  function Next(plans: map<Factory, seq<Dependency>>, s: State, step: Step): State
    requires Enabled(s, step)
  {
    match step
    case Do(op) => s.(system := Apply(plans, s.system, op))
    case Start(task, within, key) => s.(tasks := s.tasks[task := Task(within, key, [])])
    case Ask(task) =>
      if Frames(s, task) == [] then Asked(plans, s, task, s.tasks[task].asked) else NextParameter(plans, s, task)
    case Call(task) =>
      var s' := WithTop(s, task, Made(Product(Top(s, task), s.system.serial)));
      s'.(system := s.system.(serial := s.system.serial + 1))
    case Store(task) =>
      var top := Top(s, task);
      var s' := WithTop(s, task, Stored(top.stage.value));
      s'.(system := WithStored(s.system, top.within, top.key, top.stage.value),
          futures := if top.future.value >= |s.futures| then s.futures
                     else s.futures[top.future.value :=
                                      s.futures[top.future.value].(outcome := Settled(top.stage.value))])
    case Leave(task) =>
      var top := Top(s, task);
      var s' := s.(pending := if top.future.Some? then s.pending - {(top.within, top.key)} else s.pending);
      Delivered(Popped(s', task), task, top.stage.value)
    case Resume(task) =>
      var outcome := s.futures[Top(s, task).build].outcome;
      if outcome.Settled? then Delivered(Popped(s, task), task, outcome.value) else Aborted(s, task)
    case Abort(task) => Aborted(s, task)
  }

  // --- The invariant ------------------------------------------------------------------------

  /** What is built outside a scope is made of free values only; scoped services are built inside. */
  ghost predicate FrameIsFree(f: Frame, futures: seq<Future>) {
    match f
    case Joining(id) => id < |futures|
    case Building(within, _, p, future, _, args, stage) =>
      && (p.lifetime == Singleton ==> within.None?) && (p.lifetime == Scoped ==> within.Some?)
      && (p.factory.Constant? ==> Free(p.factory.value))
      && (future.Some? ==> future.value < |futures| && futures[future.value].root == within.None?)
      && (within.None? ==> (forall a | a in args :: Free(a.value)) && (!stage.Collecting? ==> Free(stage.value)))
  }

  /** A frame that builds outside a scope asks for nothing inside one. */
  ghost predicate Below(within: Option<nat>, f: Frame, futures: seq<Future>) {
    within.None? ==> if f.Building? then f.within.None? else f.build < |futures| && futures[f.build].root
  }

  /** The frame `f` may stand on top of `outer`. */
  ghost predicate Fits(within: Option<nat>, outer: seq<Frame>, f: Frame, futures: seq<Future>) {
    && FrameIsFree(f, futures)
    && if outer == [] then Below(within, f, futures)
       else outer[|outer| - 1].Building? && Below(outer[|outer| - 1].within, f, futures)
  }

  ghost predicate StackIsFree(within: Option<nat>, frames: seq<Frame>, futures: seq<Future>)
    decreases |frames|
  {
    frames != [] ==>
      && Fits(within, frames[..|frames| - 1], frames[|frames| - 1], futures)
      && StackIsFree(within, frames[..|frames| - 1], futures)
  }

  ghost predicate TaskIsFree(t: Task, futures: seq<Future>) {
    StackIsFree(t.within, t.frames, futures)
  }

  ghost predicate FuturesAreFree(futures: seq<Future>) {
    forall f | f in futures && f.root && f.outcome.Settled? :: Free(f.outcome.value)
  }

  ghost predicate PendingIsRooted(pending: map<(Option<nat>, Key), nat>, futures: seq<Future>) {
    forall p | p in pending :: pending[p] < |futures| && futures[pending[p]].root == p.0.None?
  }

  ghost predicate Inv(s: State) {
    && NoCaptives(s.system)
    && (forall t | t in s.tasks :: TaskIsFree(s.tasks[t], s.futures))
    && FuturesAreFree(s.futures)
    && PendingIsRooted(s.pending, s.futures)
    && forall a | a in s.answers && a.within.None? :: Free(a.value)
  }

  ghost predicate SameFutures(futures: seq<Future>, futures': seq<Future>) {
    |futures| <= |futures'| && forall i | 0 <= i < |futures| :: futures'[i].root == futures[i].root
  }

  lemma {:induction false} StackStaysFree(within: Option<nat>, frames: seq<Frame>, futures: seq<Future>,
                                          futures': seq<Future>)
    requires StackIsFree(within, frames, futures) && SameFutures(futures, futures')
    ensures StackIsFree(within, frames, futures')
    decreases |frames|
  {
    if frames != [] {
      StackStaysFree(within, frames[..|frames| - 1], futures, futures');
    }
  }

  lemma {:induction false} EveryFrameIsFree(within: Option<nat>, frames: seq<Frame>, futures: seq<Future>)
    requires StackIsFree(within, frames, futures)
    ensures forall f | f in frames :: FrameIsFree(f, futures)
    decreases |frames|
  {
    if frames != [] {
      var outer, top := frames[..|frames| - 1], frames[|frames| - 1];
      EveryFrameIsFree(within, outer, futures);
      assert frames == outer + [top];
    }
  }

  lemma FramesKeepInv(s: State, task: nat, frames: seq<Frame>)
    requires Inv(s) && task in s.tasks && TaskIsFree(s.tasks[task].(frames := frames), s.futures)
    ensures Inv(WithFrames(s, task, frames))
  {
  }

  lemma TopReplacedKeepsInv(s: State, task: nat, f: Frame)
    requires Inv(s) && task in s.tasks && Busy(s, task)
    requires f.Building? && f.within == Top(s, task).within && FrameIsFree(f, s.futures)
    ensures Inv(WithFrames(s, task, Frames(s, task)[..|Frames(s, task)| - 1] + [f]))
  {
    var outer := Frames(s, task)[..|Frames(s, task)| - 1];
    assert (outer + [f])[..|outer|] == outer;
    FramesKeepInv(s, task, outer + [f]);
  }

  lemma PushKeepsInv(s: State, task: nat, f: Frame)
    requires Inv(s) && task in s.tasks && Awaits(Frames(s, task))
    requires FrameIsFree(f, s.futures) && Below(Engine(s, task), f, s.futures)
    ensures Inv(WithFrames(s, task, Frames(s, task) + [f]))
  {
    var outer := Frames(s, task);
    assert (outer + [f])[..|outer|] == outer;
    FramesKeepInv(s, task, outer + [f]);
  }

  lemma DeliveredKeepsInv(s: State, task: nat, v: Value)
    requires Inv(s) && task in s.tasks && Awaits(Frames(s, task))
    requires Engine(s, task).None? ==> Free(v)
    ensures Inv(Delivered(s, task, v))
  {
    if Frames(s, task) != [] {
      var top := Top(s, task);
      assert FrameIsFree(top, s.futures);
      var d := top.deps[0];
      TopReplacedKeepsInv(s, task, top.(deps := top.deps[1..], args := top.args + [Argument(d.name, d.positional, v)]));
    }
  }

  lemma AbortedKeepsInv(s: State, task: nat)
    requires Inv(s)
    ensures Inv(Aborted(s, task))
  {
    var s' := Aborted(s, task);
    forall t | t in s'.tasks ensures TaskIsFree(s'.tasks[t], s'.futures) {
      StackStaysFree(s.tasks[t].within, s.tasks[t].frames, s.futures, s'.futures);
    }
    forall f | f in s'.futures && f.root && f.outcome.Settled? ensures Free(f.outcome.value) {
      var i :| 0 <= i < |s'.futures| && s'.futures[i] == f;
      assert s.futures[i] in s.futures;
    }
  }

  lemma EnteredKeepsInv(plans: map<Factory, seq<Dependency>>, s: State, task: nat, within: Option<nat>, key: Key,
                        p: Provider, future: Option<nat>)
    requires Inv(s) && task in s.tasks && Awaits(Frames(s, task))
    requires (p.lifetime == Singleton ==> within.None?) && (p.lifetime == Scoped ==> within.Some?)
    requires p.factory.Constant? ==> Free(p.factory.value)
    requires future.Some? ==> future.value < |s.futures| && s.futures[future.value].root == within.None?
    requires Engine(s, task).None? ==> within.None?
    ensures Inv(Entered(plans, s, task, within, key, p, future))
  {
    var plan := Plan(Graph(s.system.providers, plans), p.factory);
    if plan.None? {
      AbortedKeepsInv(s, task);
    } else {
      PushKeepsInv(s, task, Building(within, key, p, future, plan.value, [], Collecting));
    }
  }

  /** A build of its own gets a future and a pending entry. */
  lemma PendingKeepsInv(s: State, owner: Option<nat>, key: Key)
    requires Inv(s)
    ensures Inv(s.(futures := s.futures + [Future(owner.None?, key, Unsettled)],
                   pending := s.pending[(owner, key) := |s.futures|]))
  {
    var futures := s.futures + [Future(owner.None?, key, Unsettled)];
    forall t | t in s.tasks ensures TaskIsFree(s.tasks[t], futures) {
      StackStaysFree(s.tasks[t].within, s.tasks[t].frames, s.futures, futures);
    }
  }

  lemma CachedKeepsInv(plans: map<Factory, seq<Dependency>>, s: State, task: nat, owner: Option<nat>, key: Key,
                       p: Provider)
    requires Inv(s) && task in s.tasks && Awaits(Frames(s, task))
    requires (p.lifetime == Singleton ==> owner.None?) && (p.lifetime == Scoped ==> owner.Some?)
    requires p.factory.Constant? ==> Free(p.factory.value)
    requires Engine(s, task).None? ==> owner.None?
    ensures Inv(Cached(plans, s, task, owner, key, p))
  {
    if key in Instances(s.system, owner) {
      DeliveredKeepsInv(s, task, Instances(s.system, owner)[key]);
    } else if (owner, key) in s.pending {
      PushKeepsInv(s, task, Joining(s.pending[(owner, key)]));
    } else {
      var s' := s.(futures := s.futures + [Future(owner.None?, key, Unsettled)],
                   pending := s.pending[(owner, key) := |s.futures|]);
      PendingKeepsInv(s, owner, key);
      EnteredKeepsInv(plans, s', task, owner, key, p, Some(|s.futures|));
    }
  }

  lemma AskedKeepsInv(plans: map<Factory, seq<Dependency>>, s: State, task: nat, asked: Key)
    requires Inv(s) && task in s.tasks && Awaits(Frames(s, task))
    ensures Inv(Asked(plans, s, task, asked))
  {
    var key, within := Unwrap(asked), Engine(s, task);
    var found := Lookup(Graph(s.system.providers, plans), key);
    AbortedKeepsInv(s, task);
    if within.Some? && key in Instances(s.system, within) {
      DeliveredKeepsInv(s, task, Instances(s.system, within)[key]);
    } else if found.Ok? {
      match found.value.lifetime
      case Transient => EnteredKeepsInv(plans, s, task, within, key, found.value, None);
      case Scoped => if within.Some? { CachedKeepsInv(plans, s, task, within, key, found.value); }
      case Singleton => CachedKeepsInv(plans, s, task, None, key, found.value);
    }
  }

  lemma ProductIsFree(f: Frame, futures: seq<Future>, serial: nat)
    requires f.Building? && f.within.None? && FrameIsFree(f, futures)
    ensures Free(Product(f, serial))
  {
  }

  lemma StoreKeepsInv(s: State, task: nat, plans: map<Factory, seq<Dependency>>)
    requires Inv(s) && Enabled(s, Store(task))
    ensures Inv(Next(plans, s, Store(task)))
  {
    var top := Top(s, task);
    TopReplacedKeepsInv(s, task, top.(stage := Stored(top.stage.value)));
    var s1 := WithTop(s, task, Stored(top.stage.value));
    var futures := s.futures[top.future.value := s.futures[top.future.value].(outcome := Settled(top.stage.value))];
    forall t | t in s1.tasks ensures TaskIsFree(s1.tasks[t], futures) {
      StackStaysFree(s1.tasks[t].within, s1.tasks[t].frames, s.futures, futures);
    }
  }

  lemma LeaveKeepsInv(s: State, task: nat, plans: map<Factory, seq<Dependency>>)
    requires Inv(s) && Enabled(s, Leave(task))
    ensures Inv(Next(plans, s, Leave(task)))
  {
    var top := Top(s, task);
    var s1 := s.(pending := if top.future.Some? then s.pending - {(top.within, top.key)} else s.pending);
    FramesKeepInv(s1, task, Frames(s, task)[..|Frames(s, task)| - 1]);
    DeliveredKeepsInv(Popped(s1, task), task, top.stage.value);
  }

  lemma ResumeKeepsInv(s: State, task: nat, plans: map<Factory, seq<Dependency>>)
    requires Inv(s) && Enabled(s, Resume(task))
    ensures Inv(Next(plans, s, Resume(task)))
  {
    var future := s.futures[Top(s, task).build];
    FramesKeepInv(s, task, Frames(s, task)[..|Frames(s, task)| - 1]);
    AbortedKeepsInv(s, task);
    if future.outcome.Settled? {
      assert future in s.futures;
      DeliveredKeepsInv(Popped(s, task), task, future.outcome.value);
    }
  }

  lemma AskKeepsInv(s: State, task: nat, plans: map<Factory, seq<Dependency>>)
    requires Inv(s) && Enabled(s, Ask(task))
    ensures Inv(Next(plans, s, Ask(task)))
  {
    if Frames(s, task) == [] {
      AskedKeepsInv(plans, s, task, s.tasks[task].asked);
    } else {
      var top := Top(s, task);
      assert FrameIsFree(top, s.futures);
      TopReplacedKeepsInv(s, task, top.(deps := top.deps[1..]));
      AskedKeepsInv(plans, s, task, Target(top.deps[0]));
    }
  }

  lemma CallKeepsInv(s: State, task: nat, plans: map<Factory, seq<Dependency>>)
    requires Inv(s) && Enabled(s, Call(task))
    ensures Inv(Next(plans, s, Call(task)))
  {
    var top := Top(s, task);
    if top.within.None? { ProductIsFree(top, s.futures, s.system.serial); }
    TopReplacedKeepsInv(s, task, top.(stage := Made(Product(top, s.system.serial))));
  }

  predicate HandsIn(step: Step) {
    step.Do? ==> HandsInFree(step.op)
  }

  /** Between any two awaits, every step of every task keeps singletons free; an operation does
      if and only if no scope-bound object is handed in. */
  lemma StepKeepsInv(plans: map<Factory, seq<Dependency>>, s: State, step: Step)
    requires Inv(s) && Enabled(s, step)
    requires step.Do? && step.op.Register? ==> !step.op.factory.Constant?
    ensures Inv(Next(plans, s, step)) <==> HandsIn(step)
  {
    match step
    case Do(op) => OperationKeepsFreedom(plans, s.system, op);
    case Start(_, _, _) =>
    case Ask(task) => AskKeepsInv(s, task, plans);
    case Call(task) => CallKeepsInv(s, task, plans);
    case Store(task) => StoreKeepsInv(s, task, plans);
    case Leave(task) => LeaveKeepsInv(s, task, plans);
    case Resume(task) => ResumeKeepsInv(s, task, plans);
    case Abort(task) => AbortedKeepsInv(s, task);
  }

  // --- Whole runs ---------------------------------------------------------------------------

  ghost predicate CanRun(plans: map<Factory, seq<Dependency>>, s: State, steps: seq<Step>)
    decreases |steps|
  {
    steps == [] || (Enabled(s, steps[0]) && CanRun(plans, Next(plans, s, steps[0]), steps[1..]))
  }

  ghost function After(plans: map<Factory, seq<Dependency>>, s: State, steps: seq<Step>): State
    requires CanRun(plans, s, steps)
    decreases |steps|
  {
    if steps == [] then s else After(plans, Next(plans, s, steps[0]), steps[1..])
  }

  lemma {:induction false} RunKeepsInv(plans: map<Factory, seq<Dependency>>, s: State, steps: seq<Step>)
    requires Inv(s) && CanRun(plans, s, steps)
    requires forall step | step in steps :: HandsIn(step)
    ensures Inv(After(plans, s, steps))
    decreases |steps|
  {
    if steps != [] {
      assert HandsIn(steps[0]);
      StepKeepsInv(plans, s, steps[0]);
      RunKeepsInv(plans, Next(plans, s, steps[0]), steps[1..]);
    }
  }

  /** In every interleaving of any number of async resolutions with registrations, overrides, scopes
      and sync resolutions: no singleton, nothing a resolution outside scopes has returned, and no
      argument collected for a build outside scopes reaches an object of a scope. */
  lemma NoCaptivesWhileSuspended(plans: map<Factory, seq<Dependency>>, steps: seq<Step>)
    requires CanRun(plans, START, steps)
    requires forall step | step in steps :: HandsIn(step)
    ensures var s := After(plans, START, steps);
      && (forall k, w | k in s.system.root && Reaches(s.system.root[k], w) :: !ScopeBound(w))
      && (forall a, w | a in s.answers && a.within.None? && Reaches(a.value, w) :: !ScopeBound(w))
      && forall t, f, a, w |
           && t in s.tasks && f in s.tasks[t].frames && f.Building? && f.within.None?
           && a in f.args && Reaches(a.value, w) ::
           !ScopeBound(w)
  {
    RunKeepsInv(plans, START, steps);
    var s := After(plans, START, steps);
    forall k | k in s.system.root { FreeReachesNoScope(s.system.root[k]); }
    forall a | a in s.answers && a.within.None? { FreeReachesNoScope(a.value); }
    forall t, f, a | t in s.tasks && f in s.tasks[t].frames && f.Building? && f.within.None? && a in f.args
      ensures forall w | Reaches(a.value, w) :: !ScopeBound(w)
    {
      EveryFrameIsFree(s.tasks[t].within, s.tasks[t].frames, s.futures);
      assert FrameIsFree(f, s.futures);
      FreeReachesNoScope(a.value);
    }
  }
}
