/** Suspended resolutions give what was asked for: whatever interleaves with them, each is answered with an object
    of its key, handed in for it or made by a factory registered for it from arguments that are as genuine. */
module AsyncProvenance {
  import opened DependencyGraph
  import opened Captivity
  import opened AsyncCaptivity
  import opened Provenance

  // --- The invariant ------------------------------------------------------------------------

  /** The parameters before `deps` have been given `args`. */
  ghost predicate Collected(plans: Plans, from: iset<Operation>, plan: seq<Dependency>, deps: seq<Dependency>,
                            args: seq<Argument>)
  {
    && |deps| <= |plan| && plan[|plan| - |deps|..] == deps
    && Serves(plans, from, plan[..|plan| - |deps|], args)
  }

  ghost predicate Follows(plans: Plans, from: iset<Operation>, f: Factory, deps: seq<Dependency>, args: seq<Argument>) {
    if f.Constant? then deps == [] else f in plans && Collected(plans, from, plans[f], deps, args)
  }

  ghost predicate FrameIsSound(plans: Plans, from: iset<Operation>, f: Frame, futures: seq<Future>) {
    match f
    case Joining(id) => id < |futures|
    case Building(_, key, p, future, deps, args, stage) =>
      && Provides(from, key, p) && Follows(plans, from, p.factory, deps, args)
      && (future.Some? ==> future.value < |futures| && futures[future.value].key == key)
      && (!stage.Collecting? ==> Genuine(plans, from, key, stage.value)) && (stage.Stored? ==> future.Some?)
  }

  /** The key a frame will have an object for. */
  ghost predicate IsFor(f: Frame, key: Key, futures: seq<Future>) {
    if f.Building? then f.key == key else f.build < |futures| && futures[f.build].key == key
  }

  /** What the frames below ask for: the next parameter, or the key of the task. */
  ghost predicate IsWanted(asked: Key, outer: seq<Frame>, key: Key) {
    if outer == [] then key == Unwrap(asked)
    else
      var top := outer[|outer| - 1];
      top.Building? && top.deps != [] && key == Unwrap(Target(top.deps[0]))
  }

  ghost predicate Answers(plans: Plans, from: iset<Operation>, asked: Key, outer: seq<Frame>, f: Frame,
                          futures: seq<Future>)
  {
    FrameIsSound(plans, from, f, futures) && exists key :: IsFor(f, key, futures) && IsWanted(asked, outer, key)
  }

  ghost predicate StackIsSound(plans: Plans, from: iset<Operation>, asked: Key, frames: seq<Frame>,
                               futures: seq<Future>)
    decreases |frames|
  {
    frames != [] ==>
      && Answers(plans, from, asked, frames[..|frames| - 1], frames[|frames| - 1], futures)
      && StackIsSound(plans, from, asked, frames[..|frames| - 1], futures)
  }

  ghost predicate TaskIsSound(plans: Plans, from: iset<Operation>, t: Task, futures: seq<Future>) {
    StackIsSound(plans, from, t.asked, t.frames, futures)
  }

  ghost predicate FuturesAreSound(plans: Plans, from: iset<Operation>, futures: seq<Future>) {
    forall f | f in futures && f.outcome.Settled? :: Genuine(plans, from, f.key, f.outcome.value)
  }

  ghost predicate PendingFits(pending: map<(Option<nat>, Key), nat>, futures: seq<Future>) {
    forall p | p in pending :: pending[p] < |futures| && futures[pending[p]].key == p.1
  }

  ghost predicate Sane(plans: Plans, from: iset<Operation>, s: State) {
    && Accounted(plans, from, s.system)
    && (forall t | t in s.tasks :: TaskIsSound(plans, from, s.tasks[t], s.futures))
    && FuturesAreSound(plans, from, s.futures)
    && PendingFits(s.pending, s.futures)
    && forall a | a in s.answers :: Genuine(plans, from, Unwrap(a.asked), a.value)
  }

  ghost predicate SameKeys(futures: seq<Future>, futures': seq<Future>) {
    |futures| <= |futures'| && forall i | 0 <= i < |futures| :: futures'[i].key == futures[i].key
  }

  lemma {:induction false} StackStaysSound(plans: Plans, from: iset<Operation>, asked: Key, frames: seq<Frame>,
                                           futures: seq<Future>, futures': seq<Future>)
    requires StackIsSound(plans, from, asked, frames, futures) && SameKeys(futures, futures')
    ensures StackIsSound(plans, from, asked, frames, futures')
    decreases |frames|
  {
    if frames != [] {
      var outer, top := frames[..|frames| - 1], frames[|frames| - 1];
      StackStaysSound(plans, from, asked, outer, futures, futures');
      var key :| IsFor(top, key, futures) && IsWanted(asked, outer, key);
      assert IsFor(top, key, futures');
    }
  }

  // --- Parameters ---------------------------------------------------------------------------

  lemma {:induction false} KeepsOneMore(plan: seq<Dependency>, kept: seq<Dependency>, d: Dependency)
    requires Keeps(plan, kept)
    ensures d.hasDefault ==> Keeps(plan + [d], kept)
    ensures Keeps(plan + [d], kept + [d])
    decreases |plan|
  {
    if plan == [] {
      assert plan + [d] == [d] && [d][1..] == [] && ([] + [d])[1..] == [];
    } else {
      assert (plan + [d])[1..] == plan[1..] + [d];
      if plan[0].hasDefault && Keeps(plan[1..], kept) {
        KeepsOneMore(plan[1..], kept, d);
      } else {
        KeepsOneMore(plan[1..], kept[1..], d);
        assert (kept + [d])[1..] == kept[1..] + [d];
      }
    }
  }

  lemma SkippedIsCollected(plans: Plans, from: iset<Operation>, plan: seq<Dependency>, deps: seq<Dependency>,
                           args: seq<Argument>)
    requires Collected(plans, from, plan, deps, args) && deps != [] && deps[0].hasDefault
    ensures Collected(plans, from, plan, deps[1..], args)
  {
    var n := |plan| - |deps|;
    var kept :| Keeps(plan[..n], kept) && Suit(plans, from, kept, args);
    KeepsOneMore(plan[..n], kept, deps[0]);
    assert plan[..n + 1] == plan[..n] + [deps[0]];
    assert Keeps(plan[..n + 1], kept);
  }

  lemma GivenIsCollected(plans: Plans, from: iset<Operation>, plan: seq<Dependency>, deps: seq<Dependency>,
                         args: seq<Argument>, v: Value)
    requires Collected(plans, from, plan, deps, args) && deps != []
    requires Genuine(plans, from, Unwrap(Target(deps[0])), v)
    ensures Collected(plans, from, plan, deps[1..], args + [Argument(deps[0].name, deps[0].positional, v)])
  {
    var n, args' := |plan| - |deps|, args + [Argument(deps[0].name, deps[0].positional, v)];
    var kept :| Keeps(plan[..n], kept) && Suit(plans, from, kept, args);
    KeepsOneMore(plan[..n], kept, deps[0]);
    assert plan[..n + 1] == plan[..n] + [deps[0]];
    assert Keeps(plan[..n + 1], kept + [deps[0]]);
    assert Suit(plans, from, kept + [deps[0]], args');
  }

  lemma NothingIsCollected(plans: Plans, from: iset<Operation>, plan: seq<Dependency>)
    ensures Collected(plans, from, plan, plan, [])
  {
    assert plan[..0] == [] && plan[0..] == plan;
    assert Keeps(plan[..0], []) && Suit(plans, from, [], []);
  }

  // --- Steps --------------------------------------------------------------------------------

  lemma FramesKeepSane(plans: Plans, from: iset<Operation>, s: State, task: nat, frames: seq<Frame>)
    requires Sane(plans, from, s) && task in s.tasks
    requires StackIsSound(plans, from, s.tasks[task].asked, frames, s.futures)
    ensures Sane(plans, from, WithFrames(s, task, frames))
  {
  }

  lemma TopReplacedKeepsSane(plans: Plans, from: iset<Operation>, s: State, task: nat, f: Frame)
    requires Sane(plans, from, s) && task in s.tasks && Busy(s, task)
    requires f.Building? && f.key == Top(s, task).key && FrameIsSound(plans, from, f, s.futures)
    ensures Sane(plans, from, WithFrames(s, task, Frames(s, task)[..|Frames(s, task)| - 1] + [f]))
  {
    var outer, asked := Frames(s, task)[..|Frames(s, task)| - 1], s.tasks[task].asked;
    assert (outer + [f])[..|outer|] == outer;
    assert TaskIsSound(plans, from, s.tasks[task], s.futures);
    var key :| IsFor(Top(s, task), key, s.futures) && IsWanted(asked, outer, key);
    assert IsFor(f, key, s.futures);
    FramesKeepSane(plans, from, s, task, outer + [f]);
  }

  lemma PushKeepsSane(plans: Plans, from: iset<Operation>, s: State, task: nat, f: Frame, key: Key)
    requires Sane(plans, from, s) && task in s.tasks && FrameIsSound(plans, from, f, s.futures)
    requires IsFor(f, key, s.futures) && IsWanted(s.tasks[task].asked, Frames(s, task), key)
    ensures Sane(plans, from, WithFrames(s, task, Frames(s, task) + [f]))
  {
    var outer := Frames(s, task);
    assert (outer + [f])[..|outer|] == outer;
    assert TaskIsSound(plans, from, s.tasks[task], s.futures);
    FramesKeepSane(plans, from, s, task, outer + [f]);
  }

  lemma TopIsSound(plans: Plans, from: iset<Operation>, s: State, task: nat)
    requires Sane(plans, from, s) && task in s.tasks && Frames(s, task) != []
    ensures FrameIsSound(plans, from, Top(s, task), s.futures)
    ensures Sane(plans, from, Popped(s, task))
  {
    assert TaskIsSound(plans, from, s.tasks[task], s.futures);
    FramesKeepSane(plans, from, s, task, Frames(s, task)[..|Frames(s, task)| - 1]);
  }

  lemma DeliveredKeepsSane(plans: Plans, from: iset<Operation>, s: State, task: nat, key: Key, v: Value)
    requires Sane(plans, from, s) && task in s.tasks && Awaits(Frames(s, task))
    requires IsWanted(s.tasks[task].asked, Frames(s, task), key) && Genuine(plans, from, key, v)
    ensures Sane(plans, from, Delivered(s, task, v))
  {
    if Frames(s, task) != [] {
      TopIsSound(plans, from, s, task);
      var top := Top(s, task);
      var d := top.deps[0];
      GivenIsCollected(plans, from, plans[top.provider.factory], top.deps, top.args, v);
      TopReplacedKeepsSane(plans, from, s, task,
                           top.(deps := top.deps[1..], args := top.args + [Argument(d.name, d.positional, v)]));
    }
  }

  lemma AbortedKeepsSane(plans: Plans, from: iset<Operation>, s: State, task: nat)
    requires Sane(plans, from, s)
    ensures Sane(plans, from, Aborted(s, task))
  {
    var s' := Aborted(s, task);
    forall t | t in s'.tasks ensures TaskIsSound(plans, from, s'.tasks[t], s'.futures) {
      StackStaysSound(plans, from, s.tasks[t].asked, s.tasks[t].frames, s.futures, s'.futures);
    }
    forall f | f in s'.futures && f.outcome.Settled? ensures Genuine(plans, from, f.key, f.outcome.value) {
      var i :| 0 <= i < |s'.futures| && s'.futures[i] == f;
      assert s.futures[i] in s.futures;
    }
  }

  lemma EnteredKeepsSane(plans: Plans, from: iset<Operation>, s: State, task: nat, within: Option<nat>, key: Key,
                         p: Provider, future: Option<nat>)
    requires Sane(plans, from, s) && task in s.tasks && Provides(from, key, p)
    requires IsWanted(s.tasks[task].asked, Frames(s, task), key)
    requires future.Some? ==> future.value < |s.futures| && s.futures[future.value].key == key
    ensures Sane(plans, from, Entered(plans, s, task, within, key, p, future))
  {
    var plan := Plan(Graph(s.system.providers, plans), p.factory);
    if plan.None? {
      AbortedKeepsSane(plans, from, s, task);
    } else {
      NothingIsCollected(plans, from, plan.value);
      PushKeepsSane(plans, from, s, task, Building(within, key, p, future, plan.value, [], Collecting), key);
    }
  }

  lemma PendingKeepsSane(plans: Plans, from: iset<Operation>, s: State, owner: Option<nat>, key: Key)
    requires Sane(plans, from, s)
    ensures Sane(plans, from, s.(futures := s.futures + [Future(owner.None?, key, Unsettled)],
                                 pending := s.pending[(owner, key) := |s.futures|]))
  {
    var futures := s.futures + [Future(owner.None?, key, Unsettled)];
    forall t | t in s.tasks ensures TaskIsSound(plans, from, s.tasks[t], futures) {
      StackStaysSound(plans, from, s.tasks[t].asked, s.tasks[t].frames, s.futures, futures);
    }
  }

  lemma CachedKeepsSane(plans: Plans, from: iset<Operation>, s: State, task: nat, owner: Option<nat>, key: Key,
                        p: Provider)
    requires Sane(plans, from, s) && task in s.tasks && Awaits(Frames(s, task)) && Provides(from, key, p)
    requires IsWanted(s.tasks[task].asked, Frames(s, task), key)
    ensures Sane(plans, from, Cached(plans, s, task, owner, key, p))
  {
    if key in Instances(s.system, owner) {
      DeliveredKeepsSane(plans, from, s, task, key, Instances(s.system, owner)[key]);
    } else if (owner, key) in s.pending {
      PushKeepsSane(plans, from, s, task, Joining(s.pending[(owner, key)]), key);
    } else {
      var s' := s.(futures := s.futures + [Future(owner.None?, key, Unsettled)],
                   pending := s.pending[(owner, key) := |s.futures|]);
      PendingKeepsSane(plans, from, s, owner, key);
      EnteredKeepsSane(plans, from, s', task, owner, key, p, Some(|s.futures|));
    }
  }

  lemma AskedKeepsSane(plans: Plans, from: iset<Operation>, s: State, task: nat, asked: Key)
    requires Sane(plans, from, s) && task in s.tasks && Awaits(Frames(s, task))
    requires IsWanted(s.tasks[task].asked, Frames(s, task), Unwrap(asked))
    ensures Sane(plans, from, Asked(plans, s, task, asked))
  {
    var key, within := Unwrap(asked), Engine(s, task);
    var g := Graph(s.system.providers, plans);
    AbortedKeepsSane(plans, from, s, task);
    if within.Some? && key in Instances(s.system, within) {
      DeliveredKeepsSane(plans, from, s, task, key, Instances(s.system, within)[key]);
    } else if Lookup(g, key).Ok? {
      var p := Lookup(g, key).value;
      FoundProvides(from, g, key);
      match p.lifetime
      case Transient => EnteredKeepsSane(plans, from, s, task, within, key, p, None);
      case Scoped => CachedKeepsSane(plans, from, s, task, within, key, p);
      case Singleton => CachedKeepsSane(plans, from, s, task, None, key, p);
    }
  }

  lemma AskKeepsSane(plans: Plans, from: iset<Operation>, s: State, task: nat)
    requires Sane(plans, from, s) && Enabled(s, Ask(task))
    ensures Sane(plans, from, Next(plans, s, Ask(task)))
  {
    if Frames(s, task) == [] {
      AskedKeepsSane(plans, from, s, task, s.tasks[task].asked);
    } else {
      TopIsSound(plans, from, s, task);
      var top := Top(s, task);
      if top.deps[0].hasDefault {
        SkippedIsCollected(plans, from, plans[top.provider.factory], top.deps, top.args);
        TopReplacedKeepsSane(plans, from, s, task, top.(deps := top.deps[1..]));
      }
      AskedKeepsSane(plans, from, s, task, Target(top.deps[0]));
    }
  }

  /** The factory is called with an argument for each parameter, in order. */
  lemma CallKeepsSane(plans: Plans, from: iset<Operation>, s: State, task: nat)
    requires Sane(plans, from, s) && Enabled(s, Call(task))
    ensures Sane(plans, from, Next(plans, s, Call(task)))
    ensures Genuine(plans, from, Top(s, task).key, Product(Top(s, task), s.system.serial))
  {
    TopIsSound(plans, from, s, task);
    var top := Top(s, task);
    if !top.provider.factory.Constant? {
      assert plans[top.provider.factory][..|plans[top.provider.factory]|] == plans[top.provider.factory];
      MadeIsGenuine(plans, from, top.key, top.provider, s.system.serial, top.args);
    }
    TopReplacedKeepsSane(plans, from, s, task, top.(stage := Made(Product(top, s.system.serial))));
  }

  lemma SettlingKeepsSane(plans: Plans, from: iset<Operation>, s: State, build: nat, v: Value)
    requires Sane(plans, from, s) && build < |s.futures| && Genuine(plans, from, s.futures[build].key, v)
    ensures Sane(plans, from, s.(futures := s.futures[build := s.futures[build].(outcome := Settled(v))]))
  {
    var futures := s.futures[build := s.futures[build].(outcome := Settled(v))];
    forall t | t in s.tasks ensures TaskIsSound(plans, from, s.tasks[t], futures) {
      StackStaysSound(plans, from, s.tasks[t].asked, s.tasks[t].frames, s.futures, futures);
    }
    assert forall f | f in futures :: f in s.futures || f == futures[build];
  }

  lemma StoringKeepsAccounts(plans: Plans, from: iset<Operation>, s: System, owner: Option<nat>, key: Key, v: Value)
    requires Accounted(plans, from, s) && Genuine(plans, from, key, v)
    ensures Accounted(plans, from, WithStored(s, owner, key, v))
  {
  }

  lemma StoreKeepsSane(plans: Plans, from: iset<Operation>, s: State, task: nat)
    requires Sane(plans, from, s) && Enabled(s, Store(task))
    ensures Sane(plans, from, Next(plans, s, Store(task)))
  {
    TopIsSound(plans, from, s, task);
    var top := Top(s, task);
    var s1 := WithTop(s, task, Stored(top.stage.value));
    TopReplacedKeepsSane(plans, from, s, task, top.(stage := Stored(top.stage.value)));
    StoringKeepsAccounts(plans, from, s.system, top.within, top.key, top.stage.value);
    var s2 := s1.(system := WithStored(s.system, top.within, top.key, top.stage.value));
    assert Sane(plans, from, s2);
    SettlingKeepsSane(plans, from, s2, top.future.value, top.stage.value);
  }

  lemma LeaveKeepsSane(plans: Plans, from: iset<Operation>, s: State, task: nat)
    requires Sane(plans, from, s) && Enabled(s, Leave(task))
    ensures Sane(plans, from, Next(plans, s, Leave(task)))
  {
    TopIsSound(plans, from, s, task);
    var top := Top(s, task);
    var s1 := s.(pending := if top.future.Some? then s.pending - {(top.within, top.key)} else s.pending);
    assert Sane(plans, from, s1);
    TopIsSound(plans, from, s1, task);
    assert TaskIsSound(plans, from, s.tasks[task], s.futures);
    DeliveredKeepsSane(plans, from, Popped(s1, task), task, top.key, top.stage.value);
  }

  lemma ResumeKeepsSane(plans: Plans, from: iset<Operation>, s: State, task: nat)
    requires Sane(plans, from, s) && Enabled(s, Resume(task))
    ensures Sane(plans, from, Next(plans, s, Resume(task)))
  {
    TopIsSound(plans, from, s, task);
    AbortedKeepsSane(plans, from, s, task);
    var future := s.futures[Top(s, task).build];
    if future.outcome.Settled? {
      assert future in s.futures && TaskIsSound(plans, from, s.tasks[task], s.futures);
      DeliveredKeepsSane(plans, from, Popped(s, task), task, future.key, future.outcome.value);
    }
  }

  /** Every step of every task keeps everything accounted for. */
  lemma StepKeepsSane(plans: Plans, from: iset<Operation>, s: State, step: Step)
    requires Sane(plans, from, s) && Enabled(s, step) && (step.Do? ==> step.op in from)
    ensures Sane(plans, from, Next(plans, s, step))
  {
    match step
    case Do(op) => OperationKeepsAccounts(plans, from, s.system, op);
    case Start(_, _, _) =>
    case Ask(task) => AskKeepsSane(plans, from, s, task);
    case Call(task) => CallKeepsSane(plans, from, s, task);
    case Store(task) => StoreKeepsSane(plans, from, s, task);
    case Leave(task) => LeaveKeepsSane(plans, from, s, task);
    case Resume(task) => ResumeKeepsSane(plans, from, s, task);
    case Abort(task) => AbortedKeepsSane(plans, from, s, task);
  }

  // --- Whole runs ---------------------------------------------------------------------------

  lemma {:induction false} RunKeepsSane(plans: Plans, from: iset<Operation>, s: State, steps: seq<Step>)
    requires Sane(plans, from, s) && CanRun(plans, s, steps)
    requires forall step | step in steps && step.Do? :: step.op in from
    ensures Sane(plans, from, After(plans, s, steps))
    decreases |steps|
  {
    if steps != [] {
      assert steps[0] in steps;
      StepKeepsSane(plans, from, s, steps[0]);
      RunKeepsSane(plans, from, Next(plans, s, steps[0]), steps[1..]);
    }
  }

  /** In every interleaving, each async resolution that returns is answered with an object of the key it asked
      for; and so is what is kept in the container and its scopes, and what joined builds share. */
  lemma EveryAnswerIsAccountedFor(plans: Plans, steps: seq<Step>)
    requires CanRun(plans, START, steps)
    ensures var s, from := After(plans, START, steps), iset op | Do(op) in steps;
      && (forall a | a in s.answers :: Genuine(plans, from, Unwrap(a.asked), a.value))
      && (forall k | k in s.system.root :: Genuine(plans, from, k, s.system.root[k]))
      && (forall scope, k | scope in s.system.scopes && k in s.system.scopes[scope] ::
            Genuine(plans, from, k, s.system.scopes[scope][k]))
      && forall f | f in s.futures && f.outcome.Settled? :: Genuine(plans, from, f.key, f.outcome.value)
  {
    var from := iset op | Do(op) in steps;
    RunKeepsSane(plans, from, START, steps);
  }

  /** A task is only ever held up by a build it has joined and that is not settled. */
  lemma TasksAreHeldUpByBuildsOnly(plans: Plans, steps: seq<Step>, task: nat)
    requires CanRun(plans, START, steps) && task in After(plans, START, steps).tasks
    ensures var s := After(plans, START, steps);
      || Enabled(s, Ask(task)) || Enabled(s, Call(task)) || Enabled(s, Store(task)) || Enabled(s, Leave(task))
      || Enabled(s, Resume(task))
      || (Frames(s, task) != [] && Top(s, task).Joining? && Top(s, task).build < |s.futures|
          && s.futures[Top(s, task).build].outcome.Unsettled?)
  {
    var from := iset op | Do(op) in steps;
    RunKeepsSane(plans, from, START, steps);
    SaneTaskCanMove(plans, from, After(plans, START, steps), task);
  }

  lemma SaneTaskCanMove(plans: Plans, from: iset<Operation>, s: State, task: nat)
    requires Sane(plans, from, s) && task in s.tasks
    ensures
      || Enabled(s, Ask(task)) || Enabled(s, Call(task)) || Enabled(s, Store(task)) || Enabled(s, Leave(task))
      || Enabled(s, Resume(task))
      || (Frames(s, task) != [] && Top(s, task).Joining? && Top(s, task).build < |s.futures|
          && s.futures[Top(s, task).build].outcome.Unsettled?)
  {
    assert TaskIsSound(plans, from, s.tasks[task], s.futures);
  }

  // --- What each step does ------------------------------------------------------------------

  /** `v` is the next argument of the innermost build, or what the whole resolution returns. */
  ghost predicate Gets(s: State, s': State, task: nat, v: Value)
    requires task in s.tasks
  {
    var frames := s.tasks[task].frames;
    && s'.system == s.system && s'.futures == s.futures && s'.pending == s.pending
    && s'.tasks - {task} == s.tasks - {task}
    && if frames == [] then
         && task !in s'.tasks
         && s'.answers == s.answers + [Answer(s.tasks[task].within, s.tasks[task].asked, v)]
       else
         var top := frames[|frames| - 1];
         && top.Building? && top.deps != [] && task in s'.tasks && s'.answers == s.answers
         && s'.tasks[task].frames
         == frames[..|frames| - 1] + [top.(deps := top.deps[1..],
                                           args := top.args + [Argument(top.deps[0].name, top.deps[0].positional, v)])]
  }

  ghost predicate Pushes(s: State, s': State, task: nat, f: Frame)
    requires task in s.tasks
  {
    && s'.system == s.system && s'.answers == s.answers && s'.tasks - {task} == s.tasks - {task}
    && task in s'.tasks && s'.tasks[task].frames == s.tasks[task].frames + [f]
  }

  /** A build with a frame of its own; a factory that cannot be inspected ends the task. */
  ghost predicate Builds(plans: Plans, s: State, s': State, task: nat, within: Option<nat>, key: Key, p: Provider,
                         future: Option<nat>)
    requires task in s.tasks
  {
    if p.factory.Constant? then Pushes(s, s', task, Building(within, key, p, future, [], [], Collecting))
    else if p.factory in plans then
      Pushes(s, s', task, Building(within, key, p, future, plans[p.factory], [], Collecting))
    else task !in s'.tasks
  }

  /** A kept object is used, a pending build is joined, and otherwise one is announced before it is started. */
  ghost predicate Shares(plans: Plans, s: State, s': State, task: nat, owner: Option<nat>, key: Key, p: Provider)
    requires task in s.tasks
  {
    var kept := if owner.None? then s.system.root
                else if owner.value in s.system.scopes then s.system.scopes[owner.value] else map[];
    if key in kept then Gets(s, s', task, kept[key])
    else if (owner, key) in s.pending then
      Pushes(s, s', task, Joining(s.pending[(owner, key)])) && s'.futures == s.futures && s'.pending == s.pending
    else
      && Builds(plans, s, s', task, owner, key, p, Some(|s.futures|))
      && (task in s'.tasks ==> s'.futures == s.futures + [Future(owner.None?, key, Unsettled)]
                               && s'.pending == s.pending[(owner, key) := |s.futures|])
  }

  /** What asking for `asked` comes to, in the scope `within` or in none. */
  ghost predicate Decides(plans: Plans, s: State, s': State, task: nat, within: Option<nat>, asked: Key)
    requires task in s.tasks
  {
    var key := Plain(asked.t);
    var scope := if within.Some? && within.value in s.system.scopes then s.system.scopes[within.value] else map[];
    if exists f :: f in s.tasks[task].frames && f.Building? && f.key == key then task !in s'.tasks
    else if key in scope then Gets(s, s', task, scope[key])
    else if key !in s.system.providers then
      if key.t.Class? && key.t.shape == Concrete then
        Builds(plans, s, s', task, within, key, Provider(ClassOf(key), Transient), None)
      else task !in s'.tasks
    else
      var p := s.system.providers[key];
      match p.lifetime
      case Transient => Builds(plans, s, s', task, within, key, p, None)
      case Scoped => if within.None? then task !in s'.tasks else Shares(plans, s, s', task, within, key, p)
      case Singleton => Shares(plans, s, s', task, None, key, p)
  }

  lemma DeliveredIsGot(s: State, task: nat, v: Value)
    requires task in s.tasks && Awaits(Frames(s, task))
    ensures Gets(s, Delivered(s, task, v), task, v)
  {
  }

  lemma EnteredBuilds(plans: Plans, s: State, task: nat, within: Option<nat>, key: Key, p: Provider,
                      future: Option<nat>)
    requires task in s.tasks
    ensures var s' := Entered(plans, s, task, within, key, p, future);
      && Builds(plans, s, s', task, within, key, p, future)
      && (task in s'.tasks ==> s'.futures == s.futures && s'.pending == s.pending)
  {
  }

  lemma CachedIsShared(plans: Plans, s: State, task: nat, owner: Option<nat>, key: Key, p: Provider)
    requires task in s.tasks && Awaits(Frames(s, task))
    ensures Shares(plans, s, Cached(plans, s, task, owner, key, p), task, owner, key, p)
  {
    if key in Instances(s.system, owner) {
      DeliveredIsGot(s, task, Instances(s.system, owner)[key]);
    } else if (owner, key) !in s.pending {
      var s1 := s.(futures := s.futures + [Future(owner.None?, key, Unsettled)],
                   pending := s.pending[(owner, key) := |s.futures|]);
      EnteredBuilds(plans, s1, task, owner, key, p, Some(|s.futures|));
    }
  }

  lemma AskingProvider(plans: Plans, s: State, task: nat, asked: Key)
    requires task in s.tasks && Awaits(Frames(s, task)) && Plain(asked.t) in s.system.providers
    requires !OnStack(Frames(s, task), Plain(asked.t))
    requires Engine(s, task).Some? ==> Plain(asked.t) !in Instances(s.system, Engine(s, task))
    ensures Decides(plans, s, Asked(plans, s, task, asked), task, Engine(s, task), asked)
  {
    var key, within, p := Plain(asked.t), Engine(s, task), s.system.providers[Plain(asked.t)];
    match p.lifetime
    case Transient =>
      EnteredBuilds(plans, s, task, within, key, p, None);
      assert Asked(plans, s, task, asked) == Entered(plans, s, task, within, key, p, None);
    case Scoped =>
      CachedIsShared(plans, s, task, within, key, p);
      assert within.Some? ==> Asked(plans, s, task, asked) == Cached(plans, s, task, within, key, p);
    case Singleton =>
      CachedIsShared(plans, s, task, None, key, p);
      assert Asked(plans, s, task, asked) == Cached(plans, s, task, None, key, p);
  }

  lemma AskingDecides(plans: Plans, s: State, task: nat, asked: Key)
    requires task in s.tasks && Awaits(Frames(s, task))
    ensures Decides(plans, s, Asked(plans, s, task, asked), task, Engine(s, task), asked)
  {
    var key, within := Plain(asked.t), Engine(s, task);
    if OnStack(Frames(s, task), key) {
      assert Asked(plans, s, task, asked) == Aborted(s, task);
    } else if within.Some? && key in Instances(s.system, within) {
      DeliveredIsGot(s, task, Instances(s.system, within)[key]);
    } else if key in s.system.providers {
      AskingProvider(plans, s, task, asked);
    } else {
      EnteredBuilds(plans, s, task, within, key, Provider(ClassOf(key), Transient), None);
      assert Asked(plans, s, task, asked) == if key.t.Class? && key.t.shape == Concrete
        then Entered(plans, s, task, within, key, Provider(ClassOf(key), Transient), None) else Aborted(s, task);
    }
  }

  /** A task starts with the key it was given, and a build goes on with its next parameter, unless that has a
      default and is neither registered nor an object of the scope. */
  lemma ParametersAreAskedInOrder(plans: Plans, s: State, task: nat)
    requires Enabled(s, Ask(task))
    ensures var frames, s' := s.tasks[task].frames, Next(plans, s, Ask(task));
      if frames == [] then Decides(plans, s, s', task, s.tasks[task].within, s.tasks[task].asked)
      else
        var outer, top := frames[..|frames| - 1], frames[|frames| - 1];
        var scope := if top.within.Some? && top.within.value in s.system.scopes
                     then s.system.scopes[top.within.value] else map[];
        var d := top.deps[0];
        if d.hasDefault && Target(d) !in s.system.providers && Target(d) !in scope then
          s' == s.(tasks := s.tasks[task := s.tasks[task].(frames := outer + [top.(deps := top.deps[1..])])])
        else Decides(plans, s, s', task, top.within, Target(d))
  {
    var frames := s.tasks[task].frames;
    AskingDecides(plans, s, task, if frames == [] then s.tasks[task].asked else Target(Top(s, task).deps[0]));
  }

  /** The call makes the object out of what was collected. */
  lemma CallsMakeTheObject(plans: Plans, s: State, task: nat)
    requires Enabled(s, Call(task))
    ensures var s', top, n := Next(plans, s, Call(task)), Top(s, task), |s.tasks[task].frames| - 1;
      var v := if top.provider.factory.Constant? then top.provider.factory.value
               else Built(s.system.serial, top.key, top.provider.lifetime, top.args);
      && s'.system == s.system.(serial := s.system.serial + 1)
      && s'.tasks[task].frames == s.tasks[task].frames[..n] + [top.(stage := Made(v))]
  {
  }

  /** The object is kept and shared before anything else can happen. */
  lemma ObjectsAreKeptAndShared(plans: Plans, s: State, task: nat)
    requires Enabled(s, Store(task)) && Top(s, task).future.value < |s.futures|
    ensures var s', top, n := Next(plans, s, Store(task)), Top(s, task), |s.tasks[task].frames| - 1;
      var v, build := top.stage.value, top.future.value;
      && s'.tasks[task].frames == s.tasks[task].frames[..n] + [top.(stage := Stored(v))]
      && s'.futures == s.futures[build := s.futures[build].(outcome := Settled(v))]
      && if top.within.None? then s'.system == s.system.(root := s.system.root[top.key := v])
         else
           && s'.system.root == s.system.root && top.within.value in s'.system.scopes
           && top.key in s'.system.scopes[top.within.value] && s'.system.scopes[top.within.value][top.key] == v
  {
  }

  /** The pending entry goes and the object is handed up. */
  lemma ObjectsAreHandedUp(plans: Plans, s: State, task: nat)
    requires Enabled(s, Leave(task))
    ensures var top, outer := Top(s, task), Frames(s, task)[..|Frames(s, task)| - 1];
      var pending := if top.future.Some? then s.pending - {(top.within, top.key)} else s.pending;
      Gets(s.(tasks := s.tasks[task := s.tasks[task].(frames := outer)], pending := pending),
           Next(plans, s, Leave(task)), task, top.stage.value)
  {
  }

  /** Who joined a build is given its outcome, and fails when it failed. */
  lemma JoinersShareTheOutcome(plans: Plans, s: State, task: nat)
    requires Enabled(s, Resume(task))
    ensures var outer, s' := Frames(s, task)[..|Frames(s, task)| - 1], Next(plans, s, Resume(task));
      match s.futures[Top(s, task).build].outcome
      case Unsettled => false
      case Settled(v) => Gets(s.(tasks := s.tasks[task := s.tasks[task].(frames := outer)]), s', task, v)
      case Raised => task !in s'.tasks && s'.system == s.system && s'.answers == s.answers
  {
  }

  /** A task that fails settles each of its builds as failed and takes their pending entries with it. */
  lemma FailuresEndTheirBuilds(plans: Plans, s: State, task: nat, build: nat)
    requires Enabled(s, Abort(task)) && build < |s.futures|
    ensures var s', mine := Next(plans, s, Abort(task)),
                            exists f :: f in s.tasks[task].frames && f.Building? && f.future == Some(build);
      && s'.tasks == s.tasks - {task} && s'.system == s.system && s'.answers == s.answers
      && |s'.futures| == |s.futures|
      && s'.futures[build] == (if mine && s.futures[build].outcome == Unsettled
                               then s.futures[build].(outcome := Raised) else s.futures[build])
      && forall p | p in s.pending && s.pending[p] == build :: p in s'.pending <==> !mine
  {
  }

  /** Registrations, scopes and sync resolutions come in anywhere; a task starts in an open scope or in none; and it
      can fail or be cancelled wherever it is. */
  lemma AnythingCanComeBetween(s: State, op: Operation, task: nat, within: Option<nat>, key: Key)
    ensures Enabled(s, Do(op))
    ensures Enabled(s, Start(task, within, key)) <==>
      task !in s.tasks && (within == None || within.value in s.system.scopes)
    ensures Enabled(s, Abort(task)) <==> task in s.tasks
  {
  }
}
