/** A producer task pulling items on demand, one consumer, and cancellation from anywhere. */
module Stream {

  datatype Option<+T> = None | Some(value: T)

  /** A future of one demand. */
  datatype Future = Pending | Item(value: nat) | Done | Failed | Cancelled

  /** The readiness future; `Ready(true)` carries a response of its own. */
  datatype Readiness = NotReady | Ready(response: bool) | NeverReady | ReadyCancelled

  datatype Producer = AwaitMarker | AwaitDemand | Pulling(demand: nat) | Closing | Finished

  datatype Consumer = Idle | Putting(demand: nat) | Awaiting(demand: nat) | Leaving

  /** `cancelling`: the producer's task has been told to cancel and has not noticed yet.
      The last five fields are history. */
  datatype State = State(
    producer: Producer,
    cancelling: bool,
    ready: Readiness,
    queue: Option<nat>,
    futures: seq<Future>,
    consumer: Consumer,
    pulled: seq<nat>,
    returned: seq<nat>,
    advances: nat,
    demands: nat,
    closes: nat)

  /** The producer's task has started: it is advancing the source for the marker. */
  const START := State(AwaitMarker, false, NotReady, None, [], Idle, [], [], 1, 0, 0)

  datatype Arrival = Marker(response: bool) | NoMarker

  datatype Step =
    | MarkerArrives(first: Arrival)        // or the source fails before giving one
    | TakeDemand
    | ItemArrives(value: nat)
    | SourceStops
    | SourceFails
    | NoticeCancel(asError: bool)          // the source may answer with an error of its own
    | CloseReturns
    | Ask                                  // the consumer calls __anext__
    | Put
    | Receive
    | CancelConsumer
    | Left                                 // its aclose() returns
    | RequestClose                         // close(), or aclose() by someone else

  function Settled(s: State, d: nat, f: Future): State {
    if d < |s.futures| && s.futures[d].Pending? then s.(futures := s.futures[d := f]) else s
  }

  /** The producer runs its finally clause: it calls the source's close. */
  function Ending(s: State): State {
    s.(producer := Closing, closes := s.closes + 1)
  }

  predicate Live(s: State) {
    !s.cancelling && !s.producer.Closing? && !s.producer.Finished?
  }

  predicate Enabled(s: State, step: Step) {
    match step
    case MarkerArrives(_) => s.producer.AwaitMarker? && !s.cancelling
    case TakeDemand => s.producer.AwaitDemand? && !s.cancelling && s.queue.Some?
    case ItemArrives(_) => s.producer.Pulling? && !s.cancelling
    case SourceStops => s.producer.Pulling? && !s.cancelling
    case SourceFails => s.producer.Pulling? && !s.cancelling
    case NoticeCancel(_) => s.cancelling && !s.producer.Finished?
    case CloseReturns => s.producer.Closing? && !s.cancelling
    case Ask => s.consumer.Idle?
    case Put => s.consumer.Putting? && s.queue.None?
    case Receive => s.consumer.Awaiting? && s.consumer.demand < |s.futures| && !s.futures[s.consumer.demand].Pending?
    case CancelConsumer => !s.consumer.Idle?
    case Left => s.consumer.Leaving? && s.producer.Finished?
    case RequestClose => true
  }

  /** task.cancel(), which does nothing to a task that is done. */
  function Cancelling(s: State): State {
    s.(cancelling := !s.producer.Finished?)
  }

  function Next(s: State, step: Step): State
    requires Enabled(s, step)
  {
    match step
    case MarkerArrives(Marker(response)) =>
      var s' := s.(ready := Ready(response));
      if response then Ending(s') else s'.(producer := AwaitDemand)
    case MarkerArrives(NoMarker) => Ending(s.(ready := NeverReady))
    case TakeDemand => s.(producer := Pulling(s.queue.value), queue := None, advances := s.advances + 1)
    case ItemArrives(v) => Settled(s, s.producer.demand, Item(v)).(producer := AwaitDemand, pulled := s.pulled + [v])
    case SourceStops => Ending(Settled(s, s.producer.demand, Done))
    case SourceFails => Ending(Settled(s, s.producer.demand, Failed))
    case NoticeCancel(asError) =>
      var s' := s.(cancelling := false);
      (match s.producer
       case AwaitMarker => Ending(s'.(ready := if asError then NeverReady else ReadyCancelled))
       case AwaitDemand => Ending(s')
       case Pulling(d) => Ending(Settled(s', d, if asError then Failed else Cancelled))
       case Closing => s'.(producer := Finished)
       case Finished => s')
    case CloseReturns => s.(producer := Finished)
    case Ask =>
      if s.producer.Finished? then s
      else s.(futures := s.futures + [Pending], consumer := Putting(|s.futures|))
    case Put => s.(queue := Some(s.consumer.demand), consumer := Awaiting(s.consumer.demand), demands := s.demands + 1)
    case Receive =>
      var f := s.futures[s.consumer.demand];
      if f.Item? then s.(consumer := Idle, returned := s.returned + [f.value])
      else Cancelling(s.(consumer := Leaving))
    case CancelConsumer =>
      // a cancelled wait cancels the future it waits for; a cancelled aclose() is given up
      var s' := if s.consumer.Awaiting? then Settled(s, s.consumer.demand, Cancelled) else s;
      Cancelling(s'.(consumer := if s.consumer.Leaving? then Idle else Leaving))
    case Left => s.(consumer := Idle)
    case RequestClose => Cancelling(s)
  }

  // --- The invariant ----------------------------------------------------------------------

  /** While nobody has cancelled, producer and consumer are in step. */
  ghost predicate InStep(s: State) {
    && (s.consumer.Idle? || s.consumer.Putting? ==>
          s.queue.None? && !s.producer.Pulling? && s.returned == s.pulled)
    && (s.consumer.Putting? ==> s.consumer.demand < |s.futures| && s.futures[s.consumer.demand].Pending?)
    && (s.consumer.Awaiting? ==>
          && s.consumer.demand < |s.futures|
          && match s.futures[s.consumer.demand]
             case Pending =>
               && s.returned == s.pulled
               && if s.producer.Pulling? then s.producer.demand == s.consumer.demand && s.queue.None?
                  else s.queue == Some(s.consumer.demand)
             case Item(v) => s.queue.None? && s.producer.AwaitDemand? && s.pulled == s.returned + [v]
             case _ => false)
    && !s.consumer.Leaving?
  }

  ghost predicate Inv(s: State) {
    && s.returned <= s.pulled
    && (s.consumer.Awaiting? && s.consumer.demand < |s.futures| && s.futures[s.consumer.demand].Item? ==>
          s.pulled == s.returned + [s.futures[s.consumer.demand].value])
    && (Live(s) ==> InStep(s))
    && (s.consumer.Putting? ==>
          && s.consumer.demand < |s.futures| && s.futures[s.consumer.demand].Pending?
          && s.queue != Some(s.consumer.demand) && s.producer != Pulling(s.consumer.demand))
    && (s.consumer.Awaiting? ==> s.consumer.demand < |s.futures|)
    && (s.queue.Some? ==> s.queue.value < |s.futures|)
    && (s.producer.Pulling? ==> s.producer.demand < |s.futures|)
    && (s.producer.Finished? ==> !s.cancelling)
    // one advance for the marker and one for each demand taken from the queue
    && s.advances + (if s.queue.Some? then 1 else 0) == 1 + s.demands
    && (s.producer.AwaitMarker? ==> s.pulled == [] && s.advances == 1 && s.ready.NotReady?)
    && (!s.producer.AwaitMarker? ==> !s.ready.NotReady?)
    && (s.producer.AwaitDemand? || s.producer.Pulling? ==> s.ready == Ready(false))
    && (s.advances > 1 || s.pulled != [] ==> s.ready == Ready(false))
    && |s.pulled| < s.advances
    && (s.producer.Pulling? ==> |s.pulled| + 1 < s.advances)
    && s.closes == if s.producer.Closing? || s.producer.Finished? then 1 else 0
  }

  lemma StepKeepsInv(s: State, step: Step)
    requires Inv(s) && Enabled(s, step)
    ensures Inv(Next(s, step))
  {
  }

  // --- Whole runs -------------------------------------------------------------------------

  ghost predicate CanRun(s: State, steps: seq<Step>)
    decreases |steps|
  {
    steps == [] || (Enabled(s, steps[0]) && CanRun(Next(s, steps[0]), steps[1..]))
  }

  ghost function After(s: State, steps: seq<Step>): State
    requires CanRun(s, steps)
    decreases |steps|
  {
    if steps == [] then s else After(Next(s, steps[0]), steps[1..])
  }

  lemma {:induction false} RunKeepsInv(s: State, steps: seq<Step>)
    requires Inv(s) && CanRun(s, steps)
    ensures Inv(After(s, steps))
    decreases |steps|
  {
    if steps != [] {
      StepKeepsInv(s, steps[0]);
      RunKeepsInv(Next(s, steps[0]), steps[1..]);
    }
  }

  /** In every interleaving of producer, consumer and cancellation: what was returned is a prefix
      of what the source yielded, in order, at most one item behind; the source was advanced
      once for the marker and at most once per demand; nothing was pulled before a marker
      without a response of its own; and the source is closed exactly once, when the producer
      ends. */
  lemma StreamIsSafe(steps: seq<Step>)
    requires CanRun(START, steps)
    ensures var s := After(START, steps);
      && s.returned <= s.pulled && |s.pulled| < s.advances <= 1 + s.demands
      && (s.advances > 1 || s.pulled != [] ==> s.ready == Ready(false))
      && (s.closes == 1 <==> s.producer.Closing? || s.producer.Finished?) && s.closes <= 1
      && (Live(s) ==> |s.pulled| <= |s.returned| + 1)
  {
    RunKeepsInv(START, steps);
  }

  /** Nothing already returned changes, and nothing is pulled once the producer has ended. */
  lemma HistoryGrows(s: State, step: Step)
    requires Inv(s) && Enabled(s, step)
    ensures s.returned <= Next(s, step).returned && s.pulled <= Next(s, step).pulled
    ensures s.closes == 1 ==>
      Next(s, step).closes == 1 && Next(s, step).pulled == s.pulled && Next(s, step).advances == s.advances
    ensures !s.ready.NotReady? ==> Next(s, step).ready == s.ready
  {
  }

  // --- What a demand and the readiness become ------------------------------------------------------

  /** A demand that is pulled for becomes an item exactly when the source yields it, the end exactly when the
      source stops, a failure exactly when it raises, also in answer to a cancellation, and is cancelled
      exactly when the producer or its own consumer is. */
  lemma DemandsBecomeExactly(s: State, step: Step, d: nat)
    requires Inv(s) && Enabled(s, step) && d < |s.futures| && s.futures[d] == Pending
    ensures var f, pulling := Next(s, step).futures[d], s.producer == Pulling(d);
      && (forall v :: f == Item(v) <==> pulling && step == ItemArrives(v))
      && (f == Done <==> pulling && step == SourceStops)
      && (f == Failed <==> pulling && (step == SourceFails || step == NoticeCancel(true)))
      && (f == Cancelled <==> (pulling && step == NoticeCancel(false))
                              || (step == CancelConsumer && s.consumer == Awaiting(d)))
  {
  }

  lemma SettledStays(s: State, step: Step, d: nat)
    requires Inv(s) && Enabled(s, step) && d < |s.futures| && s.futures[d] != Pending
    ensures Next(s, step).futures[d] == s.futures[d]
  {
  }

  /** The stream becomes ready exactly with its marker; without one it fails when the source does, or is
      cancelled. */
  lemma ReadinessBecomesExactly(s: State, step: Step)
    requires Inv(s) && Enabled(s, step) && s.ready == NotReady
    ensures var ready := Next(s, step).ready;
      && (forall response :: ready == Ready(response) <==> step == MarkerArrives(Marker(response)))
      && (ready == NeverReady <==> step == MarkerArrives(NoMarker) || step == NoticeCancel(true))
      && (ready == ReadyCancelled <==> step == NoticeCancel(false))
  {
  }

  /** What the source has yielded, in order. */
  ghost function Yielded(steps: seq<Step>): seq<nat>
    decreases |steps|
  {
    if steps == [] then []
    else (if steps[0].ItemArrives? then [steps[0].value] else []) + Yielded(steps[1..])
  }

  lemma StepPulls(s: State, step: Step)
    requires Inv(s) && Enabled(s, step)
    ensures Next(s, step).pulled == s.pulled + if step.ItemArrives? then [step.value] else []
  {
  }

  lemma {:induction false} PulledIsYielded(s: State, steps: seq<Step>)
    requires Inv(s) && CanRun(s, steps)
    ensures After(s, steps).pulled == s.pulled + Yielded(steps)
    decreases |steps|
  {
    if steps == [] {
      assert s.pulled + [] == s.pulled;
    } else {
      var next := Next(s, steps[0]);
      StepKeepsInv(s, steps[0]);
      StepPulls(s, steps[0]);
      PulledIsYielded(next, steps[1..]);
      var first := if steps[0].ItemArrives? then [steps[0].value] else [];
      assert (s.pulled + first) + Yielded(steps[1..]) == s.pulled + (first + Yielded(steps[1..]));
    }
  }

  /** How a run must have gone for a future to be as it is. */
  ghost predicate Because(f: Future, steps: seq<Step>) {
    match f
    case Pending => true
    case Item(v) => ItemArrives(v) in steps
    case Done => SourceStops in steps
    case Failed => SourceFails in steps || NoticeCancel(true) in steps
    case Cancelled => NoticeCancel(false) in steps || CancelConsumer in steps
  }

  lemma StepHasCause(s: State, step: Step, d: nat)
    requires Inv(s) && Enabled(s, step) && d < |Next(s, step).futures|
    ensures (d < |s.futures| && s.futures[d] == Next(s, step).futures[d]) || Because(Next(s, step).futures[d], [step])
  {
    if d < |s.futures| {
      if s.futures[d] == Pending { DemandsBecomeExactly(s, step, d); } else { SettledStays(s, step, d); }
    }
  }

  lemma LaterIsStillBecause(f: Future, step: Step, rest: seq<Step>)
    requires Because(f, [step]) || Because(f, rest)
    ensures Because(f, [step] + rest)
  {
  }

  lemma {:induction false} OutcomesHaveCauses(s: State, steps: seq<Step>, d: nat)
    requires Inv(s) && CanRun(s, steps) && d < |After(s, steps).futures|
    ensures (d < |s.futures| && s.futures[d] == After(s, steps).futures[d]) ||
            Because(After(s, steps).futures[d], steps)
    decreases |steps|
  {
    if steps != [] {
      var next, f := Next(s, steps[0]), After(s, steps).futures[d];
      assert steps == [steps[0]] + steps[1..];
      StepKeepsInv(s, steps[0]);
      OutcomesHaveCauses(next, steps[1..], d);
      if Because(f, steps[1..]) {
        LaterIsStillBecause(f, steps[0], steps[1..]);
      } else {
        StepHasCause(s, steps[0], d);
        if Because(f, [steps[0]]) { LaterIsStillBecause(f, steps[0], steps[1..]); }
      }
    }
  }

  /** In every run, what was returned is a prefix of what the source yielded, and a consumer that is about to
      learn what became of its demand learns the end only of a source that stopped, a failure only of one
      that raised, and a cancellation only when there was one. */
  lemma ConsumersAreToldTheTruth(steps: seq<Step>)
    requires CanRun(START, steps)
    ensures var s := After(START, steps);
      && s.pulled == Yielded(steps) && s.returned <= Yielded(steps)
      && (Enabled(s, Receive) ==> Because(s.futures[s.consumer.demand], steps))
      && (s.ready == NeverReady ==> MarkerArrives(NoMarker) in steps || NoticeCancel(true) in steps)
  {
    RunKeepsInv(START, steps);
    PulledIsYielded(START, steps);
    var s := After(START, steps);
    if Enabled(s, Receive) { OutcomesHaveCauses(START, steps, s.consumer.demand); }
    NeverReadyHasACause(START, steps);
  }

  lemma {:induction false} NeverReadyHasACause(s: State, steps: seq<Step>)
    requires Inv(s) && CanRun(s, steps)
    ensures After(s, steps).ready == NeverReady ==>
      s.ready == NeverReady || MarkerArrives(NoMarker) in steps || NoticeCancel(true) in steps
    decreases |steps|
  {
    if steps != [] {
      assert steps[0] in steps && forall step | step in steps[1..] :: step in steps;
      StepKeepsInv(s, steps[0]);
      NeverReadyHasACause(Next(s, steps[0]), steps[1..]);
      if s.ready == NotReady { ReadinessBecomesExactly(s, steps[0]); } else { HistoryGrows(s, steps[0]); }
    }
  }

  /** How the consumer goes on: it asks unless the producer is done, gets items one by one, and anything else
      than an item, or its own cancellation, makes it close the stream and wait for the producer's end. */
  lemma ConsumerMovesOn(s: State)
    ensures Enabled(s, Ask) && s.producer.Finished? ==> Next(s, Ask) == s
    ensures Enabled(s, Ask) && !s.producer.Finished? ==>
      Next(s, Ask) == s.(futures := s.futures + [Pending], consumer := Putting(|s.futures|))
    ensures Enabled(s, Put) ==>
      Next(s, Put).queue == Some(s.consumer.demand) && Next(s, Put).consumer == Awaiting(s.consumer.demand)
    ensures Enabled(s, TakeDemand) ==>
      Next(s, TakeDemand).queue == None && Next(s, TakeDemand).producer == Pulling(s.queue.value)
    ensures Enabled(s, Receive) ==>
      var item, s' := s.futures[s.consumer.demand].Item?, Next(s, Receive);
      && s'.consumer == (if item then Idle else Leaving)
      && s'.cancelling == if item then s.cancelling else !s.producer.Finished?
    ensures Enabled(s, CancelConsumer) ==>
      && Next(s, CancelConsumer).consumer == (if s.consumer.Leaving? then Idle else Leaving)
      && Next(s, CancelConsumer).cancelling == !s.producer.Finished?
    ensures Enabled(s, Left) ==> Next(s, Left).consumer == Idle
    ensures Next(s, RequestClose).cancelling == !s.producer.Finished?
  {
  }

  /** The producer pulls for the demand it took, the source answers with anything, and a cancellation that was
      asked for is noticed before anything else; the consumer puts into an empty slot, receives what is settled, is
      cancelled while it waits, and has left when the producer is done. */
  lemma StepsHappenExactly(s: State, first: Arrival, value: nat, asError: bool)
    ensures Enabled(s, MarkerArrives(first)) <==> s.producer == AwaitMarker && !s.cancelling
    ensures Enabled(s, TakeDemand) <==> s.producer == AwaitDemand && !s.cancelling && s.queue != None
    ensures Enabled(s, ItemArrives(value)) <==> s.producer.Pulling? && !s.cancelling
    ensures Enabled(s, SourceStops) <==> s.producer.Pulling? && !s.cancelling
    ensures Enabled(s, SourceFails) <==> s.producer.Pulling? && !s.cancelling
    ensures Enabled(s, CloseReturns) <==> s.producer == Closing && !s.cancelling
    ensures Enabled(s, NoticeCancel(asError)) <==> s.producer != Finished && s.cancelling
    ensures Enabled(s, Step.Ask) <==> s.consumer == Idle
    ensures Enabled(s, Put) <==> s.consumer.Putting? && s.queue == None
    ensures Enabled(s, Receive) <==>
      s.consumer.Awaiting? && s.consumer.demand < |s.futures| && s.futures[s.consumer.demand] != Pending
    ensures Enabled(s, CancelConsumer) <==> s.consumer != Idle
    ensures Enabled(s, Left) <==> s.consumer == Leaving && s.producer == Finished
    ensures Enabled(s, RequestClose)
  {
  }

  // --- Who is left waiting ------------------------------------------------------------------

  predicate Waits(s: State) {
    s.consumer.Putting? || s.consumer.Awaiting?
  }

  /** The consumer waits for a demand that nobody will settle: the producer is ending, or about to,
      and is not pulling for it. */
  predicate Hopeless(s: State) {
    match s.consumer
    case Putting(_) => !Live(s)
    case Awaiting(d) => !Live(s) && s.producer != Pulling(d) && d < |s.futures| && s.futures[d].Pending?
    case Idle => false
    case Leaving => false
  }

  ghost predicate NotCancelled(steps: seq<Step>) {
    CancelConsumer !in steps
  }

  /** Whatever happens, short of its own cancellation, the consumer goes on waiting. */
  ghost predicate Stranded(s: State) {
    forall steps | CanRun(s, steps) && NotCancelled(steps) :: Waits(After(s, steps))
  }

  lemma HopelessStays(s: State, step: Step)
    requires Inv(s) && Hopeless(s) && Enabled(s, step) && step != CancelConsumer
    ensures Hopeless(Next(s, step))
  {
  }

  lemma {:induction false} HopelessIsStranded(s: State, steps: seq<Step>)
    requires Inv(s) && Hopeless(s) && CanRun(s, steps) && NotCancelled(steps)
    ensures Hopeless(After(s, steps))
    decreases |steps|
  {
    if steps != [] {
      assert steps[0] in steps && forall step | step in steps[1..] :: step in steps;
      StepKeepsInv(s, steps[0]);
      HopelessStays(s, steps[0]);
      HopelessIsStranded(Next(s, steps[0]), steps[1..]);
    }
  }

  /** A waiting consumer that is not hopeless can be served: its demand is put, taken and settled. */
  lemma WayOut(s: State) returns (steps: seq<Step>)
    requires Inv(s) && Waits(s) && !Hopeless(s)
    ensures CanRun(s, steps) && NotCancelled(steps) && !Waits(After(s, steps))
    decreases if s.consumer.Putting? then 4
              else if s.producer.AwaitMarker? then 3
              else if s.producer.AwaitDemand? && s.futures[s.consumer.demand].Pending? then 2
              else if s.futures[s.consumer.demand].Pending? then 1 else 0
  {
    var step :=
      if s.consumer.Putting? then Put
      else if !s.futures[s.consumer.demand].Pending? then Receive
      else if s.producer.AwaitMarker? then MarkerArrives(Marker(false))
      else if s.producer.AwaitDemand? then TakeDemand
      else if s.cancelling then NoticeCancel(false)
      else SourceStops;
    var next := Next(s, step);
    StepKeepsInv(s, step);
    var rest: seq<Step> := [];
    if Waits(next) {
      rest := WayOut(next);
    }
    steps := [step] + rest;
    assert steps[1..] == rest;
  }

  /** The consumer is left waiting for good exactly when the producer is ending, or has been told to,
      and is not pulling for its demand. */
  lemma StrandedExactly(s: State)
    requires Inv(s)
    ensures Stranded(s) <==> Hopeless(s)
  {
    if Hopeless(s) {
      forall steps | CanRun(s, steps) && NotCancelled(steps) ensures Waits(After(s, steps)) {
        HopelessIsStranded(s, steps);
      }
    } else if Waits(s) {
      var steps := WayOut(s);
      assert !Stranded(s);
    } else {
      assert CanRun(s, []) && NotCancelled([]) && After(s, []) == s;
    }
  }

  /** A close that finds a demand not yet taken, a demand made between a close and the producer's end,
      and a producer that ends on its marker while somebody waits. */
  predicate Strands(s: State, step: Step) {
    match step
    case RequestClose =>
      s.consumer.Putting? ||
      (s.consumer.Awaiting? && s.producer != Pulling(s.consumer.demand) && s.consumer.demand < |s.futures|
       && s.futures[s.consumer.demand].Pending?)
    case Ask => !Live(s) && !s.producer.Finished?
    case MarkerArrives(first) => first != Marker(false) && Waits(s)
    case _ => false
  }

  lemma StepStrandsExactly(s: State, step: Step)
    requires Inv(s) && Enabled(s, step) && !Hopeless(s)
    ensures Hopeless(Next(s, step)) <==> Strands(s, step)
  {
  }

  ghost predicate EverStranded(s: State, steps: seq<Step>)
    requires CanRun(s, steps)
    decreases |steps|
  {
    Stranded(s) || (steps != [] && EverStranded(Next(s, steps[0]), steps[1..]))
  }

  ghost predicate EverStrands(s: State, steps: seq<Step>)
    requires CanRun(s, steps)
    decreases |steps|
  {
    steps != [] && (Strands(s, steps[0]) || EverStrands(Next(s, steps[0]), steps[1..]))
  }

  lemma {:induction false} RunStrandsExactly(s: State, steps: seq<Step>)
    requires Inv(s) && !Hopeless(s) && CanRun(s, steps)
    ensures EverStranded(s, steps) <==> EverStrands(s, steps)
    decreases |steps|
  {
    StrandedExactly(s);
    if steps != [] {
      var next := Next(s, steps[0]);
      StepKeepsInv(s, steps[0]);
      StepStrandsExactly(s, steps[0]);
      StrandedExactly(next);
      if !Hopeless(next) { RunStrandsExactly(next, steps[1..]); }
    }
  }

  /** In every run, somebody is at some point left waiting for good if and only if one of those three
      things happened. */
  lemma SomebodyIsStrandedExactly(steps: seq<Step>)
    requires CanRun(START, steps)
    ensures EverStranded(START, steps) <==> EverStrands(START, steps)
  {
    RunStrandsExactly(START, steps);
  }

  /** Safety is all that can be promised: a close that reaches the producer between a demand
      and its taking leaves the consumer waiting for a future nobody will settle. */
  lemma CloseCanStrandTheConsumer()
    ensures var steps := [MarkerArrives(Marker(false)), Ask, Put, RequestClose, NoticeCancel(false), CloseReturns];
      && CanRun(START, steps)
      && var s := After(START, steps);
      && s.producer.Finished? && s.consumer == Awaiting(0) && s.futures == [Pending]
      && forall step | Enabled(s, step) :: step.CancelConsumer? || Next(s, step) == s
  {
    var steps := [MarkerArrives(Marker(false)), Ask, Put, RequestClose, NoticeCancel(false), CloseReturns];
    var s1 := START.(ready := Ready(false), producer := AwaitDemand);
    var s2 := s1.(futures := [Pending], consumer := Putting(0));
    var s3 := s2.(queue := Some(0), consumer := Awaiting(0), demands := 1);
    var s4 := s3.(cancelling := true);
    var s5 := s4.(cancelling := false, producer := Closing, closes := 1);
    var s6 := s5.(producer := Finished);
    RunsTo(s5, CloseReturns, [], s6);
    RunsTo(s4, NoticeCancel(false), [CloseReturns], s6);
    RunsTo(s3, RequestClose, [NoticeCancel(false), CloseReturns], s6);
    RunsTo(s2, Put, [RequestClose, NoticeCancel(false), CloseReturns], s6);
    RunsTo(s1, Ask, [Put, RequestClose, NoticeCancel(false), CloseReturns], s6);
    RunsTo(START, MarkerArrives(Marker(false)), [Ask, Put, RequestClose, NoticeCancel(false), CloseReturns], s6);
    assert [MarkerArrives(Marker(false))] + [Ask, Put, RequestClose, NoticeCancel(false), CloseReturns] == steps;
  }

  lemma RunsTo(s: State, step: Step, rest: seq<Step>, end: State)
    requires Enabled(s, step) && CanRun(Next(s, step), rest) && After(Next(s, step), rest) == end
    ensures CanRun(s, [step] + rest) && After(s, [step] + rest) == end
  {
    assert ([step] + rest)[1..] == rest;
  }

  /** What `__anext__` makes of its demand: it returns, ends the iteration, raises or is cancelled. */
  datatype Reply = Returns(value: nat) | Ends | Raises | IsCancelled

  // --- The object -------------------------------------------------------------------------

  /** PreparedStream: the sections of `_serve`, `__anext__`, `aclose` and `close` between two
      awaits. `s` is the state of the system the stream is part of. */
  class PreparedStream {
    var producer: Producer
    var cancelling: bool
    var ready: Readiness
    var queue: Option<nat>
    var futures: seq<Future>
    var closes: nat

    constructor ()
      ensures Shows(START)
    {
      producer, cancelling, ready, queue, futures, closes := AwaitMarker, false, NotReady, None, [], 0;
    }

    ghost predicate Shows(s: State)
      reads this
    {
      && s.producer == producer && s.cancelling == cancelling && s.ready == ready
      && s.queue == queue && s.futures == futures && s.closes == closes
    }

    method Settle(d: nat, f: Future)
      modifies this`futures
      ensures futures == if d < |old(futures)| && old(futures)[d].Pending? then old(futures)[d := f] else old(futures)
    {
      if d < |futures| && futures[d].Pending? {
        futures := futures[d := f];
      }
    }

    /** The demand is `f` unless it was settled before, and no other has changed. */
    predicate SettledAs(before: seq<Future>, d: nat, f: Future)
      reads this
    {
      futures == if d < |before| && before[d] == Pending then before[d := f] else before
    }

    /** The finally clause of `_serve`. */
    method CloseSource()
      modifies this`producer, this`closes
      ensures producer == Closing && closes == old(closes) + 1
    {
      producer, closes := Closing, closes + 1;
    }

    method MarkerArrived(first: Arrival, ghost s: State)
      requires Inv(s) && Shows(s) && Enabled(s, MarkerArrives(first))
      modifies this
      ensures Shows(Next(s, MarkerArrives(first)))
      ensures ready == match first case NoMarker => NeverReady case Marker(response) => Ready(response)
    {
      match first {
        case NoMarker =>
          ready := NeverReady;
          CloseSource();
        case Marker(response) =>
          ready := Ready(response);
          if response {
            CloseSource();
          } else {
            producer := AwaitDemand;
          }
      }
    }

    method DemandTaken(ghost s: State)
      requires Inv(s) && Shows(s) && Enabled(s, TakeDemand)
      modifies this
      ensures Shows(Next(s, TakeDemand))
    {
      producer, queue := Pulling(queue.value), None;
    }

    method ItemArrived(value: nat, ghost s: State)
      requires Inv(s) && Shows(s) && Enabled(s, ItemArrives(value))
      modifies this
      ensures Shows(Next(s, ItemArrives(value)))
      ensures producer == AwaitDemand && SettledAs(old(futures), old(producer).demand, Item(value))
    {
      Settle(producer.demand, Item(value));
      producer := AwaitDemand;
    }

    method SourceStopped(ghost s: State)
      requires Inv(s) && Shows(s) && Enabled(s, SourceStops)
      modifies this
      ensures Shows(Next(s, SourceStops))
      ensures producer == Closing && SettledAs(old(futures), old(producer).demand, Done)
    {
      Settle(producer.demand, Done);
      CloseSource();
    }

    method SourceFailed(ghost s: State)
      requires Inv(s) && Shows(s) && Enabled(s, SourceFails)
      modifies this
      ensures Shows(Next(s, SourceFails))
      ensures producer == Closing && SettledAs(old(futures), old(producer).demand, Failed)
    {
      Settle(producer.demand, Failed);
      CloseSource();
    }

    /** CancelledError, or what the source made of it, at whatever `_serve` awaits. */
    method CancelNoticed(asError: bool, ghost s: State)
      requires Inv(s) && Shows(s) && Enabled(s, NoticeCancel(asError))
      modifies this
      ensures Shows(Next(s, NoticeCancel(asError)))
    {
      cancelling := false;
      if producer.Closing? {
        producer := Finished;
        return;
      }
      if ready.NotReady? {
        ready := if asError then NeverReady else ReadyCancelled;
      } else if producer.Pulling? {
        Settle(producer.demand, if asError then Failed else Cancelled);
      }
      CloseSource();
    }

    method Cancel()
      modifies this`cancelling
      ensures cancelling == !producer.Finished?
    {
      cancelling := !producer.Finished?;
    }

    /** The start of `__anext__`: nothing when the task is done, else a new demand. */
    method Ask(ghost s: State) returns (demand: Option<nat>)
      requires Inv(s) && Shows(s) && s.consumer.Idle?
      modifies this
      ensures Shows(Next(s, Step.Ask))
      ensures demand == if s.producer.Finished? then None else Some(|s.futures|)
    {
      if producer.Finished? {
        return None;
      }
      futures := futures + [Pending];
      return Some(|futures| - 1);
    }

    method PutDemand(demand: nat, ghost s: State)
      requires Inv(s) && Shows(s) && Enabled(s, Put) && s.consumer.demand == demand
      modifies this
      ensures Shows(Next(s, Put))
    {
      queue := Some(demand);
    }

    /** An awaited demand is settled: an item is returned, anything else closes the stream. */
    method Received(demand: nat, ghost s: State) returns (reply: Reply)
      requires Inv(s) && Shows(s) && Enabled(s, Receive) && s.consumer.demand == demand
      modifies this
      ensures Shows(Next(s, Receive))
      ensures reply == match old(futures)[demand]
        case Item(v) => Returns(v)
        case Done => Ends
        case Failed => Raises
        case _ => IsCancelled
      ensures Next(s, Receive).returned == if reply.Returns? then s.returned + [reply.value] else s.returned
      ensures cancelling == if reply.Returns? then old(cancelling) else !producer.Finished?
    {
      match futures[demand] {
        case Item(value) =>
          return Returns(value);
        case Done =>
          reply := Ends;
        case Failed =>
          reply := Raises;
        case Cancelled =>
          reply := IsCancelled;
      }
      Cancel();
    }
  }
}
