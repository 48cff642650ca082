/** The in-process event bus (internal/core/event.go) as a protocol of atomic steps.

    A step is one critical section, one channel operation or one handler call. Publishers,
    unsubscribers, every generation of the dispatcher and every worker interleave freely.
    Subscriptions and dispatcher generations are named by their creation index. */
module EventBus {
  import opened Common

  datatype Event = Event(kind: string, body: string)

  /** The subscription kind that receives everything. */
  const ALL: string := ""

  predicate Matches(kind: string, e: Event) {
    kind == ALL || kind == e.kind
  }

  /** The events of `es` that a subscription of this kind receives, in order. */
  function Matching(kind: string, es: seq<Event>): seq<Event> {
    if es == [] then []
    else
      var rest := Matching(kind, es[..|es| - 1]);
      if Matches(kind, es[|es| - 1]) then rest + [es[|es| - 1]] else rest
  }

  // ---------------------------------------------------------------------------
  // One subscription
  // ---------------------------------------------------------------------------

  /** Where a worker goroutine stands: about to look at its queue, blocked on its wake
      channel, inside its handler, or gone. */
  datatype Worker = Looking | Parked | Handling(event: Event) | Exited

  /** `queue` holds what is still waiting; `from` and `handled` are history: the log position
      the subscription started at and the events its handler has finished. */
  datatype Subscription = Subscription(
    kind: string, cancelled: bool, queue: seq<Event>, token: bool,
    worker: Worker, from: nat, handled: seq<Event>)

  /** `enqueue`: a cancelled subscription ignores the event, and only an empty queue signals. */
  function Enqueue(s: Subscription, e: Event): Subscription {
    if s.cancelled then s
    else s.(queue := s.queue + [e], token := s.token || s.queue == [])
  }

  /** The locked part of `next`. */
  function Look(s: Subscription): Subscription {
    if s.cancelled then s.(worker := Exited)
    else if s.queue == [] then s.(worker := Parked)
    else s.(queue := s.queue[1..], worker := Handling(s.queue[0]))
  }

  function Finish(s: Subscription): Subscription
    requires s.worker.Handling?
  {
    s.(worker := Looking, handled := s.handled + [s.worker.event])
  }

  /** Everything this subscription has been given, in order. */
  function Got(s: Subscription): seq<Event> {
    s.handled + (if s.worker.Handling? then [s.worker.event] else []) + s.queue
  }

  // ---------------------------------------------------------------------------
  // The bus
  // ---------------------------------------------------------------------------

  /** Where a dispatcher goroutine stands. `rest` is what is left of the subscriber snapshot
      taken when `event` was popped. */
  datatype Phase = Locking | FanOut(event: Event, rest: seq<nat>) | Waiting | Returned

  datatype Dispatcher = Dispatcher(phase: Phase, cancelled: bool, token: bool)

  /** The part of the bus its mutex guards. `live` is the generation whose cancel function the
      bus holds; `generations` counts the dispatchers ever started. */
  datatype Hub = Hub(subscribers: seq<nat>, incoming: seq<Event>, live: Option<nat>, generations: nat)

  function Ensured(h: Hub): Hub {
    if h.live.Some? then h else h.(live := Some(h.generations), generations := h.generations + 1)
  }

  function Published(h: Hub, e: Event): Hub {
    if h.subscribers == [] then h
    else var up := Ensured(h); up.(incoming := up.incoming + [e])
  }

  function Subscribed(h: Hub, id: nat): Hub {
    Ensured(h.(subscribers := h.subscribers + [id]))
  }

  function Removed(h: Hub, id: nat): Hub {
    var i := IndexOf(h.subscribers, id);
    if i == |h.subscribers| then h
    else
      var left := Without(h.subscribers, i);
      if left == [] && h.live.Some? then h.(subscribers := left, live := None, incoming := [])
      else h.(subscribers := left)
  }

  /** The whole system. `log` is history: every event a publish accepted. */
  datatype Bus = Bus(hub: Hub, dispatchers: seq<Dispatcher>, subs: seq<Subscription>, log: seq<Event>)

  const INITIAL: Bus := Bus(Hub([], [], None, 0), [], [], [])

  datatype Step =
    | Publish(event: Event)
    | Subscribe(kind: string)
    | Remove(id: nat)          // the locked part of unsubscribe
    | Cancel(id: nat)          // the cancellation that follows it
    | Dispatch(gen: nat)       // a dispatcher's critical section or one round of its fan-out loop
    | Wake(gen: nat)           // its select takes the wake token
    | Quit(gen: nat)           // its select takes the cancellation
    | Work(id: nat)            // a worker's critical section, or the end of its handler
    | WorkerWake(id: nat)
    | WorkerQuit(id: nat)

  predicate Internal(step: Step) {
    !step.Publish? && !step.Subscribe? && !step.Remove? && !step.Cancel?
  }

  predicate Enabled(b: Bus, step: Step) {
    match step
    case Publish(_) => true
    case Subscribe(_) => true
    case Remove(id) => id < |b.subs|
    case Cancel(id) => id < |b.subs| && id !in b.hub.subscribers
    case Dispatch(g) => g < |b.dispatchers| && (b.dispatchers[g].phase.Locking? || b.dispatchers[g].phase.FanOut?)
    case Wake(g) => g < |b.dispatchers| && b.dispatchers[g].phase.Waiting? && b.dispatchers[g].token
    case Quit(g) => g < |b.dispatchers| && b.dispatchers[g].phase.Waiting? && b.dispatchers[g].cancelled
    case Work(id) => id < |b.subs| && (b.subs[id].worker.Looking? || b.subs[id].worker.Handling?)
    case WorkerWake(id) => id < |b.subs| && b.subs[id].worker.Parked? && b.subs[id].token
    case WorkerQuit(id) =>
      id < |b.subs| && b.subs[id].cancelled && (b.subs[id].worker.Looking? || b.subs[id].worker.Parked?)
  }

  /** The dispatcher table after the hub has (re)started a dispatcher if it had none. */
  function Started(b: Bus, hub: Hub): seq<Dispatcher> {
    if hub.generations > b.hub.generations then b.dispatchers + [Dispatcher(Locking, false, false)]
    else b.dispatchers
  }

  function Signalled(ds: seq<Dispatcher>, live: Option<nat>): seq<Dispatcher> {
    if live.Some? && live.value < |ds| then ds[live.value := ds[live.value].(token := true)] else ds
  }

  function PublishStep(b: Bus, e: Event): Bus {
    if b.hub.subscribers == [] then b
    else
      var hub := Published(b.hub, e);
      Bus(hub, Signalled(Started(b, hub), hub.live), b.subs, b.log + [e])
  }

  function SubscribeStep(b: Bus, kind: string): Bus {
    var hub := Subscribed(b.hub, |b.subs|);
    var from := if |b.hub.incoming| <= |b.log| then |b.log| - |b.hub.incoming| else 0;
    Bus(hub, Started(b, hub), b.subs + [Subscription(kind, false, [], false, Looking, from, [])], b.log)
  }

  function RemoveStep(b: Bus, id: nat): Bus {
    var hub := Removed(b.hub, id);
    var ds := if b.hub.live.Some? && hub.live.None? && b.hub.live.value < |b.dispatchers|
              then b.dispatchers[b.hub.live.value := b.dispatchers[b.hub.live.value].(cancelled := true)]
              else b.dispatchers;
    b.(hub := hub, dispatchers := ds)
  }

  /** One round of a dispatcher: the critical section at the top of its loop, or one round of
      the fan-out over its snapshot. */
  function DispatchStep(b: Bus, g: nat): Bus
    requires Enabled(b, Dispatch(g))
  {
    var d := b.dispatchers[g];
    match d.phase
    case Locking =>
      if d.cancelled then b.(dispatchers := b.dispatchers[g := d.(phase := Returned)])
      else if b.hub.incoming == [] then b.(dispatchers := b.dispatchers[g := d.(phase := Waiting)])
      else b.(hub := b.hub.(incoming := b.hub.incoming[1..]),
              dispatchers := b.dispatchers[g := d.(phase := FanOut(b.hub.incoming[0], b.hub.subscribers))])
    case FanOut(e, rest) =>
      if rest == [] then b.(dispatchers := b.dispatchers[g := d.(phase := Locking)])
      else
        var after := b.(dispatchers := b.dispatchers[g := d.(phase := FanOut(e, rest[1..]))]);
        if rest[0] < |b.subs| && Matches(b.subs[rest[0]].kind, e)
        then after.(subs := b.subs[rest[0] := Enqueue(b.subs[rest[0]], e)])
        else after
  }

  function Next(b: Bus, step: Step): Bus
    requires Enabled(b, step)
  {
    match step
    case Publish(e) => PublishStep(b, e)
    case Subscribe(kind) => SubscribeStep(b, kind)
    case Remove(id) => RemoveStep(b, id)
    case Cancel(id) => b.(subs := b.subs[id := b.subs[id].(cancelled := true)])
    case Dispatch(g) => DispatchStep(b, g)
    case Wake(g) => b.(dispatchers := b.dispatchers[g := b.dispatchers[g].(phase := Locking, token := false)])
    case Quit(g) => b.(dispatchers := b.dispatchers[g := b.dispatchers[g].(phase := Returned)])
    case Work(id) =>
      b.(subs := b.subs[id := if b.subs[id].worker.Handling? then Finish(b.subs[id]) else Look(b.subs[id])])
    case WorkerWake(id) => b.(subs := b.subs[id := b.subs[id].(worker := Looking, token := false)])
    case WorkerQuit(id) => b.(subs := b.subs[id := b.subs[id].(worker := Exited)])
  }

  /** Every step of the schedule is enabled when its turn comes. */
  predicate Schedule(b: Bus, steps: seq<Step>)
    decreases |steps|
  {
    steps == [] || (Enabled(b, steps[0]) && Schedule(Next(b, steps[0]), steps[1..]))
  }

  function Run(b: Bus, steps: seq<Step>): Bus
    requires Schedule(b, steps)
    decreases |steps|
  {
    if steps == [] then b else Run(Next(b, steps[0]), steps[1..])
  }

  // ---------------------------------------------------------------------------
  // The invariant
  // ---------------------------------------------------------------------------

  /** What subscription `s` is owed so far: the matching events of the log from where it began. */
  function Owed(b: Bus, s: Subscription): seq<Event> {
    if s.from <= |b.log| then Matching(s.kind, b.log[s.from..]) else []
  }

  /** The subscriptions dispatcher `d` still has to visit with the event it popped. */
  function Rest(d: Dispatcher): seq<nat> {
    if d.phase.FanOut? then d.phase.rest else []
  }

  /** The event dispatcher `d` still has to hand to subscription `id`, if any. */
  function InFanOut(d: Dispatcher, id: nat, kind: string): seq<Event> {
    if id in Rest(d) && Matches(kind, d.phase.event) then [d.phase.event] else []
  }


  ghost predicate HubOk(b: Bus) {
    && Distinct(b.hub.subscribers)
    && (forall id :: id in b.hub.subscribers ==> id < |b.subs| && !b.subs[id].cancelled)
    && |b.dispatchers| == b.hub.generations
    && (b.hub.live.Some? <==> b.hub.subscribers != [])
    && (b.hub.live.Some? ==> b.hub.live.value < |b.dispatchers|)
    && (b.hub.subscribers == [] ==> b.hub.incoming == [])
    && |b.hub.incoming| <= |b.log|
    && b.hub.incoming == b.log[|b.log| - |b.hub.incoming|..]
  }

  /** Only the live generation is uncancelled, so only it can pop `incoming`; a cancelled one
      serves nobody who is still subscribed, and no subscription is served by two. */
  ghost predicate DispatchersOk(b: Bus) {
    && (forall g :: 0 <= g < |b.dispatchers| ==> (b.dispatchers[g].cancelled <==> b.hub.live != Some(g)))
    && (forall g :: 0 <= g < |b.dispatchers| ==> Distinct(Rest(b.dispatchers[g])))
    && (forall g, id: nat :: 0 <= g < |b.dispatchers| && id in Rest(b.dispatchers[g]) ==> id < |b.subs|)
    && (forall g, id: nat {:trigger id in Rest(b.dispatchers[g])} ::
          (0 <= g < |b.dispatchers| && id in Rest(b.dispatchers[g]) && id in b.hub.subscribers) ==>
            b.hub.live == Some(g))
    && (forall g, h, id: nat ::
          (0 <= g < |b.dispatchers| && 0 <= h < |b.dispatchers| &&
           id in Rest(b.dispatchers[g]) && id in Rest(b.dispatchers[h])) ==> g == h)
    && (forall g :: 0 <= g < |b.dispatchers| && b.dispatchers[g].phase.Returned? ==> b.dispatchers[g].cancelled)
  }

  /** A sleeper with something to do always has a token waiting for it. */
  ghost predicate NoLostWakeup(b: Bus) {
    && (forall id :: 0 <= id < |b.subs| && b.subs[id].worker.Parked? && b.subs[id].queue != [] ==> b.subs[id].token)
    && (forall g ::
          (0 <= g < |b.dispatchers| && b.hub.live == Some(g) &&
           b.dispatchers[g].phase.Waiting? && b.hub.incoming != []) ==> b.dispatchers[g].token)
    && (forall id :: 0 <= id < |b.subs| && b.subs[id].worker.Exited? ==> b.subs[id].cancelled)
  }

  /** What subscription `id` was given is a prefix of what it is owed, and stays one after any
      fan-out still under way; while it is subscribed, adding what waits in `incoming` completes it. */
  ghost predicate Accounted(b: Bus, id: nat)
    requires id < |b.subs|
  {
    var s := b.subs[id];
    && s.from <= |b.log|
    && Got(s) <= Owed(b, s)
    && (forall g :: 0 <= g < |b.dispatchers| && id in Rest(b.dispatchers[g]) ==>
          Got(s) + InFanOut(b.dispatchers[g], id, s.kind) <= Owed(b, s))
    && (id in b.hub.subscribers && b.hub.live.Some? && b.hub.live.value < |b.dispatchers| ==>
          Got(s) + InFanOut(b.dispatchers[b.hub.live.value], id, s.kind) + Matching(s.kind, b.hub.incoming)
            == Owed(b, s))
  }

  ghost predicate Conserved(b: Bus) {
    forall id :: 0 <= id < |b.subs| ==> Accounted(b, id)
  }

  ghost predicate Inv(b: Bus) {
    HubOk(b) && DispatchersOk(b) && NoLostWakeup(b) && Conserved(b)
  }
}
