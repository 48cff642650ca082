/** The objects of internal/core/event.go with the fields they update in place. Each method is
    one critical section or one loop of the source, proved against the step functions that the
    interleaving model in EventBus is built from. */
module EventBusObjects {
  import opened Common
  import opened EventBus

  class EventSubscription {
    ghost const id: nat
    const kind: string
    var cancelled: bool
    var queue: seq<Event>
    var head: nat
    var wake: bool

    constructor (ghost id: nat, kind: string)
      ensures Valid() && this.id == id && this.kind == kind
      ensures !cancelled && !wake && Waiting() == []
    {
      this.id := id;
      this.kind := kind;
      cancelled, queue, head, wake := false, [], 0, false;
    }

    ghost predicate Valid()
      reads this
    {
      head <= |queue|
    }

    /** The events still queued. */
    ghost function Waiting(): seq<Event>
      reads this
      requires Valid()
    {
      queue[head..]
    }

    /** This object together with where its worker stands and its history. */
    ghost function View(worker: Worker, from: nat, handled: seq<Event>): Subscription
      reads this
      requires Valid()
    {
      Subscription(kind, cancelled, Waiting(), wake, worker, from, handled)
    }

    method EnqueueEvent(e: Event)
      requires Valid()
      modifies this
      ensures Valid()
      ensures forall w, f, h :: View(w, f, h) == Enqueue(old(View(w, f, h)), e)
      ensures Waiting() == if cancelled then old(Waiting()) else old(Waiting()) + [e]
      ensures wake == (old(wake) || (!cancelled && old(Waiting()) == []))
    {
      if cancelled {
        return;
      }
      var wasEmpty := head == |queue|;
      queue := queue + [e];
      if wasEmpty {
        wake := true;
      }
    }

    /** The locked part of `next`: it reports where the worker goes from there. The drained
        queue is reset so that its storage is reused. */
    method NextLocked() returns (worker: Worker)
      requires Valid()
      modifies this
      ensures Valid()
      ensures forall w, f, h :: View(worker, f, h) == Look(old(View(w, f, h)))
      ensures old(cancelled) ==> worker == Exited && Waiting() == old(Waiting())
      ensures !old(cancelled) && old(Waiting()) == [] ==> worker == Parked && Waiting() == []
      ensures !old(cancelled) && old(Waiting()) != [] ==>
                worker == Handling(old(Waiting())[0]) && Waiting() == old(Waiting())[1..]
      ensures worker.Handling? ==> (head == |queue| ==> head == 0)
    {
      if cancelled {
        return Exited;
      }
      if head < |queue| {
        worker := Handling(queue[head]);
        head := head + 1;
        if head == |queue| {
          queue, head := [], 0;
        }
        return;
      }
      worker := Parked;
    }
  }

  /** What one dispatcher goroutine shares with the bus: its context and its wake channel. */
  class DispatcherHandle {
    ghost const gen: nat
    var cancelled: bool
    var wake: bool

    constructor (ghost gen: nat)
      ensures this.gen == gen && !cancelled && !wake
    {
      this.gen := gen;
      cancelled, wake := false, false;
    }
  }

  /** What a dispatcher finds at the top of its loop. */
  datatype Popped = Stop | Idle | Took(event: Event)

  class AsyncEventBus {
    var subscribers: seq<EventSubscription>
    var incoming: seq<Event>
    var dispatcher: DispatcherHandle?
    ghost var generations: nat

    constructor ()
      ensures View() == INITIAL.hub
    {
      subscribers, incoming, dispatcher, generations := [], [], null, 0;
      new;
      assert Ids() == [];
    }

    ghost function Ids(): seq<nat>
      reads this
    {
      seq(|subscribers|, i requires 0 <= i < |subscribers| reads this => subscribers[i].id)
    }

    ghost function View(): Hub
      reads this
    {
      Hub(Ids(), incoming, if dispatcher == null then None else Some(dispatcher.gen), generations)
    }

    /** Creation indexes name objects: no other subscription carries the index of `s`. */
    ghost predicate Names(s: EventSubscription)
      reads this
    {
      forall x :: x in subscribers && x.id == s.id ==> x == s
    }

    method EnsureDispatcher()
      modifies this`dispatcher, this`generations
      ensures View() == Ensured(old(View())) && dispatcher != null
      ensures if old(dispatcher) == null then fresh(dispatcher) && !dispatcher.cancelled && !dispatcher.wake
              else dispatcher == old(dispatcher)
    {
      if dispatcher == null {
        dispatcher := new DispatcherHandle(generations);
        generations := generations + 1;
      }
      assert Ids() == old(Ids());
    }

    method Publish(e: Event)
      modifies this, dispatcher
      ensures View() == Published(old(View()), e)
      ensures subscribers == old(subscribers)
      ensures subscribers != [] ==> dispatcher != null && dispatcher.wake
      ensures subscribers != [] && old(dispatcher) != null ==> dispatcher == old(dispatcher)
      ensures incoming == if subscribers == [] then old(incoming) else old(incoming) + [e]
      ensures subscribers == [] ==> dispatcher == old(dispatcher) && (dispatcher != null ==> unchanged(dispatcher))
    {
      if |subscribers| == 0 {
        return;
      }
      EnsureDispatcher();
      incoming := incoming + [e];
      dispatcher.wake := true;
      assert Ids() == old(Ids());
    }

    method Subscribe(kind: string, ghost id: nat) returns (s: EventSubscription)
      modifies this
      ensures fresh(s) && s.Valid() && s.id == id && s.kind == kind && s.Waiting() == [] && !s.cancelled && !s.wake
      ensures View() == Subscribed(old(View()), id)
      ensures subscribers == old(subscribers) + [s]
    {
      s := new EventSubscription(id, kind);
      subscribers := subscribers + [s];
      assert Ids() == old(Ids()) + [id];
      EnsureDispatcher();
    }

    /** The dispatcher's critical section. */
    method PopLocked(handle: DispatcherHandle) returns (outcome: Popped, snapshot: seq<EventSubscription>)
      modifies this`incoming
      ensures outcome == if handle.cancelled then Stop else if old(incoming) == [] then Idle else Took(old(incoming)[0])
      ensures View() == old(View()).(incoming := if outcome.Took? then old(incoming)[1..] else old(incoming))
      ensures snapshot == if outcome.Took? then subscribers else []
    {
      outcome, snapshot := Idle, [];
      if handle.cancelled {
        outcome := Stop;
      } else if |incoming| > 0 {
        outcome, snapshot := Took(incoming[0]), subscribers;
        incoming := incoming[1..];
      }
      assert Ids() == old(Ids());
    }

    /** The locked part of `unsubscribe`: a linear search, one removal, and the teardown of the
        dispatcher when the last subscriber leaves. */
    method Unsubscribe(s: EventSubscription)
      requires Names(s)
      modifies this, dispatcher
      ensures View() == Removed(old(View()), s.id)
      ensures subscribers == if s in old(subscribers) then Without(old(subscribers), IndexOf(old(subscribers), s))
                             else old(subscribers)
      ensures s in old(subscribers) && subscribers == [] && old(dispatcher) != null ==>
                dispatcher == null && incoming == []
      ensures s !in old(subscribers) || subscribers != [] ==> dispatcher == old(dispatcher) && incoming == old(incoming)
      ensures old(dispatcher) != null && dispatcher == null ==> old(dispatcher).cancelled
      ensures old(dispatcher) != null && dispatcher != null ==> dispatcher == old(dispatcher) && unchanged(dispatcher)
    {
      var removed, index := false, 0;
      while index < |subscribers|
        invariant index <= |subscribers|
        invariant !removed && subscribers == old(subscribers) && s !in subscribers[..index]
        decreases |subscribers| - index
      {
        if subscribers[index] == s {
          FirstPosition(s, index);
          IndexOfFirst(subscribers, s, index);
          subscribers := subscribers[..index] + subscribers[index + 1..];
          assert Ids() == Without(old(Ids()), index);
          removed := true;
          break;
        }
        index := index + 1;
      }
      if !removed {
        NotListed(s);
      }
      if removed && |subscribers| == 0 && dispatcher != null {
        dispatcher.cancelled := true;
        dispatcher := null;
        incoming := [];
        assert Ids() == [];
      }
    }

    lemma NotListed(s: EventSubscription)
      requires Names(s) && s !in subscribers
      ensures s.id !in Ids()
    {
      forall k | 0 <= k < |subscribers| ensures Ids()[k] != s.id {
        assert subscribers[k] in subscribers;
      }
    }

    lemma FirstPosition(s: EventSubscription, index: nat)
      requires Names(s) && index < |subscribers| && subscribers[index] == s && s !in subscribers[..index]
      ensures IndexOf(Ids(), s.id) == index
    {
      forall k | 0 <= k < index ensures Ids()[k] != s.id {
        assert subscribers[k] in subscribers && subscribers[k] in subscribers[..index];
      }
      IndexOfFirst(Ids(), s.id, index);
    }
  }

  /** The dispatcher's fan-out: every matching subscription of the snapshot is offered the event,
      and nothing else about any subscription changes. */
  method FanOutTo(e: Event, snapshot: seq<EventSubscription>)
    requires Distinct(snapshot)
    requires forall s :: s in snapshot ==> s.Valid()
    modifies set s | s in snapshot
    ensures forall s :: s in snapshot ==> s.Valid()
    ensures forall s, w, f, h :: s in snapshot ==>
              s.View(w, f, h) == if Matches(s.kind, e) then Enqueue(old(s.View(w, f, h)), e) else old(s.View(w, f, h))
  {
    var index := 0;
    while index < |snapshot|
      invariant index <= |snapshot|
      invariant forall s :: s in snapshot ==> s.Valid()
      invariant forall i, w, f, h :: 0 <= i < index ==>
                  snapshot[i].View(w, f, h) ==
                    if Matches(snapshot[i].kind, e) then Enqueue(old(snapshot[i].View(w, f, h)), e)
                      else old(snapshot[i].View(w, f, h))
      invariant forall i :: index <= i < |snapshot| ==> unchanged(snapshot[i])
    {
      var s := snapshot[index];
      if s.kind == ALL || s.kind == e.kind {
        s.EnqueueEvent(e);
      }
      index := index + 1;
    }
  }
}
