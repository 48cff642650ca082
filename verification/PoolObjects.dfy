/** The pool and its slots as mutable objects, one critical section at a time. */
module PoolObjects {
  import opened Common
  import opened Decimal
  import P = Pool

  class Slot {
    const id: string
    var state: P.SlotState
    var runs: nat

    constructor (id: string)
      ensures this.id == id && state == P.Idle && runs == 0
    {
      this.id, state, runs := id, P.Idle, 0;
    }

    method RecordSuccess()
      modifies this
      ensures state.Idle? && state == P.Outcome(old(state), true) && runs == old(runs) + 1
    {
      runs := runs + 1;
      state := P.Idle;
    }

    method RecordFailure()
      modifies this
      ensures runs == old(runs) + 1 && state == P.Outcome(old(state), false)
      ensures if old(state).Stopped? then state.Stopped? else state.Failed?
    {
      runs := runs + 1;
      if state != P.Stopped {
        state := P.Failed;
      }
    }

    method MarkStopped()
      modifies this`state
      ensures state == if old(state).Busy? then P.Busy else P.Stopped
    {
      if state != P.Busy {
        state := P.Stopped;
      }
    }

    method MarkIdle()
      modifies this`state
      ensures state == if old(state).Busy? then P.Busy else P.Idle
    {
      if state != P.Busy {
        state := P.Idle;
      }
    }
  }

  function Name(n: nat): string { "slot-" + Print(n) }

  lemma NameInjective(m: nat, n: nat)
    requires Name(m) == Name(n)
    ensures m == n
  {
    assert Name(m)[5..] == Print(m) && Name(n)[5..] == Print(n);
    PrintInjective(m, n);
  }

  /** One of the first `n` names. */
  ghost predicate Named(id: string, n: nat) {
    exists k: nat :: 0 < k <= n && id == Name(k)
  }

  lemma NextNameIsNew(ids: set<string>, n: nat)
    requires forall id :: id in ids ==> Named(id, n)
    ensures Name(n + 1) !in ids && Named(Name(n + 1), n + 1) && forall id :: id in ids ==> Named(id, n + 1)
  {
    if Name(n + 1) in ids {
      var k: nat :| 0 < k <= n && Name(n + 1) == Name(k);
      NameInjective(k, n + 1);
    }
  }

  /** Taking out what was just appended. */
  lemma AppendedAway(order: seq<string>, id: string)
    requires id !in order
    ensures IndexOf(order + [id], id) == |order| && Without(order + [id], |order|) == order
  {
    assert (order + [id])[..|order|] == order;
    IndexOfFirst(order + [id], id, |order|);
  }

  class SlotPool {
    const mainId: string
    const capacity: nat
    const maxConcurrent: nat
    var slots: map<string, Slot>
    var order: seq<string>
    var running: nat
    var nextId: nat
    var closed: bool

    ghost predicate Valid()
      reads this
    {
      && Distinct(order) && (forall id :: id in slots <==> id in order) && |order| <= capacity
      && running <= maxConcurrent
      && (forall id :: id in slots ==> slots[id].id == id && Named(id, nextId))
    }

    constructor (mainId: string, capacity: nat, maxConcurrent: nat)
      ensures Valid() && this.mainId == mainId && this.capacity == capacity && this.maxConcurrent == maxConcurrent
      ensures slots == map[] && order == [] && running == 0 && nextId == 0 && !closed
    {
      this.mainId, this.capacity, this.maxConcurrent := mainId, capacity, maxConcurrent;
      slots, order, running, nextId, closed := map[], [], 0, 0, false;
    }

    /** A slot leaves the table and its listing. */
    method Remove(id: string)
      requires Valid() && id in slots
      modifies this`slots, this`order
      ensures Valid() && slots == old(slots) - {id}
      ensures order == Without(old(order), IndexOf(old(order), id))
      ensures forall x :: x in order <==> x in old(order) && x != id
    {
      slots := slots - {id};
      var at := IndexOf(order, id);
      WithoutMembers(order, at);
      order := Without(order, at);
    }

    /** The new slot takes a name no slot ever had. */
    method Add() returns (made: Slot)
      requires Valid() && |order| < capacity
      modifies this`slots, this`order, this`nextId
      ensures Valid() && nextId == old(nextId) + 1
      ensures fresh(made) && made.id == Name(nextId) && made.id !in old(slots) && made.id !in old(order)
              && made.state == P.Idle
      ensures slots == old(slots)[made.id := made] && order == old(order) + [made.id]
    {
      NextNameIsNew(slots.Keys, nextId);
      nextId := nextId + 1;
      made := new Slot(Name(nextId));
      slots := slots[made.id := made];
      order := order + [made.id];
    }

    /** Only the main agent creates slots; one the registry refuses is taken out again, and its
        name stays spent. */
    method CreateSlot(caller: string, hasTemplate: bool, registered: bool) returns (made: Slot?)
      requires Valid()
      modifies this`slots, this`order, this`nextId
      ensures Valid()
      ensures var room := caller == mainId && hasTemplate && !closed && |old(order)| < capacity;
              && nextId == old(nextId) + (if room then 1 else 0)
              && (made != null <==> room && registered)
              && (made == null ==> slots == old(slots) && order == old(order))
      ensures made != null ==>
                && fresh(made) && made.id == Name(nextId) && made.id !in old(slots) && made.state == P.Idle
                && slots == old(slots)[made.id := made] && order == old(order) + [made.id]
    {
      if caller != mainId || !hasTemplate || closed || |order| >= capacity {
        return null;
      }
      made := Add();
      if !registered {
        AppendedAway(old(order), made.id);
        Remove(made.id);
        assert slots == old(slots);
        made := null;
      }
    }

    /** A busy slot is refused; any other leaves the pool. */
    method DeleteSlot(caller: string, id: string) returns (ok: bool)
      requires Valid()
      modifies this`slots, this`order
      ensures Valid()
      ensures ok == (caller == mainId && id in old(slots) && !old(slots)[id].state.Busy?)
      ensures slots == if ok then old(slots) - {id} else old(slots)
      ensures order == if ok then Without(old(order), IndexOf(old(order), id)) else old(order)
      ensures forall x :: x in order <==> x in old(order) && (ok ==> x != id)
    {
      if caller != mainId || id !in slots || slots[id].state == P.Busy {
        return false;
      }
      Remove(id);
      ok := true;
    }

    /** `claimLocked`: the first usable candidate becomes busy and one claim is taken; otherwise
        nothing changes. */
    method ClaimLocked(wanted: Option<string>) returns (slot: Slot?)
      requires Valid()
      modifies this`running, slots.Values
      ensures Valid()
      ensures var ids := if wanted.Some? then [wanted.value] else order;
              slot == null ==>
                && running == old(running) && (forall id :: id in slots ==> slots[id].state == old(slots[id].state))
                && (running >= maxConcurrent
                    || forall k :: 0 <= k < |ids| && ids[k] in slots ==> slots[ids[k]].state in {P.Busy, P.Stopped})
      ensures var ids := if wanted.Some? then [wanted.value] else order;
              slot != null ==>
                && slot.id in ids && slot.id in slots && slots[slot.id] == slot && slot.state.Busy?
                && old(slots[slot.id].state) in {P.Idle, P.Failed} && running == old(running) + 1
                && (forall id :: id in slots && id != slot.id ==> slots[id].state == old(slots[id].state))
                && exists at :: 0 <= at < |ids| && ids[at] == slot.id
                                && forall k :: 0 <= k < at && ids[k] in slots ==>
                                          !P.Usable(old(slots[ids[k]].state))
    {
      if running >= maxConcurrent {
        return null;
      }
      var ids := if wanted.Some? then [wanted.value] else order;
      for k := 0 to |ids|
        invariant running == old(running) && forall id :: id in slots ==> slots[id].state == old(slots[id].state)
        invariant forall j :: 0 <= j < k && ids[j] in slots ==> !P.Usable(slots[ids[j]].state)
      {
        if ids[k] in slots {
          slot := slots[ids[k]];
          if slot.state == P.Idle || slot.state == P.Failed {
            slot.state := P.Busy;
            running := running + 1;
            assert ids[k] == slot.id;
            return;
          }
        }
      }
      slot := null;
    }

    /** `release`: a slot still busy becomes idle, and the claim is given back. */
    method Release(slot: Slot)
      requires Valid()
      modifies slot`state, this`running
      ensures Valid() && slot.state == P.Unbusy(old(slot.state))
      ensures if old(slot.state).Busy? then slot.state.Idle? else slot.state == old(slot.state)
      ensures running == if old(running) > 0 then old(running) - 1 else 0
    {
      if slot.state == P.Busy {
        slot.state := P.Idle;
      }
      if running > 0 {
        running := running - 1;
      }
    }
  }
}
