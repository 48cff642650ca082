/** The slot pool of internal/engine/subagent/pool.go as a protocol of atomic steps. A slot is named
    by its number; slots taken out of the pool live on for the tasks that still hold them. */
module Pool {
  import opened Common

  datatype SlotState = Idle | Busy | Failed | Stopped

  /** Where a claim stands: taken; its task running; its outcome recorded; its slot given back;
      and the concurrency claim given back too. */
  datatype Phase = Claimed | Running | Recorded | Freed | Done

  datatype Claim = Claim(slot: nat, phase: Phase)

  /** `states[n]` is the state of the n-th slot ever made; `held` are the slots in the pool and
      `order` their listing; `claims` are all claims ever made. */
  datatype Pool = Pool(
    capacity: nat, maxConcurrent: nat, states: seq<SlotState>, held: set<nat>, order: seq<nat>,
    running: nat, claims: seq<Claim>, closed: bool)

  function Start(capacity: nat, maxConcurrent: nat): Pool {
    Pool(capacity, maxConcurrent, [], {}, [], 0, [], false)
  }

  datatype Step =
    | Create
    | Rollback(slot: nat)                 // the registry refused a new slot
    | Delete(slot: nat)
    | Stop(slot: nat)
    | StartSlot(slot: nat)
    | Take(wanted: Option<nat>)           // claimLocked
    | Begin(claim: nat)
    | Record(claim: nat, ok: bool)        // recordSuccess or recordFailure
    | FreeSlot(claim: nat)                // the first half of release
    | FreeClaim(claim: nat)               // the second half
    | Finish(claim: nat, ok: bool)        // the last three at once
    | Abandon(claim: nat)                 // release at once, for a task that never began
    | Shutdown

  predicate In(p: Pool, c: nat, phase: Phase) {
    c < |p.claims| && p.claims[c].phase == phase && p.claims[c].slot < |p.states|
  }

  predicate Enabled(p: Pool, step: Step) {
    match step
    case Rollback(n) => n < |p.states|
    case Stop(n) => n < |p.states|
    case StartSlot(n) => n < |p.states|
    case Begin(c) => In(p, c, Claimed)
    case Record(c, _) => In(p, c, Running)
    case FreeSlot(c) => In(p, c, Recorded) || In(p, c, Claimed)
    case FreeClaim(c) => In(p, c, Freed)
    case Finish(c, _) => In(p, c, Running)
    case Abandon(c) => In(p, c, Claimed)
    case _ => true
  }

  predicate Usable(x: SlotState) { x.Idle? || x.Failed? }

  /** The first usable slot of a list. */
  function FirstUsable(p: Pool, ids: seq<nat>): (n: Option<nat>)
    ensures n.Some? ==> n.value in ids && n.value in p.held && n.value < |p.states| && Usable(p.states[n.value])
    ensures n.None? ==> forall k :: 0 <= k < |ids| ==>
            !(ids[k] in p.held && ids[k] < |p.states| && Usable(p.states[ids[k]]))
  {
    if ids == [] then None
    else if ids[0] in p.held && ids[0] < |p.states| && Usable(p.states[ids[0]]) then Some(ids[0])
    else FirstUsable(p, ids[1..])
  }

  function TakeStep(p: Pool, wanted: Option<nat>): Pool {
    if p.closed || p.running >= p.maxConcurrent then p
    else
      match FirstUsable(p, if wanted.Some? then [wanted.value] else p.order)
      case None => p
      case Some(n) =>
        p.(states := p.states[n := Busy], running := p.running + 1, claims := p.claims + [Claim(n, Claimed)])
  }

  function Outcome(x: SlotState, ok: bool): SlotState {
    if ok then Idle else if x.Stopped? then x else Failed
  }

  /** Moves one claim to a new phase, and its slot to a new state. */
  function Moved(p: Pool, c: nat, phase: Phase, x: SlotState): Pool
    requires c < |p.claims| && p.claims[c].slot < |p.states|
  {
    p.(claims := p.claims[c := p.claims[c].(phase := phase)], states := p.states[p.claims[c].slot := x])
  }

  function StateOf(p: Pool, c: nat): SlotState
    requires c < |p.claims| && p.claims[c].slot < |p.states|
  {
    p.states[p.claims[c].slot]
  }

  function Unbusy(x: SlotState): SlotState { if x.Busy? then Idle else x }

  function GiveBack(p: Pool): Pool {
    if p.running > 0 then p.(running := p.running - 1) else p
  }

  function Removed(p: Pool, n: nat): Pool {
    var i := IndexOf(p.order, n);
    p.(held := p.held - {n}, order := if i < |p.order| then Without(p.order, i) else p.order)
  }

  function Next(p: Pool, step: Step): Pool
    requires Enabled(p, step)
  {
    match step
    case Create =>
      if p.closed || |p.held| >= p.capacity then p
      else p.(states := p.states + [Idle], held := p.held + {|p.states|}, order := p.order + [|p.states|])
    case Rollback(n) => Removed(p, n)
    case Delete(n) => if n in p.held && n < |p.states| && !p.states[n].Busy? then Removed(p, n) else p
    case Stop(n) => if p.states[n].Busy? then p else p.(states := p.states[n := Stopped])
    case StartSlot(n) => if p.states[n].Busy? then p else p.(states := p.states[n := Idle])
    case Take(wanted) => TakeStep(p, wanted)
    case Begin(c) => Moved(p, c, Running, Busy)
    case Record(c, ok) => Moved(p, c, Recorded, Outcome(StateOf(p, c), ok))
    case FreeSlot(c) => Moved(p, c, Freed, Unbusy(StateOf(p, c)))
    case FreeClaim(c) => GiveBack(Moved(p, c, Done, StateOf(p, c)))
    case Finish(c, ok) => GiveBack(Moved(p, c, Done, Unbusy(Outcome(StateOf(p, c), ok))))
    case Abandon(c) => GiveBack(Moved(p, c, Done, Unbusy(StateOf(p, c))))
    case Shutdown => p.(closed := true)
  }

  ghost predicate Schedule(p: Pool, steps: seq<Step>)
    decreases |steps|
  {
    steps == [] || (Enabled(p, steps[0]) && Schedule(Next(p, steps[0]), steps[1..]))
  }

  ghost function Run(p: Pool, steps: seq<Step>): Pool
    requires Schedule(p, steps)
    decreases |steps|
  {
    if steps == [] then p else Run(Next(p, steps[0]), steps[1..])
  }

  // ---------------------------------------------------------------------------
  // What every step keeps
  // ---------------------------------------------------------------------------

  function Unreleased(): Claim -> nat {
    (c: Claim) => if c.phase.Done? then 0 else 1
  }

  /** `running` counts the claims not yet given back, within the limit. */
  ghost predicate Accounted(p: Pool) {
    p.running == Sum(Unreleased(), p.claims) && p.running <= p.maxConcurrent
  }

  /** `order` lists the slots of the pool, each once, within the capacity. */
  ghost predicate Listed(p: Pool) {
    && Distinct(p.order) && (forall n: nat :: n in p.held <==> n in p.order) && |p.held| <= p.capacity
    && (forall n: nat :: n in p.held ==> n < |p.states|)
    && (forall c :: 0 <= c < |p.claims| ==> p.claims[c].slot < |p.states|)
  }

  lemma {:induction false} SumAtLeast(cs: seq<Claim>, c: nat)
    requires c < |cs| && !cs[c].phase.Done?
    ensures Sum(Unreleased(), cs) >= 1
  {
    if c < |cs| - 1 {
      SumAtLeast(cs[..|cs| - 1], c);
    }
  }

  lemma ClaimMoved(p: Pool, c: nat, phase: Phase)
    requires Accounted(p) && c < |p.claims| && !p.claims[c].phase.Done?
    ensures p.running >= 1
    ensures Sum(Unreleased(), p.claims[c := p.claims[c].(phase := phase)]) == p.running - if phase.Done? then 1 else 0
  {
    SumAtLeast(p.claims, c);
    SumUpdate(Unreleased(), p.claims, c, p.claims[c].(phase := phase));
  }

  lemma StepKeepsAccount(p: Pool, step: Step)
    requires Accounted(p) && Enabled(p, step)
    ensures Accounted(Next(p, step))
  {
    match step
    case Take(wanted) =>
      var q := TakeStep(p, wanted);
      if q != p {
        assert q.claims[..|p.claims|] == p.claims;
      }
    case Begin(c) => ClaimMoved(p, c, Running);
    case Record(c, _) => ClaimMoved(p, c, Recorded);
    case FreeSlot(c) => ClaimMoved(p, c, Freed);
    case FreeClaim(c) => ClaimMoved(p, c, Done);
    case Finish(c, _) => ClaimMoved(p, c, Done);
    case Abandon(c) => ClaimMoved(p, c, Done);
    case _ =>
  }

  lemma RemovedListed(p: Pool, n: nat)
    requires Listed(p)
    ensures Listed(Removed(p, n)) && Removed(p, n).held == p.held - {n}
  {
    var i := IndexOf(p.order, n);
    if i < |p.order| {
      WithoutMembers(p.order, i);
    }
  }

  lemma CreateListed(p: Pool)
    requires Listed(p) && |p.held| < p.capacity
    ensures Listed(Next(p, Create))
  {
    var q := Next(p, Create);
    if q != p {
      assert |q.held| == |p.held| + 1;
      forall n: nat ensures n in q.held <==> n in q.order {
        assert n in q.order <==> n in p.order || n == |p.states|;
      }
    }
  }

  /** Steps that leave the registry of slots alone. */
  lemma SameListing(p: Pool, q: Pool)
    requires Listed(p) && q.held == p.held && q.order == p.order && |q.states| == |p.states| && q.capacity == p.capacity
    requires forall c :: 0 <= c < |q.claims| ==> q.claims[c].slot < |p.states|
    ensures Listed(q)
  {
  }

  lemma TakeListed(p: Pool, wanted: Option<nat>)
    requires Listed(p)
    ensures Listed(TakeStep(p, wanted))
  {
    SameListing(p, TakeStep(p, wanted));
  }

  predicate OfClaim(step: Step) {
    step.Begin? || step.Record? || step.FreeSlot? || step.FreeClaim? || step.Finish? || step.Abandon?
  }

  /** A step of one claim moves that claim alone. */
  lemma ClaimStep(p: Pool, step: Step)
    requires Enabled(p, step) && OfClaim(step)
    ensures var q, c := Next(p, step), step.claim;
            && |q.claims| == |p.claims| && q.claims[c].slot == p.claims[c].slot
            && q.claims == p.claims[c := q.claims[c]]
            && q.held == p.held && q.order == p.order && |q.states| == |p.states| && q.capacity == p.capacity
  {
  }

  lemma ClaimListed(p: Pool, step: Step)
    requires Listed(p) && Enabled(p, step) && OfClaim(step)
    ensures Listed(Next(p, step))
  {
    ClaimStep(p, step);
    SameListing(p, Next(p, step));
  }

  lemma StepKeepsListing(p: Pool, step: Step)
    requires Listed(p) && Enabled(p, step)
    ensures Listed(Next(p, step))
  {
    match step
    case Create =>
      if |p.held| < p.capacity {
        CreateListed(p);
      }
    case Rollback(n) => RemovedListed(p, n);
    case Delete(n) => RemovedListed(p, n);
    case Take(wanted) => TakeListed(p, wanted);
    case Stop(_) => SameListing(p, Next(p, step));
    case StartSlot(_) => SameListing(p, Next(p, step));
    case Shutdown => SameListing(p, Next(p, step));
    case _ => ClaimListed(p, step);
  }

  /** Slots are only ever added behind the ones that exist. */
  lemma AddedBehind(p: Pool, step: Step)
    requires Listed(p) && Enabled(p, step)
    ensures |p.states| <= |Next(p, step).states|
    ensures forall n: nat :: n in Next(p, step).held && n !in p.held ==> n == |p.states| && step.Create?
  {
    if OfClaim(step) {
      ClaimStep(p, step);
    } else if step.Rollback? || step.Delete? {
      RemovedListed(p, step.slot);
    }
  }

  lemma {:induction false} RunKeeps(p: Pool, steps: seq<Step>)
    requires Accounted(p) && Listed(p) && Schedule(p, steps)
    ensures Accounted(Run(p, steps)) && Listed(Run(p, steps))
    decreases |steps|
  {
    if steps != [] {
      StepKeepsAccount(p, steps[0]);
      StepKeepsListing(p, steps[0]);
      RunKeeps(Next(p, steps[0]), steps[1..]);
    }
  }

  /** Over every run: as many running as claims not given back, never more than the limit; a
      duplicate-free listing of the slots, never more than the capacity. */
  lemma PoolBounds(capacity: nat, maxConcurrent: nat, steps: seq<Step>)
    requires Schedule(Start(capacity, maxConcurrent), steps)
    ensures Accounted(Run(Start(capacity, maxConcurrent), steps)) && Listed(Run(Start(capacity, maxConcurrent), steps))
  {
    RunKeeps(Start(capacity, maxConcurrent), steps);
  }

  lemma {:induction false} RemovedStaysOut(p: Pool, steps: seq<Step>, n: nat)
    requires Listed(p) && Schedule(p, steps) && n < |p.states| && n !in p.held
    ensures n !in Run(p, steps).held
    decreases |steps|
  {
    if steps != [] {
      AddedBehind(p, steps[0]);
      StepKeepsListing(p, steps[0]);
      RemovedStaysOut(Next(p, steps[0]), steps[1..], n);
    }
  }

  lemma {:induction false} StatesStay(p: Pool, steps: seq<Step>)
    requires Listed(p) && Schedule(p, steps)
    ensures |p.states| <= |Run(p, steps).states|
    decreases |steps|
  {
    if steps != [] {
      AddedBehind(p, steps[0]);
      StepKeepsListing(p, steps[0]);
      StatesStay(Next(p, steps[0]), steps[1..]);
    }
  }

  /** A slot number that was in the pool once and is no longer never comes back. */
  lemma NumbersNotReused(capacity: nat, maxConcurrent: nat, before: seq<Step>, between: seq<Step>, after: seq<Step>,
                         n: nat)
    requires Schedule(Start(capacity, maxConcurrent), before)
    requires var p := Run(Start(capacity, maxConcurrent), before);
             n in p.held && Schedule(p, between) && n !in Run(p, between).held && Schedule(Run(p, between), after)
    ensures n !in Run(Run(Run(Start(capacity, maxConcurrent), before), between), after).held
  {
    var p := Run(Start(capacity, maxConcurrent), before);
    RunKeeps(Start(capacity, maxConcurrent), before);
    RunKeeps(p, between);
    StatesStay(p, between);
    RemovedStaysOut(Run(p, between), after, n);
  }

  // ---------------------------------------------------------------------------
  // One task per slot
  // ---------------------------------------------------------------------------

  predicate Active(c: Claim) { c.phase.Claimed? || c.phase.Running? }

  /** No slot carries two tasks. */
  ghost predicate Exclusive(p: Pool) {
    forall c, d :: 0 <= c < d < |p.claims| && Active(p.claims[c]) && Active(p.claims[d]) ==>
      p.claims[c].slot != p.claims[d].slot
  }

  ghost predicate HasTask(p: Pool, n: nat) {
    exists c :: 0 <= c < |p.claims| && Active(p.claims[c]) && p.claims[c].slot == n
  }

  /** A slot is busy exactly when a task holds it. */
  ghost predicate BusyIffHeld(p: Pool) {
    forall n: nat :: n < |p.states| ==> (p.states[n].Busy? <==> HasTask(p, n))
  }

  /** Finishing is one step: outcome, slot and claim are given up together. */
  predicate AtOnce(step: Step) { !step.Record? && !step.FreeSlot? && !step.FreeClaim? }

  ghost predicate InOneStep(p: Pool) {
    && Listed(p) && Exclusive(p) && BusyIffHeld(p)
    && forall c :: 0 <= c < |p.claims| ==> Active(p.claims[c]) || p.claims[c].phase.Done?
  }

  lemma TakeAtOnce(p: Pool, wanted: Option<nat>)
    requires InOneStep(p)
    ensures InOneStep(TakeStep(p, wanted))
  {
    var q := TakeStep(p, wanted);
    if q != p {
      var n := q.claims[|p.claims|].slot;
      assert !p.states[n].Busy? && !HasTask(p, n);
      StepKeepsListing(p, Take(wanted));
      forall m: nat | m < |q.states| ensures q.states[m].Busy? <==> HasTask(q, m) {
        if HasTask(p, m) {
          var c :| 0 <= c < |p.claims| && Active(p.claims[c]) && p.claims[c].slot == m;
          assert q.claims[c] == p.claims[c];
        }
        if m == n {
          assert Active(q.claims[|p.claims|]);
        }
      }
    }
  }

  /** A claim that keeps or loses its slot. */
  lemma ClaimAtOnce(p: Pool, c: nat, phase: Phase, x: SlotState, q: Pool)
    requires InOneStep(p) && c < |p.claims| && Active(p.claims[c])
    requires phase == Running || phase == Done
    requires x.Busy? <==> phase == Running
    requires q.claims == Moved(p, c, phase, x).claims && q.states == Moved(p, c, phase, x).states && Listed(q)
    ensures InOneStep(q)
  {
    var n := p.claims[c].slot;
    assert HasTask(p, n);
    forall m: nat | m < |q.states| ensures q.states[m].Busy? <==> HasTask(q, m) {
      if m == n {
        assert phase == Running ==> Active(q.claims[c]);
      } else if HasTask(p, m) {
        var d :| 0 <= d < |p.claims| && Active(p.claims[d]) && p.claims[d].slot == m;
        assert q.claims[d] == p.claims[d];
      }
    }
  }

  lemma StateAtOnce(p: Pool, q: Pool)
    requires InOneStep(p) && Listed(q) && q.claims == p.claims && |p.states| <= |q.states|
    requires forall n :: 0 <= n < |p.states| ==> (q.states[n].Busy? <==> p.states[n].Busy?)
    requires forall n :: |p.states| <= n < |q.states| ==> !q.states[n].Busy?
    ensures InOneStep(q)
  {
    forall n: nat | n < |q.states| ensures q.states[n].Busy? <==> HasTask(q, n) {
      assert HasTask(p, n) <==> HasTask(q, n);
    }
  }

  lemma TaskAtOnce(p: Pool, step: Step)
    requires InOneStep(p) && Enabled(p, step) && (step.Begin? || step.Finish? || step.Abandon?)
    ensures InOneStep(Next(p, step))
  {
    var q := Next(p, step);
    ClaimListed(p, step);
    match step
    case Begin(c) => ClaimAtOnce(p, c, Running, Busy, q);
    case Finish(c, ok) => ClaimAtOnce(p, c, Done, Unbusy(Outcome(StateOf(p, c), ok)), q);
    case Abandon(c) => ClaimAtOnce(p, c, Done, Unbusy(StateOf(p, c)), q);
    case _ =>
  }

  lemma RemovalAtOnce(p: Pool, n: nat)
    requires InOneStep(p)
    ensures InOneStep(Removed(p, n))
  {
    RemovedListed(p, n);
    StateAtOnce(p, Removed(p, n));
  }

  lemma CreateAtOnce(p: Pool)
    requires InOneStep(p)
    ensures InOneStep(Next(p, Create))
  {
    if !p.closed && |p.held| < p.capacity {
      CreateListed(p);
      StateAtOnce(p, Next(p, Create));
    }
  }

  lemma OtherAtOnce(p: Pool, step: Step)
    requires InOneStep(p) && Enabled(p, step) && (step.Stop? || step.StartSlot? || step.Shutdown?)
    ensures InOneStep(Next(p, step))
  {
    SameListing(p, Next(p, step));
    StateAtOnce(p, Next(p, step));
  }

  lemma StepAtOnce(p: Pool, step: Step)
    requires InOneStep(p) && Enabled(p, step) && AtOnce(step)
    ensures InOneStep(Next(p, step))
  {
    if step.Take? {
      TakeAtOnce(p, step.wanted);
    } else if step.Rollback? || step.Delete? {
      RemovalAtOnce(p, step.slot);
    } else if step.Begin? || step.Finish? || step.Abandon? {
      TaskAtOnce(p, step);
    } else if step.Create? {
      CreateAtOnce(p);
    } else {
      OtherAtOnce(p, step);
    }
  }

  /** With finishing in one step, whatever the limits: a slot is busy exactly when a task holds it,
      and it holds at most one. */
  lemma {:induction false} OneTaskPerSlot(p: Pool, steps: seq<Step>)
    requires InOneStep(p) && Schedule(p, steps) && forall k :: 0 <= k < |steps| ==> AtOnce(steps[k])
    ensures Exclusive(Run(p, steps)) && BusyIffHeld(Run(p, steps))
    decreases |steps|
  {
    if steps != [] {
      StepAtOnce(p, steps[0]);
      OneTaskPerSlot(Next(p, steps[0]), steps[1..]);
    }
  }

  // ---------------------------------------------------------------------------
  // Finishing as the code does it, in three steps
  // ---------------------------------------------------------------------------

  lemma {:induction false} TwoUnreleased(cs: seq<Claim>, c: nat, d: nat)
    requires c < d < |cs| && !cs[c].phase.Done? && !cs[d].phase.Done?
    ensures Sum(Unreleased(), cs) >= 2
  {
    if d < |cs| - 1 {
      TwoUnreleased(cs[..|cs| - 1], c, d);
    } else {
      SumAtLeast(cs[..|cs| - 1], c);
    }
  }

  /** With one claim at a time there is nobody to share a slot with. */
  lemma ExclusiveWhenSerial(capacity: nat, steps: seq<Step>)
    requires Schedule(Start(capacity, 1), steps)
    ensures Exclusive(Run(Start(capacity, 1), steps))
  {
    var p := Run(Start(capacity, 1), steps);
    PoolBounds(capacity, 1, steps);
    Limits(Start(capacity, 1), steps);
    forall c, d | 0 <= c < d < |p.claims| && Active(p.claims[c]) ensures !Active(p.claims[d]) {
      if Active(p.claims[d]) {
        TwoUnreleased(p.claims, c, d);
      }
    }
  }

  lemma {:induction false} Limits(p: Pool, steps: seq<Step>)
    requires Schedule(p, steps)
    ensures Run(p, steps).maxConcurrent == p.maxConcurrent
    decreases |steps|
  {
    if steps != [] {
      Limits(Next(p, steps[0]), steps[1..]);
    }
  }

  lemma RunCons(p: Pool, step: Step, rest: seq<Step>)
    requires Enabled(p, step) && Schedule(Next(p, step), rest)
    ensures Schedule(p, [step] + rest) && Run(p, [step] + rest) == Run(Next(p, step), rest)
  {
    assert ([step] + rest)[1..] == rest;
  }

  lemma {:induction false} RunConcat(p: Pool, a: seq<Step>, b: seq<Step>)
    requires Schedule(p, a) && Schedule(Run(p, a), b)
    ensures Schedule(p, a + b) && Run(p, a + b) == Run(Run(p, a), b)
    decreases |a|
  {
    if a == [] {
      assert a + b == b;
    } else {
      var q := Next(p, a[0]);
      assert Schedule(q, a[1..]) && Run(p, a) == Run(q, a[1..]);
      RunConcat(q, a[1..], b);
      assert a + b == [a[0]] + (a[1..] + b);
      RunCons(p, a[0], a[1..] + b);
    }
  }

  lemma ThreeSteps(p: Pool, a: Step, b: Step, c: Step)
    requires Enabled(p, a) && Enabled(Next(p, a), b) && Enabled(Next(Next(p, a), b), c)
    ensures Schedule(p, [a, b, c]) && Run(p, [a, b, c]) == Next(Next(Next(p, a), b), c)
  {
    RunCons(Next(Next(p, a), b), c, []);
    RunCons(Next(p, a), b, [c] + []);
    RunCons(p, a, [b] + ([c] + []));
    assert [a] + ([b] + ([c] + [])) == [a, b, c];
  }

  function OneSlot(capacity: nat, max: nat, x: SlotState, claims: seq<Claim>, running: nat): Pool {
    Pool(capacity, max, [x], {0}, [0], running, claims, false)
  }

  const FIRST: seq<Step> := [Create, Take(None), Begin(0)]
  const SECOND: seq<Step> := [Record(0, true), Take(None), Begin(1)]
  const THIRD: seq<Step> := [FreeSlot(0), FreeClaim(0), Take(None)]

  lemma FirstRuns(capacity: nat, max: nat)
    requires 2 <= max && 1 <= capacity
    ensures Schedule(Start(capacity, max), FIRST)
    ensures Run(Start(capacity, max), FIRST) == OneSlot(capacity, max, Busy, [Claim(0, Running)], 1)
  {
    var p := Start(capacity, max);
    var p1 := OneSlot(capacity, max, Idle, [], 0);
    var p2 := OneSlot(capacity, max, Busy, [Claim(0, Claimed)], 1);
    assert Next(p, Create) == p1;
    assert Next(p1, Take(None)) == p2;
    ThreeSteps(p, Create, Take(None), Begin(0));
  }

  /** The first task records success, and a second takes the slot it freed. */
  lemma SecondTakes(capacity: nat, max: nat)
    requires 2 <= max
    ensures var p := OneSlot(capacity, max, Busy, [Claim(0, Running)], 1);
            && Schedule(p, SECOND)
            && Run(p, SECOND) == OneSlot(capacity, max, Busy, [Claim(0, Recorded), Claim(0, Running)], 2)
  {
    var p := OneSlot(capacity, max, Busy, [Claim(0, Running)], 1);
    var p1 := OneSlot(capacity, max, Idle, [Claim(0, Recorded)], 1);
    var p2 := OneSlot(capacity, max, Busy, [Claim(0, Recorded), Claim(0, Claimed)], 2);
    assert Next(p, Record(0, true)) == p1;
    assert Next(p1, Take(None)) == p2;
    ThreeSteps(p, Record(0, true), Take(None), Begin(1));
  }

  /** The first task's release makes the slot look idle under the second, and a third takes it. */
  lemma ThirdTakes(capacity: nat, max: nat)
    requires 2 <= max
    ensures var p := OneSlot(capacity, max, Busy, [Claim(0, Recorded), Claim(0, Running)], 2);
            && Schedule(p, THIRD)
            && Run(p, THIRD) == OneSlot(capacity, max, Busy, [Claim(0, Done), Claim(0, Running), Claim(0, Claimed)], 2)
  {
    var p := OneSlot(capacity, max, Busy, [Claim(0, Recorded), Claim(0, Running)], 2);
    var p1 := OneSlot(capacity, max, Idle, [Claim(0, Freed), Claim(0, Running)], 2);
    var p2 := OneSlot(capacity, max, Idle, [Claim(0, Done), Claim(0, Running)], 1);
    assert Next(p, FreeSlot(0)) == p1;
    assert Next(p1, FreeClaim(0)) == p2;
    ThreeSteps(p, FreeSlot(0), FreeClaim(0), Take(None));
  }

  lemma CollisionRun(capacity: nat, max: nat)
    requires 2 <= max && 1 <= capacity
    ensures Schedule(Start(capacity, max), FIRST + SECOND + THIRD)
    ensures Run(Start(capacity, max), FIRST + SECOND + THIRD)
            == OneSlot(capacity, max, Busy, [Claim(0, Done), Claim(0, Running), Claim(0, Claimed)], 2)
  {
    FirstRuns(capacity, max);
    SecondTakes(capacity, max);
    ThirdTakes(capacity, max);
    RunConcat(Start(capacity, max), FIRST, SECOND);
    RunConcat(Start(capacity, max), FIRST + SECOND, THIRD);
  }

  /** With its three separate steps the pool keeps one task per slot over all runs exactly when it
      runs one task at a time. */
  lemma ExclusiveIffSerial(capacity: nat, max: nat)
    requires 1 <= max <= capacity
    ensures (forall steps :: Schedule(Start(capacity, max), steps) ==> Exclusive(Run(Start(capacity, max), steps)))
            <==> max == 1
  {
    if max == 1 {
      forall steps | Schedule(Start(capacity, max), steps) ensures Exclusive(Run(Start(capacity, max), steps)) {
        ExclusiveWhenSerial(capacity, steps);
      }
    } else {
      CollisionRun(capacity, max);
      var p := Run(Start(capacity, max), FIRST + SECOND + THIRD);
      assert Active(p.claims[1]) && Active(p.claims[2]) && p.claims[1].slot == p.claims[2].slot;
    }
  }
}
