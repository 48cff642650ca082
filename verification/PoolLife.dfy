/** What becomes of a slot and of the tasks on it over whole runs of the pool. */
module PoolLife {
  import opened Common
  import opened Pool

  ghost predicate AllAtOnce(steps: seq<Step>) {
    forall k :: 0 <= k < |steps| ==> AtOnce(steps[k])
  }

  /** Finishing in three steps that nothing comes between is finishing at once. */
  lemma FinishIsThreeSteps(p: Pool, c: nat, ok: bool)
    requires In(p, c, Running)
    ensures Schedule(p, [Record(c, ok), FreeSlot(c), FreeClaim(c)])
    ensures Run(p, [Record(c, ok), FreeSlot(c), FreeClaim(c)]) == Next(p, Finish(c, ok))
  {
    ThreeSteps(p, Record(c, ok), FreeSlot(c), FreeClaim(c));
  }

  /** So is a release before the task began. */
  lemma AbandonIsTwoSteps(p: Pool, c: nat)
    requires In(p, c, Claimed)
    ensures Schedule(p, [FreeSlot(c), FreeClaim(c)])
    ensures Run(p, [FreeSlot(c), FreeClaim(c)]) == Next(p, Abandon(c))
  {
    var p1 := Next(p, FreeSlot(c));
    RunCons(p1, FreeClaim(c), []);
    RunCons(p, FreeSlot(c), [FreeClaim(c)] + []);
    assert [FreeSlot(c)] + ([FreeClaim(c)] + []) == [FreeSlot(c), FreeClaim(c)];
  }

  // ---------------------------------------------------------------------------
  // Stopping and starting
  // ---------------------------------------------------------------------------

  lemma StoppedStep(p: Pool, step: Step, n: nat)
    requires InOneStep(p) && Enabled(p, step) && AtOnce(step) && step != StartSlot(n)
    requires n < |p.states| && p.states[n].Stopped?
    ensures n < |Next(p, step).states| && Next(p, step).states[n].Stopped?
  {
    if step.Begin? || step.Finish? || step.Abandon? {
      assert HasTask(p, p.claims[step.claim].slot);
    }
  }

  /** A stopped slot takes no task until it is started, whatever else happens. */
  lemma {:induction false} StoppedTakesNothing(p: Pool, steps: seq<Step>, n: nat)
    requires InOneStep(p) && Schedule(p, steps) && AllAtOnce(steps) && StartSlot(n) !in steps
    requires n < |p.states| && p.states[n].Stopped?
    ensures var q := Run(p, steps); n < |q.states| && q.states[n].Stopped? && !HasTask(q, n)
    decreases |steps|
  {
    if steps == [] {
      assert !p.states[n].Busy?;
    } else {
      StoppedStep(p, steps[0], n);
      StepAtOnce(p, steps[0]);
      StoppedTakesNothing(Next(p, steps[0]), steps[1..], n);
    }
  }

  /** Stopping a slot keeps it out of use exactly when no task is on it. On a busy one it leaves no
      mark: the task's end decides what the slot becomes. */
  lemma StopHoldsIff(p: Pool, n: nat)
    requires InOneStep(p) && n < |p.states|
    ensures (forall rest :: Schedule(Next(p, Stop(n)), rest) && AllAtOnce(rest) && StartSlot(n) !in rest ==>
               !HasTask(Run(Next(p, Stop(n)), rest), n))
            <==> !HasTask(p, n)
  {
    var q := Next(p, Stop(n));
    if HasTask(p, n) {
      assert q == p && Schedule(q, []) && Run(q, []) == p && AllAtOnce([]);
    } else {
      StepAtOnce(p, Stop(n));
      forall rest | Schedule(q, rest) && AllAtOnce(rest) && StartSlot(n) !in rest ensures !HasTask(Run(q, rest), n) {
        StoppedTakesNothing(q, rest, n);
      }
    }
  }

  /** There is a claim to be had on slot `n` for who asks for it by name. */
  ghost predicate Claimable(p: Pool, n: nat) {
    && !p.closed && p.running < p.maxConcurrent && n in p.held && n < |p.states|
    && (p.states[n].Idle? || p.states[n].Failed?)
  }

  /** Asking for a slot by name gets it, or nothing at all. */
  lemma TakeByNameIff(p: Pool, n: nat)
    ensures var q := Next(p, Take(Some(n)));
            if Claimable(p, n) then q.claims == p.claims + [Claim(n, Claimed)] && q.states == p.states[n := Busy]
            else q == p
  {
  }

  lemma {:induction false} FirstOfList(p: Pool, ids: seq<nat>) returns (at: nat)
    requires FirstUsable(p, ids).Some?
    ensures at < |ids| && FirstUsable(p, ids) == Some(ids[at]) == FirstUsable(p, [ids[at]])
    ensures forall k :: 0 <= k < at ==> FirstUsable(p, [ids[k]]).None?
  {
    if ids[0] in p.held && ids[0] < |p.states| && Usable(p.states[ids[0]]) {
      at := 0;
    } else {
      var later := FirstOfList(p, ids[1..]);
      at := later + 1;
    }
  }

  /** Asking for any slot gets the one listed first among those that can be had. */
  lemma TakeAnyIsFirst(p: Pool)
    requires Listed(p)
    ensures var q := Next(p, Take(None));
            if exists n :: n in p.order && Claimable(p, n) then
              exists at :: 0 <= at < |p.order| && Claimable(p, p.order[at])
                && q == Next(p, Take(Some(p.order[at]))) && forall k :: 0 <= k < at ==> !Claimable(p, p.order[k])
            else q == p
  {
    var first := FirstUsable(p, p.order);
    if first.Some? {
      var at := FirstOfList(p, p.order);
      if !p.closed && p.running < p.maxConcurrent {
        assert Claimable(p, p.order[at]);
      }
    }
  }

  /** A slot without a task can be had after it is started, whatever it was before. */
  lemma StartedCanBeHad(p: Pool, n: nat)
    requires InOneStep(p) && n in p.held && !p.closed && p.running < p.maxConcurrent && !HasTask(p, n)
    ensures Claimable(Next(p, StartSlot(n)), n)
  {
  }

  /** So can one whose task ended, well or badly. */
  lemma FinishedCanBeHad(p: Pool, c: nat, ok: bool)
    requires InOneStep(p) && Accounted(p) && In(p, c, Running) && p.claims[c].slot in p.held && !p.closed
    ensures var q := Next(p, Finish(c, ok)); var n := p.claims[c].slot;
            Claimable(q, n) && (q.states[n].Failed? <==> !ok)
  {
    assert HasTask(p, p.claims[c].slot);
    SumAtLeast(p.claims, c);
  }

  // ---------------------------------------------------------------------------
  // Leaving the pool
  // ---------------------------------------------------------------------------

  /** Claims made after `p` on slot `n`. */
  ghost predicate NewTask(p: Pool, q: Pool, n: nat) {
    exists c :: |p.claims| <= c < |q.claims| && q.claims[c].slot == n
  }

  lemma ClaimsStay(p: Pool, step: Step)
    requires Enabled(p, step)
    ensures |p.claims| <= |Next(p, step).claims|
    ensures forall c :: 0 <= c < |p.claims| ==> Next(p, step).claims[c].slot == p.claims[c].slot
    ensures forall c :: |p.claims| <= c < |Next(p, step).claims| ==>
              Next(p, step).claims[c].slot in p.held && !p.closed
  {
    if OfClaim(step) {
      ClaimStep(p, step);
    }
  }

  lemma {:induction false} SlotsOfClaims(p: Pool, steps: seq<Step>)
    requires Schedule(p, steps)
    ensures |p.claims| <= |Run(p, steps).claims|
    ensures forall c :: 0 <= c < |p.claims| ==> Run(p, steps).claims[c].slot == p.claims[c].slot
    decreases |steps|
  {
    if steps != [] {
      ClaimsStay(p, steps[0]);
      SlotsOfClaims(Next(p, steps[0]), steps[1..]);
    }
  }

  lemma {:induction false} OutsideTakesNothing(p: Pool, steps: seq<Step>, n: nat)
    requires Listed(p) && Schedule(p, steps) && n < |p.states| && n !in p.held
    ensures !NewTask(p, Run(p, steps), n)
    decreases |steps|
  {
    if steps != [] {
      var q := Next(p, steps[0]);
      ClaimsStay(p, steps[0]);
      AddedBehind(p, steps[0]);
      StepKeepsListing(p, steps[0]);
      OutsideTakesNothing(q, steps[1..], n);
      SlotsOfClaims(q, steps[1..]);
    }
  }

  /** Deleting a slot is refused exactly when a task is on it; otherwise the slot is gone for good and
      never carries a task again. */
  lemma DeletedIsGone(p: Pool, n: nat, rest: seq<Step>)
    requires InOneStep(p) && n in p.held && Schedule(Next(p, Delete(n)), rest)
    ensures if HasTask(p, n) then Next(p, Delete(n)) == p
            else n !in Run(Next(p, Delete(n)), rest).held && !NewTask(p, Run(Next(p, Delete(n)), rest), n)
  {
    var q := Next(p, Delete(n));
    if !HasTask(p, n) {
      StepKeepsListing(p, Delete(n));
      RemovedListed(p, n);
      RemovedStaysOut(q, rest, n);
      OutsideTakesNothing(q, rest, n);
    }
  }

  /** A slot the registry refused is gone for good too, and the others stay. */
  lemma RolledBackIsGone(p: Pool, n: nat, rest: seq<Step>)
    requires Listed(p) && n < |p.states| && Schedule(Next(p, Rollback(n)), rest)
    ensures Next(p, Rollback(n)).held == p.held - {n}
    ensures n !in Run(Next(p, Rollback(n)), rest).held && !NewTask(p, Run(Next(p, Rollback(n)), rest), n)
  {
    StepKeepsListing(p, Rollback(n));
    RemovedListed(p, n);
    RemovedStaysOut(Next(p, Rollback(n)), rest, n);
    OutsideTakesNothing(Next(p, Rollback(n)), rest, n);
  }

  /** Every slot with a task is in the pool, but for those the registry refused. */
  ghost predicate TasksInPool(p: Pool, refused: set<nat>) {
    forall n: nat :: n < |p.states| && HasTask(p, n) && n !in refused ==> n in p.held
  }

  ghost function Refused(steps: seq<Step>): (ns: set<nat>)
    ensures forall n :: n in ns <==> Rollback(n) in steps
  {
    set k | 0 <= k < |steps| && steps[k].Rollback? :: steps[k].slot
  }

  lemma TasksInPoolStep(p: Pool, step: Step, refused: set<nat>)
    requires InOneStep(p) && Enabled(p, step) && AtOnce(step) && TasksInPool(p, refused)
    requires step.Rollback? ==> step.slot in refused
    ensures TasksInPool(Next(p, step), refused)
  {
    var q := Next(p, step);
    StepAtOnce(p, step);
    assert |p.states| <= |q.states| by { AddedBehind(p, step); }
    forall n: nat | n < |q.states| && HasTask(q, n) && n !in refused ensures n in q.held {
      var c :| 0 <= c < |q.claims| && Active(q.claims[c]) && q.claims[c].slot == n;
      StaysForTask(p, step, c, n, refused);
    }
  }

  lemma StaysForTask(p: Pool, step: Step, c: nat, n: nat, refused: set<nat>)
    requires InOneStep(p) && Enabled(p, step) && AtOnce(step) && TasksInPool(p, refused)
    requires step.Rollback? ==> step.slot in refused
    requires c < |Next(p, step).claims| && Active(Next(p, step).claims[c]) && Next(p, step).claims[c].slot == n
    requires n !in refused
    ensures n in Next(p, step).held
  {
    ClaimsStay(p, step);
    if c < |p.claims| {
      if OfClaim(step) {
        ClaimStep(p, step);
      }
      assert Active(p.claims[c]) && p.claims[c].slot == n;
      assert HasTask(p, n);
    }
    if step.Rollback? || step.Delete? {
      RemovedListed(p, step.slot);
    }
  }

  lemma {:induction false} TasksStayInPool(p: Pool, steps: seq<Step>, refused: set<nat>)
    requires InOneStep(p) && Schedule(p, steps) && AllAtOnce(steps) && TasksInPool(p, refused)
    requires Refused(steps) <= refused
    ensures TasksInPool(Run(p, steps), refused)
    decreases |steps|
  {
    if steps != [] {
      TasksInPoolStep(p, steps[0], refused);
      StepAtOnce(p, steps[0]);
      TasksStayInPool(Next(p, steps[0]), steps[1..], refused);
    }
  }

  /** Over all runs with atomic finishing, no slot is deleted from under its task: a task can be on
      a slot outside the pool only if the registry refused that very slot. */
  lemma OutsideOnlyIfRefused(capacity: nat, max: nat, steps: seq<Step>, c: nat)
    requires Schedule(Start(capacity, max), steps) && AllAtOnce(steps)
    requires var q := Run(Start(capacity, max), steps);
             c < |q.claims| && Active(q.claims[c]) && q.claims[c].slot !in q.held
    ensures Rollback(Run(Start(capacity, max), steps).claims[c].slot) in steps
  {
    var p := Start(capacity, max);
    assert InOneStep(p);
    TasksStayInPool(p, steps, Refused(steps));
    PoolBounds(capacity, max, steps);
    assert HasTask(Run(p, steps), Run(p, steps).claims[c].slot);
  }

  /** And it can happen then: between its creation and the registry's refusal the slot is there for
      anyone to take. */
  lemma RefusalStrandsATask(capacity: nat, max: nat)
    requires 1 <= max && 1 <= capacity
    ensures var steps := [Create, Take(None), Rollback(0)];
            && Schedule(Start(capacity, max), steps) && AllAtOnce(steps)
            && var q := Run(Start(capacity, max), steps); q.held == {} && q.claims == [Claim(0, Claimed)]
  {
    var p := Start(capacity, max);
    var p1 := OneSlot(capacity, max, Idle, [], 0);
    var p2 := OneSlot(capacity, max, Busy, [Claim(0, Claimed)], 1);
    assert Next(p, Create) == p1;
    assert Next(p1, Take(None)) == p2;
    ThreeSteps(p, Create, Take(None), Rollback(0));
  }

  // ---------------------------------------------------------------------------
  // Closing
  // ---------------------------------------------------------------------------

  lemma {:induction false} ClosedStaysClosed(p: Pool, steps: seq<Step>)
    requires Schedule(p, steps) && p.closed
    ensures Run(p, steps).closed && |Run(p, steps).claims| == |p.claims| && |Run(p, steps).states| == |p.states|
    decreases |steps|
  {
    if steps != [] {
      if OfClaim(steps[0]) {
        ClaimStep(p, steps[0]);
      }
      ClosedStaysClosed(Next(p, steps[0]), steps[1..]);
    }
  }

  /** A pool that was shut down makes no slot and takes no task over any run after it. */
  lemma ShutdownIsFinal(p: Pool, rest: seq<Step>)
    requires Schedule(Next(p, Shutdown), rest)
    ensures var q := Run(Next(p, Shutdown), rest); |q.claims| == |p.claims| && |q.states| == |p.states|
  {
    ClosedStaysClosed(Next(p, Shutdown), rest);
  }
}
