/** Where the threads rest after a tidy run, everything that was enqueued has run. */
module SchedulerProgress {
  import opened JobStatus
  import opened Sequences
  import opened QueuePolicies
  import opened WeaverSpec
  import opened QueueOrder
  import opened Scheduler
  import opened SchedulerInvariant
  import opened SchedulerWakeup
  import opened SchedulerHistory
  import opened SchedulerRest
  import D = DependencyMap

  // ---- The conditions under which nothing stalls, over runs ----

  /** Jobs succeed, dependencies follow the rank and have their dependees at hand when the dependent
      is enqueued, caps are positive, and nobody dequeues a single job. */
  ghost predicate Tidy(rank: nat -> nat, s: State, a: Act) {
    && Steady(a)
    && match a
       case AddDependency(x, y) => rank(y) < rank(x)
       case EnqueueJobs(js) =>
         forall p :: p in s.w.policies.deps && p.0 in js ==>
           p.1 in js || p.1 in s.w.assignments || p.1 in HeldJobs(s.phase)
       case EndRun(_, outcome) => outcome == Success
       case NewResource(_, cap) => cap >= 1
       case ChangePolicies(_, list) => forall p :: p in list ==> !p.Blocker?
       case Dequeue(_) => false
       case _ => true
  }

  ghost predicate TidyRun(prio: nat -> int, rank: nat -> nat, s: State, acts: seq<Act>)
    requires Possible(prio, s, acts)
    decreases |acts|
  {
    acts == [] || (Tidy(rank, s, acts[0]) && TidyRun(prio, rank, Next(prio, s, acts[0]), acts[1..]))
  }

  ghost predicate Promising(rank: nat -> nat, s: State) {
    Closed(s) && Acyclic(rank, s) && CapsPositive(s) && NoBlockers(s)
  }

  /** The dependencies did not grow, and of the jobs at hand none was lost. */
  lemma ClosedKeptElsewhere(s: State, n: State)
    requires Closed(s)
    requires forall p :: p in n.w.policies.deps ==> p in s.w.policies.deps
    requires forall j :: j in n.w.assignments ==> j in s.w.assignments
    requires n.w.assignments == [] ||
             (forall j :: j in s.w.assignments || j in HeldJobs(s.phase) ==>
               j in n.w.assignments || j in HeldJobs(n.phase))
    requires FreeingSucceeded(n)
    ensures Closed(n)
  {
  }

  ghost predicate SameFreeing(s: State, n: State, t: nat) {
    && t in s.phase && t in n.phase && s.phase[t] == n.phase[t] && s.phase[t].Freeing? && s.phase[t].job in s.jobs
    && (s.phase[t].job in n.jobs ==> n.jobs[s.phase[t].job].status == s.jobs[s.phase[t].job].status)
  }

  lemma FreeingKeptElsewhere(s: State, n: State)
    requires FreeingSucceeded(s) && forall t :: t in n.phase && n.phase[t].Freeing? ==> SameFreeing(s, n, t)
    ensures FreeingSucceeded(n)
  {
  }

  lemma FreeingKeptTake(prio: nat -> int, s: State, th: nat)
    requires Inv(prio, s) && Known(s) && FreeingSucceeded(s) && Enabled(s, Enter(th))
    ensures FreeingSucceeded(Next(prio, s, Enter(th)))
  {
    hide Inv, Next, Spawn, Settled, FreeingSucceeded, HeldJobs, AllWilling, Entered, RemoveAt;
    var n := Next(prio, s, Enter(th));
    var i := TakeMoves(prio, s, th);
    TakeMovesOne(prio, s, th);
    QueuedNotFreeing(prio, s);
    FreeingKeptElsewhere(s, n);
  }

  /** Nobody else moves while a thread is in the critical section; new threads apply for work. */
  lemma TakeMovesOne(prio: nat -> int, s: State, th: nat)
    requires Inv(prio, s) && Known(s) && Enabled(s, Enter(th))
    ensures var n := Next(prio, s, Enter(th));
      && (forall t :: t in n.phase && t != th ==> n.phase[t] == if t in s.phase then s.phase[t] else Applying(false))
      && th in n.phase && !n.phase[th].Freeing?
  {
    hide Spawn, TakeFirst, ActiveOk, ListsOk, ResourcesOk, DepsOk, BoundsOk, QueueOk, HeldOk, Settled;
    var n := Next(prio, s, Enter(th));
    var p := s.phase[th];
    TakeHasShape(s.w, Lists(s.jobs), th, p.busy, p.stopping);
    Numbered(s);
    SettledGrows(s.w, p.busy);
    SpawnChangesNothing(s.phase, s.w.created, n.w.created);
  }

  lemma FreeingKept(prio: nat -> int, s: State, a: Act)
    requires Inv(prio, s) && Known(s) && FreeingSucceeded(s) && Enabled(s, a)
    requires a.EndRun? ==> a.outcome == Success
    ensures FreeingSucceeded(Next(prio, s, a))
  {
    hide Next, Enabled, FreeingSucceeded, Inv;
    if a.Enter? {
      FreeingKeptTake(prio, s, a.th);
    } else if IsMove(a) {
      MoveEffect(prio, s, a);
      FreeingKeptMove(prio, s, Next(prio, s, a), a);
    } else if IsSpawn(a) {
      FreeingKeptSpawn(prio, s, a);
    } else {
      OutsideEffect(prio, s, a);
      QueuedNotFreeing(prio, s);
      FreeingKeptOutside(prio, s, Next(prio, s, a), a);
    }
  }

  lemma FreeingKeptMove(prio: nat -> int, s: State, n: State, a: Act)
    requires Inv(prio, s) && FreeingSucceeded(s) && IsMove(a) && MoveTouches(s, n, a)
    requires a.EndRun? ==> a.outcome == Success
    ensures FreeingSucceeded(n)
  {
  }

  lemma FreeingKeptSpawn(prio: nat -> int, s: State, a: Act)
    requires Inv(prio, s) && Known(s) && FreeingSucceeded(s) && Enabled(s, a) && IsSpawn(a)
    ensures FreeingSucceeded(Next(prio, s, a))
  {
    hide Next, Enabled, FreeingSucceeded;
    hide ThreadsOk, ActiveOk, QueueOk, HeldOk, ListsOk, ResourcesOk, DepsOk, BoundsOk;
    SpawnKeepsFreeing(prio, s, a);
    FreeingKeptElsewhere(s, Next(prio, s, a));
  }

  lemma SpawnKeepsFreeing(prio: nat -> int, s: State, a: Act)
    requires ThreadsOk(s) && HeldOk(s) && Known(s) && Enabled(s, a) && IsSpawn(a)
    ensures var n := Next(prio, s, a);
      forall t :: t in n.phase && n.phase[t].Freeing? ==> SameFreeing(s, n, t)
  {
    FreeingAreFinished(s);
    hide ThreadsOk, HeldOk;
    SpawnEffect(prio, s, a);
    hide Next;
    var n := Next(prio, s, a);
    if a.EnqueueJobs? { NewAreNotFreeing(s, a.js); }
    SpawnedIsHeld(s, n);
    SpawnedAnew(s, n);
  }

  /** The two actions that create threads change the status of the enqueued jobs only. */
  lemma SpawnEffect(prio: nat -> int, s: State, a: Act)
    requires ThreadsOk(s) && Known(s) && Enabled(s, a) && IsSpawn(a)
    ensures var n := Next(prio, s, a);
      && n.phase == Spawn(s.phase, s.w.created, n.w.created)
      && n.jobs == if a.EnqueueJobs? then SetAll(s.jobs, a.js, Queued) else s.jobs
  {
    hide Spawn, Enqueue, SetAll, ThreadsOk;
    if a.EnqueueJobs? {
      Numbered(s);
      EnqueueGrows(s.w, prio, |a.js|, a.js);
    }
  }

  lemma FreeingAreFinished(s: State)
    requires HeldOk(s)
    ensures forall t :: t in s.phase && s.phase[t].Freeing? ==>
      s.phase[t].job in s.jobs && s.jobs[s.phase[t].job].status.Finished()
  {
  }

  lemma NewAreNotFreeing(s: State, js: seq<nat>)
    requires forall j :: j in js ==> j in s.jobs && s.jobs[j].status == New
    requires forall t :: t in s.phase && s.phase[t].Freeing? ==>
      s.phase[t].job in s.jobs && s.jobs[s.phase[t].job].status.Finished()
    ensures forall t :: t in s.phase && s.phase[t].Freeing? ==> s.phase[t].job !in js
  {
  }

  lemma SpawnedAnew(s: State, n: State)
    requires ThreadsOk(s) && n.phase == Spawn(s.phase, s.w.created, n.w.created)
    ensures forall t :: t in n.phase && t !in s.phase ==> n.phase[t] == Applying(false)
  {
    SpawnChangesNothing(s.phase, s.w.created, n.w.created);
  }

  lemma FreeingKeptOutside(prio: nat -> int, s: State, n: State, a: Act)
    requires FreeingSucceeded(s) && OutsideTouches(s, n, a)
    requires forall t :: t in s.phase && s.phase[t].Freeing? ==>
      && s.phase[t].job !in s.w.assignments
      && s.phase[t].job in s.jobs
    ensures FreeingSucceeded(n)
  {
  }

  lemma QueuedNotFreeing(prio: nat -> int, s: State)
    requires Inv(prio, s)
    ensures forall t :: t in s.phase && s.phase[t].Freeing? ==>
      && s.phase[t].job !in s.w.assignments
      && s.phase[t].job in s.jobs
  {
  }

  lemma ClosedKeptTake(prio: nat -> int, s: State, th: nat)
    requires Inv(prio, s) && Known(s) && Closed(s) && Enabled(s, Enter(th))
    requires FreeingSucceeded(Next(prio, s, Enter(th)))
    ensures Closed(Next(prio, s, Enter(th)))
    ensures Next(prio, s, Enter(th)).w.policies.deps == s.w.policies.deps
  {
    hide ThreadsOk, ActiveOk, HeldOk, ListsOk, ResourcesOk, DepsOk, BoundsOk, Next, HeldJobs, Sorted;
    hide AllWilling, FreeingSucceeded, Closed, RemoveAt, SetJob;
    var n := Next(prio, s, Enter(th));
    var i := TakeMoves(prio, s, th);
    if n.phase[th].Working? {
      RemoveAtKeeps(prio, s.w.assignments, i);
    }
    ClosedKeptElsewhere(s, n);
  }

  lemma CapsKeptTake(prio: nat -> int, s: State, th: nat)
    requires Inv(prio, s) && Known(s) && Enabled(s, Enter(th)) && CapsPositive(s)
    ensures CapsPositive(Next(prio, s, Enter(th)))
  {
    hide Inv, Next, HeldJobs, AllWilling;
    var _ := TakeMoves(prio, s, th);
  }

  lemma ClosedKeptFree(prio: nat -> int, s: State, th: nat)
    requires Inv(prio, s) && Known(s) && Closed(s) && Enabled(s, FreePolicies(th))
    requires Inv(prio, Next(prio, s, FreePolicies(th)))
    ensures Closed(Next(prio, s, FreePolicies(th)))
    ensures forall p :: p in Next(prio, s, FreePolicies(th)).w.policies.deps ==> p in s.w.policies.deps
  {
    hide Sorted, ThreadsOk, ActiveOk, ResourcesOk, BoundsOk, HeldJobs;
    var n := Next(prio, s, FreePolicies(th));
    var j := s.phase[th].job;
    FreeAllExactly(s.w.policies, s.jobs[j].list, j, s.jobs[j].status == Success);
    MoveIsHeld(s, th, Applying(true));
    FreeingKept(prio, s, FreePolicies(th));
    assert forall p :: p in n.w.policies.deps ==> p in s.w.policies.deps && p.1 != j by {
      ResolvedMembers(s.w.policies.deps, j);
      forall p | p in n.w.policies.deps ensures p in s.w.policies.deps && p.1 != j {
        if Dependencies !in s.jobs[j].list && p.1 == j { assert false; }
      }
    }
  }

  lemma ResolvedMembers(deps: seq<(nat, nat)>, j: nat)
    ensures forall p :: p in D.Resolved(deps, j) ==> p in deps && p.1 != j
  {
  }

  lemma PromisingKept(prio: nat -> int, rank: nat -> nat, s: State, a: Act)
    requires Inv(prio, s) && Known(s) && Promising(rank, s) && Enabled(s, a) && Tidy(rank, s, a)
    requires Inv(prio, Next(prio, s, a))
    ensures Promising(rank, Next(prio, s, a))
  {
    hide Inv, Next, Enabled, HeldJobs, FreeingSucceeded, NoBlockers;
    FreeingKept(prio, s, a);
    BlockersKept(prio, rank, s, a);
    if a.Enter? {
      ClosedKeptTake(prio, s, a.th);
      CapsKeptTake(prio, s, a.th);
    } else if a.FreePolicies? {
      ClosedKeptFree(prio, s, a.th);
      CapsKeptFree(prio, s, a.th);
    } else if a.EnqueueJobs? {
      ClosedKeptEnqueue(prio, rank, s, a.js);
    } else if a.AddDependency? {
      PromisingKeptAdd(prio, rank, s, a.a, a.b);
    } else {
      PromisingKeptElsewhere(prio, rank, s, a);
    }
  }

  lemma PromisingKeptElsewhere(prio: nat -> int, rank: nat -> nat, s: State, a: Act)
    requires Inv(prio, s) && Known(s) && Promising(rank, s) && Enabled(s, a) && Tidy(rank, s, a)
    requires !a.Enter? && !a.FreePolicies? && !a.EnqueueJobs? && !a.AddDependency?
    requires FreeingSucceeded(Next(prio, s, a)) && NoBlockers(Next(prio, s, a))
    ensures Promising(rank, Next(prio, s, a))
  {
    hide Inv, Spawn, HeldJobs, FreeingSucceeded, NoBlockers;
    var n := Next(prio, s, a);
    if IsMove(a) {
      MoveEffect(prio, s, a);
      hide Next, Enabled;
      MovedHeld(prio, s, n, a.th);
    } else if a.SetMaximumThreads? {
      SpawnedHeld(prio, s, n);
    }
    ClosedKeptElsewhere(s, n);
  }

  lemma NoBlockersElsewhere(s: State, n: State)
    requires NoBlockers(s)
    requires forall j :: j in n.jobs ==> j in s.jobs && n.jobs[j].list == s.jobs[j].list
    ensures NoBlockers(n)
  {
  }

  lemma BlockersKept(prio: nat -> int, rank: nat -> nat, s: State, a: Act)
    requires Inv(prio, s) && Known(s) && NoBlockers(s) && Enabled(s, a) && Tidy(rank, s, a)
    ensures NoBlockers(Next(prio, s, a))
  {
    hide Inv;
    var n := Next(prio, s, a);
    if a.Enter? {
      hide Next, Enabled, HeldJobs, NoBlockers, AllWilling, Entered;
      var _ := TakeMoves(prio, s, a.th);
      NoBlockersElsewhere(s, n);
    } else if IsMove(a) {
      MoveEffect(prio, s, a);
      hide Next, Enabled, NoBlockers;
      NoBlockersElsewhere(s, n);
    } else if IsSpawn(a) {
      hide Spawn, Enqueue, NoBlockers;
      NoBlockersElsewhere(s, n);
    } else {
      NoBlockersOutside(prio, rank, s, a);
    }
  }

  lemma NoBlockersOutside(prio: nat -> int, rank: nat -> nat, s: State, a: Act)
    requires Known(s) && NoBlockers(s) && Enabled(s, a) && Tidy(rank, s, a) && IsOutside(a)
    ensures NoBlockers(Next(prio, s, a))
  {
    hide RemoveFirst;
    if a.LiftBlocker? { NothingToLift(s.jobs[a.j].list, a.owner); }
  }

  lemma NothingToLift(l: seq<Policy<nat>>, owner: nat)
    requires Blocker(owner) !in l
    ensures RemoveFirst(l, Blocker(owner)) == l
  {
  }

  lemma SpawnedHeld(prio: nat -> int, s: State, n: State)
    requires Inv(prio, s) && n.phase == Spawn(s.phase, s.w.created, n.w.created)
    ensures HeldJobs(n.phase) == HeldJobs(s.phase)
  {
  }

  lemma PromisingKeptAdd(prio: nat -> int, rank: nat -> nat, s: State, x: nat, y: nat)
    requires Inv(prio, s) && Known(s) && Promising(rank, s) && Enabled(s, AddDependency(x, y)) && rank(y) < rank(x)
    requires FreeingSucceeded(Next(prio, s, AddDependency(x, y))) && NoBlockers(Next(prio, s, AddDependency(x, y)))
    ensures Promising(rank, Next(prio, s, AddDependency(x, y)))
  {
    hide HeldJobs, Sorted, ThreadsOk, ActiveOk, ResourcesOk, BoundsOk, DepsOk, ListsOk, FreeingSucceeded, NoBlockers;
  }

  lemma MovedHeld(prio: nat -> int, s: State, n: State, th: nat)
    requires Inv(prio, s) && th in s.phase && th in n.phase && n.phase == s.phase[th := n.phase[th]]
    requires if Holds(s.phase[th])
      then Holds(n.phase[th]) && n.phase[th].job == s.phase[th].job else !Holds(n.phase[th])
    ensures HeldJobs(n.phase) == HeldJobs(s.phase)
  {
    hide HeldJobs;
    MoveIsHeld(s, th, n.phase[th]);
    assert HeldJobs(s.phase[th := n.phase[th]]) == HeldJobs(s.phase);
  }

  lemma CapsKeptFree(prio: nat -> int, s: State, th: nat)
    requires Inv(prio, s) && Known(s) && Enabled(s, FreePolicies(th)) && CapsPositive(s)
    ensures CapsPositive(Next(prio, s, FreePolicies(th)))
  {
    var j := s.phase[th].job;
    FreeAllExactly(s.w.policies, s.jobs[j].list, j, s.jobs[j].status == Success);
  }

  lemma ClosedKeptEnqueue(prio: nat -> int, rank: nat -> nat, s: State, js: seq<nat>)
    requires Inv(prio, s) && Known(s) && Closed(s) && Enabled(s, EnqueueJobs(js)) && Tidy(rank, s, EnqueueJobs(js))
    requires Inv(prio, Next(prio, s, EnqueueJobs(js)))
    ensures Closed(Next(prio, s, EnqueueJobs(js)))
    ensures Next(prio, s, EnqueueJobs(js)).w.policies == s.w.policies
  {
    hide Spawn, Enqueue, HeldJobs, Sorted, ActiveOk, ResourcesOk, BoundsOk, DepsOk, ListsOk, HeldOk, InsertAll;
    var n := Next(prio, s, EnqueueJobs(js));
    FreeingKept(prio, s, EnqueueJobs(js));
    Numbered(s);
    EnqueueGrows(s.w, prio, |js|, js);
    SpawnedIsHeld(s, n);
    InsertAllMembers(prio, s.w.assignments, js);
  }

  /** Over every tidy run, however long and interleaved: where all threads sleep, the queue is empty
      and nothing is active. */
  lemma {:induction false} NoStallOverRuns(prio: nat -> int, rank: nat -> nat, s: State, acts: seq<Act>)
    requires Inv(prio, s) && Known(s) && Alert(s) && Promising(rank, s)
    requires Possible(prio, s, acts) && TidyRun(prio, rank, s, acts)
    ensures var n := Reach(prio, s, acts);
      && Inv(prio, n) && Known(n) && Alert(n) && Promising(rank, n)
      && (AtRest(n) ==> n.w.assignments == [] && n.w.active == 0)
    decreases |acts|
  {
    hide Inv, Next, Enabled, Alert, Closed, Acyclic, CapsPositive, AtRest;
    if acts == [] {
      if AtRest(s) { NoStall(prio, rank, s); }
    } else {
      StepKeeps(prio, s, acts[0]);
      AlertKept(prio, s, acts[0]);
      PromisingKept(prio, rank, s, acts[0]);
      NoStallOverRuns(prio, rank, Next(prio, s, acts[0]), acts[1..]);
    }
  }

  /** A tidy step makes no job fail. */
  lemma NoNewFailure(prio: nat -> int, rank: nat -> nat, s: State, a: Act, j: nat)
    requires Inv(prio, s) && Known(s) && Enabled(s, a) && Tidy(rank, s, a)
    requires j in Next(prio, s, a).jobs && Next(prio, s, a).jobs[j].status.Bad()
    ensures j in s.jobs && s.jobs[j].status.Bad()
  {
    hide Spawn, TakeFirst, Enqueue, FreeAll, ThreadsOk, ActiveOk, ListsOk, ResourcesOk, DepsOk, BoundsOk;
    hide Sorted, AllWilling, Entered, HeldJobs, RemoveAt;
    if a.Enter? {
      var _ := TakeMoves(prio, s, a.th);
    }
  }

  lemma {:induction false} NoNewFailures(prio: nat -> int, rank: nat -> nat, s: State, acts: seq<Act>, j: nat)
    requires Inv(prio, s) && Known(s) && Possible(prio, s, acts) && TidyRun(prio, rank, s, acts)
    requires var n := Reach(prio, s, acts); j in n.jobs && n.jobs[j].status.Bad()
    ensures j in s.jobs && s.jobs[j].status.Bad()
    decreases |acts|
  {
    hide Inv, Next, Enabled, Tidy;
    if acts != [] {
      StepKeeps(prio, s, acts[0]);
      NoNewFailures(prio, rank, Next(prio, s, acts[0]), acts[1..], j);
      NoNewFailure(prio, rank, s, acts[0], j);
    }
  }

  /** Everything runs: after a tidy run, if the threads have gone on until none of them has a step
      left, the queue is empty, nothing is active, and every job that was ever enqueued has succeeded,
      except those that had failed before the run. */
  lemma EverythingRuns(prio: nat -> int, rank: nat -> nat, s: State, acts: seq<Act>)
    requires Inv(prio, s) && Known(s) && Alert(s) && Promising(rank, s) && AccountedFor(s)
    requires Possible(prio, s, acts) && TidyRun(prio, rank, s, acts) && forall a :: a in acts ==> !a.DequeueAll?
    requires forall a :: OfThread(a) ==> !Enabled(Reach(prio, s, acts), a)
    ensures var n := Reach(prio, s, acts);
      && n.w.assignments == [] && n.w.active == 0
      && forall j :: j in n.jobs && !(j in s.jobs && s.jobs[j].status.Bad()) ==>
        n.jobs[j].status == New || n.jobs[j].status == Success
  {
    hide Inv, SomeRunnable, SomeAwake, NobodyStopping, Promising, Possible, Reach, TidyRun, Enabled, HeldJobs;
    NoStallOverRuns(prio, rank, s, acts);
    NothingIsForgotten(prio, s, acts);
    var n := Reach(prio, s, acts);
    forall t | t in n.w.inventory ensures t in n.w.sleeping {
      if t !in n.w.sleeping { AwakeCanStep(prio, n, t); }
    }
    NoneHeldAtRest(prio, n);
    forall j | j in n.jobs && !(j in s.jobs && s.jobs[j].status.Bad())
      ensures n.jobs[j].status == New || n.jobs[j].status == Success
    {
      if n.jobs[j].status.Bad() { NoNewFailures(prio, rank, s, acts, j); }
    }
  }
}
