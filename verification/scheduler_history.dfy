/** What becomes of jobs over runs: nothing runs twice, nothing is forgotten, and what is queued
    without hindrance runs in the order of the queue. */
module SchedulerHistory {
  import opened JobStatus
  import opened Sequences
  import opened QueuePolicies
  import opened WeaverSpec
  import opened QueueOrder
  import opened Scheduler
  import opened SchedulerInvariant
  import D = DependencyMap

  // ---- Every job is somewhere ----

  /** The log lists exactly the jobs that have started, each once. */
  ghost predicate LogOk(s: State) {
    NoDup(s.log) && forall j :: j in s.log <==> j in s.jobs && HasStarted(s.jobs[j].status)
  }

  /** A queued job is in the queue, a running one is held by a thread. */
  ghost predicate AccountedFor(s: State) {
    forall j :: j in s.jobs ==>
      && (s.jobs[j].status == Queued ==> j in s.w.assignments)
      && (s.jobs[j].status == Running ==> j in HeldJobs(s.phase))
  }

  lemma LogKeptElsewhere(s: State, n: State)
    requires LogOk(s) && n.log == s.log && s.jobs.Keys <= n.jobs.Keys
    requires forall j :: j in n.jobs ==> (HasStarted(n.jobs[j].status) <==> j in s.jobs && HasStarted(s.jobs[j].status))
    ensures LogOk(n)
  {
  }

  lemma LogKept(prio: nat -> int, s: State, a: Act)
    requires Inv(prio, s) && Known(s) && LogOk(s) && Enabled(s, a)
    ensures LogOk(Next(prio, s, a))
  {
    hide Spawn, TakeFirst, Enqueue, ThreadsOk, ActiveOk, ListsOk, ResourcesOk, DepsOk, BoundsOk, Sorted;
    hide LogOk, FreeAll, RemoveAt, AllWilling, Entered, HeldJobs;
    var n := Next(prio, s, a);
    if a.Enter? {
      var i := TakeMoves(prio, s, a.th);
      if n.phase[a.th].Working? {
        LogGrows(s, n, s.w.assignments[i]);
      } else {
        LogKeptElsewhere(s, n);
      }
    } else {
      LogKeptElsewhere(s, n);
    }
  }

  lemma LogGrows(s: State, n: State, j: nat)
    requires LogOk(s) && j in s.jobs && s.jobs[j].status == Queued
    requires n.log == s.log + [j] && n.jobs == SetJob(s, j, Running)
    ensures LogOk(n)
  {
  }

  lemma AccountKeptElsewhere(s: State, n: State)
    requires AccountedFor(s) && HeldJobs(n.phase) == HeldJobs(s.phase) && s.w.assignments == n.w.assignments
    requires forall j :: j in n.jobs && (n.jobs[j].status == Queued || n.jobs[j].status == Running) ==>
      && j in s.jobs
      && s.jobs[j].status == n.jobs[j].status
    ensures AccountedFor(n)
  {
  }

  lemma AccountKeptMove(s: State, n: State, a: Act)
    requires HeldOk(s) && AccountedFor(s) && IsMove(a) && MoveTouches(s, n, a)
    ensures AccountedFor(n)
  {
    MoveIsHeld(s, a.th, n.phase[a.th]);
    hide HeldJobs;
  }

  lemma AccountKeptTake(prio: nat -> int, s: State, th: nat)
    requires Inv(prio, s) && Known(s) && AccountedFor(s) && Enabled(s, Enter(th))
    ensures AccountedFor(Next(prio, s, Enter(th)))
  {
    hide Next, ThreadsOk, ActiveOk, ListsOk, ResourcesOk, DepsOk, BoundsOk, Sorted, RemoveAt, AllWilling;
    hide Entered, HeldJobs, HeldOk;
    var n := Next(prio, s, Enter(th));
    var i := TakeMoves(prio, s, th);
    if n.phase[th].Working? {
      RemoveAtKeeps(prio, s.w.assignments, i);
    } else {
      AccountKeptElsewhere(s, n);
    }
  }

  lemma AccountKeptSpawn(prio: nat -> int, s: State, a: Act)
    requires Inv(prio, s) && Known(s) && AccountedFor(s) && Enabled(s, a) && IsSpawn(a)
    ensures AccountedFor(Next(prio, s, a))
  {
    hide Spawn, Enqueue, ThreadsOk, ActiveOk, ListsOk, ResourcesOk, DepsOk, BoundsOk, Sorted, HeldJobs;
    hide InsertAll, HeldOk;
    var n := Next(prio, s, a);
    SpawnedIsHeld(s, n);
    if a.EnqueueJobs? {
      Numbered(s);
      EnqueueGrows(s.w, prio, |a.js|, a.js);
      InsertAllMembers(prio, s.w.assignments, a.js);
    }
  }

  lemma AccountKeptOutside(prio: nat -> int, s: State, n: State, a: Act)
    requires QueueOk(prio, s) && AccountedFor(s) && OutsideTouches(s, n, a) && !a.DequeueAll?
    ensures AccountedFor(n)
  {
    hide HeldJobs, Sorted;
    if a.Dequeue? { RemoveFirstMembers(s.w.assignments, a.j); }
  }

  lemma AccountKept(prio: nat -> int, s: State, a: Act)
    requires Inv(prio, s) && Known(s) && AccountedFor(s) && Enabled(s, a) && !a.DequeueAll?
    ensures AccountedFor(Next(prio, s, a))
  {
    hide Next, Enabled, ThreadsOk, ActiveOk, ListsOk, ResourcesOk, DepsOk, BoundsOk, QueueOk, HeldOk, AccountedFor;
    if a.Enter? {
      AccountKeptTake(prio, s, a.th);
    } else if IsMove(a) {
      MoveEffect(prio, s, a);
      AccountKeptMove(s, Next(prio, s, a), a);
    } else if IsSpawn(a) {
      AccountKeptSpawn(prio, s, a);
    } else {
      OutsideEffect(prio, s, a);
      AccountKeptOutside(prio, s, Next(prio, s, a), a);
    }
  }

  /** Over every run, each job is taken at most once, and the jobs taken are exactly those that have
      started. */
  lemma {:induction false} NothingRunsTwice(prio: nat -> int, s: State, acts: seq<Act>)
    requires Inv(prio, s) && Known(s) && LogOk(s) && Possible(prio, s, acts)
    ensures var n := Reach(prio, s, acts); LogOk(n) && s.log <= n.log
    decreases |acts|
  {
    hide Inv, Next, Enabled, LogOk;
    if acts != [] {
      StepKeeps(prio, s, acts[0]);
      LogKept(prio, s, acts[0]);
      LogExtends(prio, s, acts[0]);
      NothingRunsTwice(prio, Next(prio, s, acts[0]), acts[1..]);
    }
  }

  lemma LogExtends(prio: nat -> int, s: State, a: Act)
    requires Inv(prio, s) && Known(s) && Enabled(s, a)
    ensures s.log <= Next(prio, s, a).log
  {
    hide Inv, Spawn, TakeFirst, Enqueue, FreeAll;
  }

  /** Over every run without dequeue-all, no job is forgotten: one that was enqueued is in the queue,
      with a thread, back in New by a dequeue, or finished. */
  lemma {:induction false} NothingIsForgotten(prio: nat -> int, s: State, acts: seq<Act>)
    requires Inv(prio, s) && Known(s) && AccountedFor(s) && Possible(prio, s, acts)
    requires forall a :: a in acts ==> !a.DequeueAll?
    ensures AccountedFor(Reach(prio, s, acts))
    decreases |acts|
  {
    hide Inv, Next, Enabled, AccountedFor;
    if acts != [] {
      assert acts[0] in acts;
      StepKeeps(prio, s, acts[0]);
      AccountKept(prio, s, acts[0]);
      NothingIsForgotten(prio, Next(prio, s, acts[0]), acts[1..]);
    }
  }

  /** When the Weaver is idle, whatever was enqueued has finished, unless it was dequeued, and every
      resource is free. */
  lemma IdleMeansFinished(prio: nat -> int, s: State, acts: seq<Act>)
    requires Inv(prio, s) && Known(s) && AccountedFor(s) && Possible(prio, s, acts)
    requires forall a :: a in acts ==> !a.DequeueAll?
    requires Reach(prio, s, acts).w.assignments == [] && Reach(prio, s, acts).w.active == 0
    ensures var n := Reach(prio, s, acts);
      && (forall j :: j in n.jobs ==> n.jobs[j].status == New || n.jobs[j].status.Finished())
      && (forall r :: r in n.w.policies.resources ==> n.w.policies.resources[r].customers == [])
  {
    hide Reach, Possible, ThreadsOk, QueueOk, HeldOk, ListsOk, DepsOk, BoundsOk;
    RunKeeps(prio, s, acts);
    NothingIsForgotten(prio, s, acts);
    var n := Reach(prio, s, acts);
    assert Busy(n.phase) == {};
    forall t | t in n.phase ensures !Holds(n.phase[t]) {
      assert t !in Busy(n.phase);
    }
    assert HeldJobs(n.phase) == {};
    forall r | r in n.w.policies.resources ensures n.w.policies.resources[r].customers == [] {
      NoMember(n.w.policies.resources[r].customers);
    }
  }

  // ---- Dequeueing everything ----

  /** Out of the queue, yet not New: enqueue refuses such a job. */
  ghost predicate Lost(s: State, j: nat) {
    j in s.jobs && s.jobs[j].status == Queued && j !in s.w.assignments
  }

  lemma LostStays(prio: nat -> int, s: State, a: Act, j: nat)
    requires Inv(prio, s) && Known(s) && Enabled(s, a) && Lost(s, j)
    ensures Lost(Next(prio, s, a), j)
  {
    hide Next, Enabled, ThreadsOk, ActiveOk, ListsOk, ResourcesOk, DepsOk, BoundsOk, Sorted;
    var n := Next(prio, s, a);
    if a.Enter? {
      LostStaysTake(prio, s, a.th, j);
    } else if IsMove(a) {
      MoveEffect(prio, s, a);
    } else if IsSpawn(a) {
      LostStaysSpawn(prio, s, a, j);
    } else {
      OutsideEffect(prio, s, a);
      if a.Dequeue? { RemoveFirstMembers(s.w.assignments, a.j); }
    }
  }

  lemma LostStaysTake(prio: nat -> int, s: State, th: nat, j: nat)
    requires Inv(prio, s) && Known(s) && Enabled(s, Enter(th)) && Lost(s, j)
    ensures Lost(Next(prio, s, Enter(th)), j)
  {
    hide Next, ThreadsOk, ActiveOk, HeldOk, ListsOk, ResourcesOk, DepsOk, BoundsOk, Sorted;
    hide HeldJobs, AllWilling, Entered, RemoveAt;
    var i := TakeMoves(prio, s, th);
    if Next(prio, s, Enter(th)).phase[th].Working? { RemoveAtKeeps(prio, s.w.assignments, i); }
  }

  lemma LostStaysSpawn(prio: nat -> int, s: State, a: Act, j: nat)
    requires Inv(prio, s) && Known(s) && Enabled(s, a) && IsSpawn(a) && Lost(s, j)
    ensures Lost(Next(prio, s, a), j)
  {
    hide Spawn, Enqueue, ThreadsOk, ActiveOk, HeldOk, ListsOk, ResourcesOk, DepsOk, BoundsOk, Sorted, InsertAll;
    if a.EnqueueJobs? {
      Numbered(s);
      EnqueueGrows(s.w, prio, |a.js|, a.js);
      InsertAllMembers(prio, s.w.assignments, a.js);
    }
  }

  lemma {:induction false} LostForGood(prio: nat -> int, s: State, acts: seq<Act>, j: nat)
    requires Inv(prio, s) && Known(s) && Lost(s, j) && Possible(prio, s, acts)
    ensures Lost(Reach(prio, s, acts), j)
    decreases |acts|
  {
    hide Inv, Next, Enabled, Lost;
    if acts != [] {
      StepKeeps(prio, s, acts[0]);
      LostStays(prio, s, acts[0], j);
      LostForGood(prio, Next(prio, s, acts[0]), acts[1..], j);
    }
  }

  /** Dequeueing all jobs at once does not put them back to New, as dequeueing one does: whatever is
      queued then never runs, and can never be enqueued again. */
  lemma DequeueAllLoses(prio: nat -> int, s: State, acts: seq<Act>, j: nat)
    requires Inv(prio, s) && Known(s) && j in s.w.assignments && Possible(prio, Next(prio, s, DequeueAll), acts)
    ensures var n := Reach(prio, Next(prio, s, DequeueAll), acts);
      && j in n.jobs && n.jobs[j].status == Queued && j !in n.w.assignments
      && forall js :: j in js ==> !Enabled(n, EnqueueJobs(js))
  {
    hide Reach, Possible;
    var m := Next(prio, s, DequeueAll);
    StepKeeps(prio, s, DequeueAll);
    LostForGood(prio, m, acts, j);
  }

  // ---- The order of execution ----

  /** Nothing runnable has a higher priority than entry i, and nothing runnable of the same priority
      was queued before it. */
  ghost predicate Best(prio: nat -> int, s: State, i: nat)
    requires Known(s) && i < |s.w.assignments|
  {
    var q := s.w.assignments;
    forall m :: 0 <= m < |q| && m != i && AllWilling(s.w.policies, s.jobs[q[m]].list, q[m]) ==>
      && prio(q[m]) <= prio(q[i])
      && (prio(q[m]) == prio(q[i]) ==> i < m)
  }

  /** Every step that takes a job takes the best one. */
  lemma TakesTheBest(prio: nat -> int, s: State, th: nat)
    requires Inv(prio, s) && Known(s) && Enabled(s, Enter(th))
    ensures var n := Next(prio, s, Enter(th));
      && th in n.phase
      && (n.phase[th].Working? ==> exists i :: TookEntry(s, n, th, i) && Best(prio, s, i))
  {
    hide Next, ThreadsOk, ActiveOk, HeldOk, ListsOk, ResourcesOk, DepsOk, BoundsOk, HeldJobs, Entered;
    hide RemoveAt, AllWilling;
    var n := Next(prio, s, Enter(th));
    var i := TakeMoves(prio, s, th);
    if n.phase[th].Working? {
      FirstIsTaken(prio, s, th, i);
      assert TookEntry(s, n, th, i) && Best(prio, s, i);
    }
  }

  lemma FirstIsTaken(prio: nat -> int, s: State, th: nat, i: nat)
    requires Inv(prio, s) && Known(s) && Enabled(s, Enter(th))
    requires TookEntry(s, Next(prio, s, Enter(th)), th, i)
    ensures forall m :: 0 <= m < i ==> !AllWilling(s.w.policies, s.jobs[s.w.assignments[m]].list, s.w.assignments[m])
  {
    hide Spawn, ThreadsOk, ActiveOk, HeldOk, ListsOk, ResourcesOk, DepsOk, BoundsOk, HeldJobs, Entered;
    hide RemoveAt, AllWilling, Scan, Settled, Sorted;
    ReadyToScan(prio, s);
    Numbered(s);
    SettledGrows(s.w, s.phase[th].busy);
    ScanFindsFirst(s.w.policies, s.w.assignments, Lists(s.jobs), 0);
  }

  /** Every queued job is willing to run at once: no restriction, no unresolved dependency. */
  ghost predicate Unhindered(s: State) {
    forall j, p :: j in s.w.assignments && j in s.jobs && p in s.jobs[j].list ==>
      p == Dependencies && !D.HasUnresolved(s.w.policies.deps, j)
  }

  /** Nobody enqueues, and nobody dequeues. */
  predicate LeavesQueue(a: Act) {
    !a.EnqueueJobs? && !a.Dequeue? && !a.DequeueAll?
  }

  lemma UnhinderedKept(prio: nat -> int, s: State, a: Act)
    requires Inv(prio, s) && Known(s) && Unhindered(s) && Enabled(s, a) && LeavesQueue(a)
    ensures Unhindered(Next(prio, s, a))
  {
    hide Spawn, TakeFirst, ThreadsOk, ActiveOk, ListsOk, ResourcesOk, BoundsOk, Sorted, AllWilling, HeldJobs;
    hide D.HasUnresolved, FreeAll;
    var n := Next(prio, s, a);
    match a
    case Enter(th) =>
      var i := TakeMoves(prio, s, th);
      if n.phase[th].Working? { RemoveAtKeeps(prio, s.w.assignments, i); }
    case FreePolicies(th) => FreeingUnhinders(prio, s, th);
    case AddDependency(x, y) => AddingUnhinders(prio, s, x, y);
    case RemoveDependency(x, y) => RemovingUnhinders(prio, s, x, y);
    case _ =>
  }

  lemma FreeingUnhinders(prio: nat -> int, s: State, th: nat)
    requires Inv(prio, s) && Known(s) && Unhindered(s) && Enabled(s, FreePolicies(th))
    ensures Unhindered(Next(prio, s, FreePolicies(th)))
  {
    hide ThreadsOk, ActiveOk, ResourcesOk, DepsOk, BoundsOk, Sorted, HeldOk;
    var j := s.phase[th].job;
    FreeAllExactly(s.w.policies, s.jobs[j].list, j, s.jobs[j].status == Success);
    assert forall p :: p in D.Resolved(s.w.policies.deps, j) ==> p in s.w.policies.deps;
  }

  lemma AddedUnresolved(deps: seq<(nat, nat)>, x: nat, y: nat, j: nat)
    requires j != x
    ensures D.HasUnresolved([(x, y)] + deps, j) == D.HasUnresolved(deps, j)
  {
    var l := [(x, y)] + deps;
    assert forall i :: 0 <= i < |deps| ==> l[i + 1] == deps[i];
    assert forall i :: 1 <= i < |l| ==> l[i] == deps[i - 1];
  }

  lemma NoPolicyNoDependency(s: State, j: nat)
    requires DepsOk(s) && j in s.jobs && Dependencies !in s.jobs[j].list
    ensures !D.HasUnresolved(s.w.policies.deps, j)
  {
  }

  lemma AddingUnhinders(prio: nat -> int, s: State, x: nat, y: nat)
    requires Inv(prio, s) && Known(s) && Unhindered(s) && Enabled(s, AddDependency(x, y))
    ensures Unhindered(Next(prio, s, AddDependency(x, y)))
  {
    hide ThreadsOk, ActiveOk, ResourcesOk, BoundsOk, Sorted, HeldOk, ListsOk, DepsOk, D.HasUnresolved;
    var n := Next(prio, s, AddDependency(x, y));
    forall j, p | j in n.w.assignments && j in n.jobs && p in n.jobs[j].list
      ensures p == Dependencies && !D.HasUnresolved(n.w.policies.deps, j)
    {
      assert p in s.jobs[j].list || p == Dependencies;
      AddedUnresolved(s.w.policies.deps, x, y, j);
      if Dependencies !in s.jobs[j].list { NoPolicyNoDependency(s, j); }
    }
  }

  lemma RemovedUnresolved(deps: seq<(nat, nat)>, x: nat, y: nat, j: nat)
    requires D.HasUnresolved(RemoveFirst(deps, (x, y)), j)
    ensures D.HasUnresolved(deps, j)
  {
    var r := RemoveFirst(deps, (x, y));
    var i :| 0 <= i < |r| && r[i].0 == j;
    RemoveFirstSubset(deps, (x, y), r[i]);
    var k :| 0 <= k < |deps| && deps[k] == r[i];
  }

  lemma RemovingUnhinders(prio: nat -> int, s: State, x: nat, y: nat)
    requires Inv(prio, s) && Known(s) && Unhindered(s) && Enabled(s, RemoveDependency(x, y))
    ensures Unhindered(Next(prio, s, RemoveDependency(x, y)))
  {
    hide Inv, D.HasUnresolved;
    var n := Next(prio, s, RemoveDependency(x, y));
    forall j, p | j in n.w.assignments && j in n.jobs && p in n.jobs[j].list
      ensures p == Dependencies && !D.HasUnresolved(n.w.policies.deps, j)
    {
      if D.HasUnresolved(n.w.policies.deps, j) { RemovedUnresolved(s.w.policies.deps, x, y, j); }
    }
  }

  lemma WillingHead(prio: nat -> int, s: State, i: nat)
    requires QueueOk(prio, s) && Unhindered(s) && i < |s.w.assignments|
    ensures s.w.assignments[i] in s.jobs
    ensures AllWilling(s.w.policies, s.jobs[s.w.assignments[i]].list, s.w.assignments[i])
  {
    hide D.HasUnresolved, Sorted;
    var j := s.w.assignments[i];
    assert j in s.w.assignments;
    forall k | 0 <= k < |s.jobs[j].list| ensures Willing(s.w.policies, s.jobs[j].list[k], j) {
      assert s.jobs[j].list[k] in s.jobs[j].list;
    }
  }

  /** Without hindrance, a step takes the head of the queue or nothing. */
  lemma TakesTheHead(prio: nat -> int, s: State, a: Act)
    requires Inv(prio, s) && Known(s) && Unhindered(s) && Enabled(s, a) && LeavesQueue(a)
    ensures var n := Next(prio, s, a); n.log + n.w.assignments == s.log + s.w.assignments
  {
    hide Spawn, TakeFirst, ThreadsOk, ActiveOk, HeldOk, ListsOk, ResourcesOk, DepsOk, BoundsOk, Sorted;
    hide HeldJobs, Entered, FreeAll, D.HasUnresolved, Unhindered, AllWilling;
    var n := Next(prio, s, a);
    if a.Enter? {
      var i := TakeMoves(prio, s, a.th);
      if n.phase[a.th].Working? {
        FirstIsTaken(prio, s, a.th, i);
        WillingHead(prio, s, 0);
        assert i == 0;
      }
    }
  }

  /** With any number of threads and any interleaving, jobs without hindrance are taken in the order
      of the queue. */
  lemma {:induction false} RunsInQueueOrder(prio: nat -> int, s: State, acts: seq<Act>)
    requires Inv(prio, s) && Known(s) && Unhindered(s) && Possible(prio, s, acts)
    requires forall a :: a in acts ==> LeavesQueue(a)
    ensures var n := Reach(prio, s, acts); n.log + n.w.assignments == s.log + s.w.assignments
    decreases |acts|
  {
    hide Inv, Next, Enabled, Unhindered;
    if acts != [] {
      assert acts[0] in acts;
      StepKeeps(prio, s, acts[0]);
      UnhinderedKept(prio, s, acts[0]);
      TakesTheHead(prio, s, acts[0]);
      RunsInQueueOrder(prio, Next(prio, s, acts[0]), acts[1..]);
    }
  }

  /** A batch of jobs without policies, enqueued into an empty queue, runs in exactly the stable sort
      of its enqueue order: that sort is always what has been taken since, followed by what is still
      queued. */
  lemma BatchRunsInStableSort(prio: nat -> int, s: State, js: seq<nat>, acts: seq<Act>)
    requires Inv(prio, s) && Known(s) && s.w.assignments == [] && Enabled(s, EnqueueJobs(js))
    requires forall j :: j in js ==> s.jobs[j].list == []
    requires Possible(prio, Next(prio, s, EnqueueJobs(js)), acts) && forall a :: a in acts ==> LeavesQueue(a)
    ensures var n := Reach(prio, Next(prio, s, EnqueueJobs(js)), acts);
      && s.log <= n.log
      && StableSort(prio, n.log[|s.log|..] + n.w.assignments, js)
  {
    hide Reach, Possible, Enqueue, InsertAll, StableSort, Spawn, ThreadsOk, ActiveOk, QueueOk, HeldOk;
    hide ListsOk, ResourcesOk, DepsOk, BoundsOk;
    var m := Next(prio, s, EnqueueJobs(js));
    StepKeeps(prio, s, EnqueueJobs(js));
    Numbered(s);
    EnqueueGrows(s.w, prio, |js|, js);
    InsertAllMembers(prio, [], js);
    BatchIsSorted(prio, js);
    RunsInQueueOrder(prio, m, acts);
    var n := Reach(prio, m, acts);
    NothingUnlogged(prio, m, acts);
    assert n.log + n.w.assignments == s.log + m.w.assignments;
    assert (n.log + n.w.assignments)[|s.log|..] == n.log[|s.log|..] + n.w.assignments;
    assert (s.log + m.w.assignments)[|s.log|..] == m.w.assignments;
  }

  lemma {:induction false} NothingUnlogged(prio: nat -> int, s: State, acts: seq<Act>)
    requires Inv(prio, s) && Known(s) && Possible(prio, s, acts)
    ensures s.log <= Reach(prio, s, acts).log
    decreases |acts|
  {
    hide Inv, Next, Enabled;
    if acts != [] {
      StepKeeps(prio, s, acts[0]);
      LogExtends(prio, s, acts[0]);
      NothingUnlogged(prio, Next(prio, s, acts[0]), acts[1..]);
    }
  }
}
