/** Wake-ups across suspend and resume. A thread gives up the mutex between its pass in the Suspending
    state and its wait, so a resume in between passes it by. When that loses a wake-up, and when not. */
module SchedulerResume {
  import opened JobStatus
  import opened Sequences
  import opened QueuePolicies
  import opened WeaverSpec
  import opened QueueOrder
  import opened Scheduler
  import opened SchedulerInvariant
  import opened SchedulerWakeup
  import opened SchedulerRest
  import opened SchedulerSafety
  import D = DependencyMap

  // ---- Runs that lose nothing ----

  /** Suspend at any time; resume when no thread is on its way into wait(). Caps and dependencies may
      change from outside while the Weaver does not work. */
  ghost predicate Calm(s: State, a: Act) {
    match a
    case Resume => NobodyStopping(s)
    case ShutDown => false
    case SetCap(_, _) => s.w.state != WorkingHard
    case RemoveDependency(_, _) => s.w.state != WorkingHard
    case SetMaximumThreads(max) => max >= 1
    case _ => true
  }

  ghost predicate CalmRun(prio: nat -> int, s: State, acts: seq<Act>)
    requires Possible(prio, s, acts)
    decreases |acts|
  {
    acts == [] || (Calm(s, acts[0]) && CalmRun(prio, Next(prio, s, acts[0]), acts[1..]))
  }

  /** Alert whenever the Weaver works. */
  ghost predicate AlertAtWork(s: State)
    requires Known(s)
  {
    s.w.inventoryMax >= 1 && (s.w.state == WorkingHard ==> Alert(s))
  }

  lemma MaximumStays(prio: nat -> int, s: State, a: Act)
    requires Inv(prio, s) && Known(s) && Enabled(s, a) && Calm(s, a)
    ensures Next(prio, s, a).w.inventoryMax >= 1 || s.w.inventoryMax < 1
  {
    hide Next, Enabled, ActiveOk, QueueOk, HeldOk, ListsOk, ResourcesOk, DepsOk, BoundsOk;
    if a.Enter? {
      MaximumStaysTake(prio, s, a.th);
    } else if IsMove(a) {
      MoveEffect(prio, s, a);
    } else if IsSpawn(a) {
      MaximumStaysSpawn(prio, s, a);
    } else {
      OutsideEffect(prio, s, a);
    }
  }

  lemma MaximumStaysTake(prio: nat -> int, s: State, th: nat)
    requires Known(s) && Enabled(s, Enter(th))
    ensures Next(prio, s, Enter(th)).w.inventoryMax == s.w.inventoryMax
  {
    hide Scan, Spawn;
  }

  lemma MaximumStaysSpawn(prio: nat -> int, s: State, a: Act)
    requires ThreadsOk(s) && Known(s) && Enabled(s, a) && IsSpawn(a)
    ensures Next(prio, s, a).w.inventoryMax == if a.SetMaximumThreads? then a.max else s.w.inventoryMax
  {
    hide Enqueue, Spawn, ThreadsOk;
    Numbered(s);
    if a.EnqueueJobs? { EnqueueGrows(s.w, prio, |a.js|, a.js); }
  }

  lemma AlertAtWorkKept(prio: nat -> int, s: State, a: Act)
    requires Inv(prio, s) && Known(s) && AlertAtWork(s) && Enabled(s, a) && Calm(s, a)
    requires Known(Next(prio, s, a)) && Inv(prio, Next(prio, s, a))
    ensures AlertAtWork(Next(prio, s, a))
  {
    hide Inv, Alert;
    var n := Next(prio, s, a);
    MaximumStays(prio, s, a);
    if a == Resume {
      BoundsOf(prio, n);
      AlertWhenAllWoken(s, n);
    } else if s.w.state != WorkingHard {
      TakesOnlyWhileWorking(prio, s, a);
    } else if a != Suspend {
      hide Next;
      AlertKept(prio, s, a);
    }
  }

  lemma BoundsOf(prio: nat -> int, s: State)
    requires Inv(prio, s)
    ensures BoundsOk(s)
  {
  }

  /** With suspends at any time, and resumes that find no thread on its way into wait(): whenever the
      Weaver works and a queued job would be accepted by all its policies, a thread is awake. */
  lemma {:induction false} NoLostWakeupAcrossResume(prio: nat -> int, s: State, acts: seq<Act>)
    requires Inv(prio, s) && Known(s) && AlertAtWork(s) && Possible(prio, s, acts) && CalmRun(prio, s, acts)
    ensures var n := Reach(prio, s, acts); Inv(prio, n) && Known(n) && AlertAtWork(n)
    decreases |acts|
  {
    hide Inv, Next, Enabled, AlertAtWork, Calm;
    if acts != [] {
      StepKeeps(prio, s, acts[0]);
      AlertAtWorkKept(prio, s, acts[0]);
      NoLostWakeupAcrossResume(prio, Next(prio, s, acts[0]), acts[1..]);
    }
  }

  // ---- When all threads are passed by ----

  /** On its way into wait(), whatever happens meanwhile. */
  predicate OnTheWay(p: Phase) {
    p.WantsWait? || (p.Entering? && p.stopping)
  }

  /** The threads of the inventory that are neither asleep nor on their way into wait(). */
  ghost function Available(s: State): set<nat> {
    set t | t in s.phase && t in s.w.inventory && t !in s.w.sleeping && !OnTheWay(s.phase[t])
  }

  /** By how much the inventory exceeds its maximum; that many available threads expire. */
  function Surplus(s: State): int {
    |s.w.inventory| - s.w.inventoryMax
  }

  ghost predicate SomePasses(s: State) {
    exists t :: t in s.phase && s.phase[t].Entering?
  }

  /** There are no more available threads than will expire, and no pass will create another. */
  ghost predicate PassedBy(s: State) {
    && |Available(s)| <= (if Surplus(s) > 0 then Surplus(s) else 0)
    && (Surplus(s) >= 0 || !SomePasses(s))
  }

  ghost predicate RunnableAt(s: State, j: nat) {
    j in s.w.assignments && j in s.jobs && AllWilling(s.w.policies, s.jobs[j].list, j)
  }

  // ---- What the steps of threads do to that ----

  lemma SettledFull(w: Weaver<nat, nat>, busy: bool)
    requires |w.inventory| >= w.inventoryMax
    ensures Settled(w, busy) == w.(expired := [], active := w.active - if busy then 1 else 0)
  {
    assert w.inventory + [] == w.inventory;
  }

  lemma SpawnNothing(phase: map<nat, Phase>, before: nat)
    ensures Spawn(phase, before, before) == phase
  {
  }

  lemma AvailableMembers(s: State, th: nat)
    requires ThreadsOk(s) && th in s.phase && !s.phase[th].Gone? && !s.phase[th].Parked? && !OnTheWay(s.phase[th])
    ensures th in Available(s)
  {
  }

  /** A pass on the way into wait() of a full inventory changes nothing but the thread. */
  lemma PassesBy(prio: nat -> int, s: State, th: nat)
    requires Known(s) && s.w.state == WorkingHard && Enabled(s, Enter(th)) && s.phase[th].stopping && Surplus(s) >= 0
    ensures var n := Next(prio, s, Enter(th));
      && n.phase == s.phase[th := WantsWait] && n.jobs == s.jobs
      && n.w == s.w.(expired := [], active := n.w.active)
  {
    hide Settled, Scan, Spawn;
    SettledFull(s.w, s.phase[th].busy);
    SpawnNothing(s.phase, s.w.created);
  }

  /** Any other pass through an oversized inventory expires. */
  lemma Expires(prio: nat -> int, s: State, th: nat)
    requires Known(s) && s.w.state == WorkingHard && Enabled(s, Enter(th)) && !s.phase[th].stopping && Surplus(s) > 0
    ensures var n := Next(prio, s, Enter(th));
      && n.phase == s.phase[th := Gone] && n.jobs == s.jobs
      && n.w == s.w.(expired := [th], active := n.w.active, inventory := RemoveFirst(s.w.inventory, th))
  {
    hide Settled, Scan, Spawn, RemoveFirst;
    SettledFull(s.w, s.phase[th].busy);
    SpawnNothing(s.phase, s.w.created);
  }

  lemma OneLess(s: State, n: State, th: nat)
    requires ThreadsOk(s) && th in s.phase && s.phase[th].Entering? && !s.phase[th].stopping
    requires n.phase == s.phase[th := Gone] && n.w.sleeping == s.w.sleeping && n.w.inventoryMax == s.w.inventoryMax
    requires n.w.inventory == RemoveFirst(s.w.inventory, th)
    ensures |Available(n)| == |Available(s)| - 1 && Surplus(n) == Surplus(s) - 1
  {
    RemoveFirstMembers(s.w.inventory, th);
    AvailableMembers(s, th);
    assert Available(n) == Available(s) - {th};
  }

  lemma SameAvailable(s: State, n: State, th: nat)
    requires th in s.phase && th in n.phase && n.phase == s.phase[th := n.phase[th]] && n.w.inventory == s.w.inventory
    requires forall t :: t != th ==> (t in s.w.sleeping <==> t in n.w.sleeping)
    requires (th !in s.w.sleeping && !OnTheWay(s.phase[th])) == (th !in n.w.sleeping && !OnTheWay(n.phase[th]))
    ensures Available(n) == Available(s)
  {
  }

  /** Outside the critical section, no thread becomes available or stops being so. */
  lemma MovesKeepAvailable(prio: nat -> int, s: State, a: Act)
    requires Inv(prio, s) && Known(s) && s.w.state == WorkingHard && Enabled(s, a) && OfThread(a) && !a.Enter?
    ensures var n := Next(prio, s, a);
      && Available(n) == Available(s) && Surplus(n) == Surplus(s)
      && (SomePasses(s) ==> SomePasses(n))
      && (SomePasses(n) ==> SomePasses(s) || Available(s) != {})
  {
    hide ActiveOk, QueueOk, HeldOk, ListsOk, ResourcesOk, DepsOk, BoundsOk, FreeAll, Available;
    var n := Next(prio, s, a);
    var th := a.th;
    MoveEffect(prio, s, a);
    SameAvailable(s, n, th);
    if SomePasses(s) {
      var t :| t in s.phase && s.phase[t].Entering?;
      assert n.phase[t].Entering?;
    }
    if a.Dispatch? { AvailableMembers(s, th); }
  }

  lemma StillWilling(ps: Policies<nat, nat>, list: seq<Policy<nat>>, j: nat, success: bool, l: seq<Policy<nat>>, x: nat)
    requires AllWilling(ps, l, x)
    ensures AllWilling(Freed(ps, list, j, success), l, x)
  {
    var qs := Freed(ps, list, j, success);
    forall i | 0 <= i < |l| ensures Willing(qs, l[i], x) {
      assert Willing(ps, l[i], x);
      if l[i].Dependencies? { NoneAdded(ps.deps, j, x); }
    }
  }

  lemma NoneAdded(deps: seq<(nat, nat)>, j: nat, x: nat)
    requires !D.HasUnresolved(deps, x)
    ensures !D.HasUnresolved(D.Resolved(deps, j), x)
  {
    forall i | 0 <= i < |D.Resolved(deps, j)| ensures D.Resolved(deps, j)[i].0 != x {
      assert D.Resolved(deps, j)[i] in deps;
    }
  }

  lemma MovesKeepRunnable(prio: nat -> int, s: State, a: Act, j: nat)
    requires Inv(prio, s) && Known(s) && Enabled(s, a) && OfThread(a) && !a.Enter? && RunnableAt(s, j)
    ensures var n := Next(prio, s, a); RunnableAt(n, j) && n.w.assignments == s.w.assignments
  {
    hide ThreadsOk, ActiveOk, QueueOk, HeldOk, ResourcesOk, DepsOk, BoundsOk, AllWilling;
    MoveEffect(prio, s, a);
    if a.FreePolicies? {
      var h := s.phase[a.th].job;
      var success := s.jobs[h].status == Success;
      FreeAllExactly(s.w.policies, s.jobs[h].list, h, success);
      StillWilling(s.w.policies, s.jobs[h].list, h, success, s.jobs[j].list, j);
    }
  }

  // ---- Passed by: the wake-up is lost ----

  lemma PassedByKept(prio: nat -> int, s: State, a: Act, j: nat)
    requires Inv(prio, s) && Known(s) && s.w.state == WorkingHard && Enabled(s, a) && OfThread(a)
    requires PassedBy(s) && RunnableAt(s, j)
    ensures var n := Next(prio, s, a); PassedBy(n) && RunnableAt(n, j) && n.w.assignments == s.w.assignments
  {
    hide Next, ActiveOk, QueueOk, HeldOk, ListsOk, ResourcesOk, DepsOk, BoundsOk, Available, RunnableAt;
    var n := Next(prio, s, a);
    if !a.Enter? {
      MovesKeepAvailable(prio, s, a);
      MovesKeepRunnable(prio, s, a, j);
    } else {
      PassedByKeptTake(prio, s, a.th, j);
    }
  }

  lemma PassedByKeptTake(prio: nat -> int, s: State, th: nat, j: nat)
    requires Inv(prio, s) && Known(s) && s.w.state == WorkingHard && Enabled(s, Enter(th))
    requires PassedBy(s) && RunnableAt(s, j)
    ensures var n := Next(prio, s, Enter(th)); PassedBy(n) && RunnableAt(n, j) && n.w.assignments == s.w.assignments
  {
    hide Next, ActiveOk, QueueOk, HeldOk, ListsOk, ResourcesOk, DepsOk, BoundsOk, Available, RemoveFirst, AllWilling;
    var n := Next(prio, s, Enter(th));
    assert SomePasses(s);
    if s.phase[th].stopping {
      PassesBy(prio, s, th);
      SameAvailable(s, n, th);
    } else {
      AvailableMembers(s, th);
      assert Surplus(s) > 0;
      Expires(prio, s, th);
      OneLess(s, n, th);
    }
  }

  /** Once all threads are passed by, they go to rest over the runnable job: however they continue,
      it stays in the queue, and where they can go no further, all of them sleep. */
  lemma {:induction false} PassedByLoses(prio: nat -> int, s: State, acts: seq<Act>, j: nat)
    requires Inv(prio, s) && Known(s) && s.w.state == WorkingHard && PassedBy(s) && RunnableAt(s, j)
    requires Possible(prio, s, acts) && forall a :: a in acts ==> OfThread(a)
    ensures RunnableAt(Reach(prio, s, acts), j)
    decreases |acts|
  {
    hide Inv, Next, Enabled, PassedBy, RunnableAt;
    if acts != [] {
      assert acts[0] in acts;
      StepKeeps(prio, s, acts[0]);
      KeepsWorking(prio, s, acts[0]);
      PassedByKept(prio, s, acts[0], j);
      PassedByLoses(prio, Next(prio, s, acts[0]), acts[1..], j);
    }
  }

  // ---- Not passed by: it is not lost ----

  /** More threads are available than expire; and whenever a job is runnable, one is available or will
      be created. */
  ghost predicate Attended(s: State)
    requires Known(s)
  {
    && (Surplus(s) >= 1 ==> |Available(s)| > Surplus(s))
    && (SomeRunnable(s) ==> Available(s) != {} || (Surplus(s) < 0 && SomePasses(s)))
  }

  lemma AttendedKeptTake(prio: nat -> int, s: State, th: nat)
    requires Inv(prio, s) && Known(s) && s.w.state == WorkingHard && Enabled(s, Enter(th)) && Attended(s)
    requires Known(Next(prio, s, Enter(th))) && Inv(prio, Next(prio, s, Enter(th)))
    ensures Attended(Next(prio, s, Enter(th)))
  {
    hide Next, Inv, Available, RemoveFirst, AllWilling;
    var n := Next(prio, s, Enter(th));
    ThreadsOf(prio, s);
    hide ThreadsOk;
    if Surplus(s) < 0 {
      OneCreated(prio, s, th);
    } else if s.phase[th].stopping {
      PassesBy(prio, s, th);
      SameAvailable(s, n, th);
    } else if Surplus(s) > 0 {
      Expires(prio, s, th);
      OneLess(s, n, th);
    } else {
      TakesOrFindsNothing(prio, s, th);
    }
  }

  lemma ThreadsOf(prio: nat -> int, s: State)
    requires Inv(prio, s)
    ensures ThreadsOk(s)
  {
  }

  /** A pass below the maximum creates a thread, which is available. */
  lemma OneCreated(prio: nat -> int, s: State, th: nat)
    requires Inv(prio, s) && Known(s) && s.w.state == WorkingHard && Enabled(s, Enter(th)) && Surplus(s) < 0
    ensures var n := Next(prio, s, Enter(th)); Available(n) != {} && Surplus(n) <= 0
  {
    hide Spawn, Settled, TakeFirst, ActiveOk, QueueOk, HeldOk, ListsOk, ResourcesOk, DepsOk, BoundsOk, RemoveAt;
    var n := Next(prio, s, Enter(th));
    var p := s.phase[th];
    var m := Settled(s.w, p.busy);
    Numbered(s);
    SettledShort(s.w, p.busy);
    TakeHasShape(s.w, Lists(s.jobs), th, p.busy, p.stopping);
    SpawnChangesNothing(s.phase, s.w.created, m.created);
    var c := s.w.created + 1;
    assert c in m.inventory && c !in s.phase && c != th;
    assert c in Available(n);
  }

  lemma SettledShort(w: Weaver<nat, nat>, busy: bool)
    requires |w.inventory| < w.inventoryMax
    ensures var m := Settled(w, busy);
      && m.created == w.created + 1 && m.inventory == w.inventory + [w.created + 1]
      && m.state == w.state && m.inventoryMax == w.inventoryMax && m.sleeping == w.sleeping
  {
    assert NewThreads(w.created, 1) == [w.created + 1];
  }

  /** A pass at the maximum takes a job, and is then still available, or there was none to take. */
  lemma TakesOrFindsNothing(prio: nat -> int, s: State, th: nat)
    requires Inv(prio, s) && Known(s) && s.w.state == WorkingHard && Enabled(s, Enter(th))
    requires !s.phase[th].stopping && Surplus(s) == 0
    requires Known(Next(prio, s, Enter(th))) && Inv(prio, Next(prio, s, Enter(th)))
    ensures var n := Next(prio, s, Enter(th)); Surplus(n) == 0 && (SomeRunnable(n) ==> Available(n) != {})
  {
    hide Spawn, Settled, TakeFirst, ActiveOk, QueueOk, HeldOk, ListsOk, ResourcesOk, DepsOk, BoundsOk, RemoveAt;
    hide AllWilling, Available;
    var n := Next(prio, s, Enter(th));
    Numbered(s);
    SettledFull(s.w, s.phase[th].busy);
    TakeHasShape(s.w, Lists(s.jobs), th, s.phase[th].busy, false);
    TakeEffect(prio, s, th);
    if n.phase[th].Working? {
      AvailableMembers(n, th);
    } else {
      assert !SomeRunnable(n);
    }
  }

  lemma AttendedKept(prio: nat -> int, s: State, a: Act)
    requires Inv(prio, s) && Known(s) && s.w.state == WorkingHard && Enabled(s, a) && OfThread(a) && Attended(s)
    requires Known(Next(prio, s, a)) && Inv(prio, Next(prio, s, a))
    ensures Attended(Next(prio, s, a))
  {
    hide Next, Inv, Available, SomeRunnable, Surplus, SomePasses;
    if a.Enter? {
      AttendedKeptTake(prio, s, a.th);
    } else {
      MovesKeepAvailable(prio, s, a);
      if a.FreePolicies? {
        FreerIsAvailable(prio, s, a.th);
      } else {
        SameRunnable(prio, s, a);
      }
    }
  }

  lemma FreerIsAvailable(prio: nat -> int, s: State, th: nat)
    requires Inv(prio, s) && Known(s) && Enabled(s, FreePolicies(th))
    ensures Available(s) != {}
  {
    hide Available;
    AvailableMembers(s, th);
  }

  lemma SameRunnable(prio: nat -> int, s: State, a: Act)
    requires Inv(prio, s) && Known(s) && Enabled(s, a) && OfThread(a) && !a.Enter? && !a.FreePolicies?
    requires Known(Next(prio, s, a))
    ensures SomeRunnable(Next(prio, s, a)) ==> SomeRunnable(s)
  {
    hide Next, Enabled, ThreadsOk, ActiveOk, HeldOk, ListsOk, ResourcesOk, DepsOk, BoundsOk, AllWilling;
    MoveEffect(prio, s, a);
  }

  lemma {:induction false} AttendedLosesNothing(prio: nat -> int, s: State, acts: seq<Act>)
    requires Inv(prio, s) && Known(s) && s.w.state == WorkingHard && Attended(s)
    requires Possible(prio, s, acts) && forall a :: a in acts ==> OfThread(a)
    ensures var n := Reach(prio, s, acts); Known(n) && (AtRest(n) ==> !SomeRunnable(n))
    decreases |acts|
  {
    hide Inv, Next, Enabled, SomeRunnable, Available;
    if acts == [] {
      if AtRest(s) { NobodyAvailableAtRest(prio, s); }
    } else {
      assert acts[0] in acts;
      StepKeeps(prio, s, acts[0]);
      KeepsWorking(prio, s, acts[0]);
      AttendedKept(prio, s, acts[0]);
      AttendedLosesNothing(prio, Next(prio, s, acts[0]), acts[1..]);
    }
  }

  lemma NobodyAvailableAtRest(prio: nat -> int, s: State)
    requires Inv(prio, s) && AtRest(s)
    ensures Available(s) == {} && !SomePasses(s)
  {
  }

  // ---- The exact condition ----

  /** When a resume with a runnable job in the queue loses the wake-up: let the threads go on until
      none has a step left, which they do after a bounded number of steps. All of them sleep then, and
      a runnable job is left in the queue exactly if the resume passed them by. */
  lemma ResumeLosesExactlyWhen(prio: nat -> int, s: State, acts: seq<Act>)
    requires Inv(prio, s) && Known(s) && Enabled(s, Resume)
    requires SomeRunnable(Next(prio, s, Resume)) && Possible(prio, Next(prio, s, Resume), acts)
    requires forall a :: a in acts ==> OfThread(a)
    requires forall a :: OfThread(a) ==> !Enabled(Reach(prio, Next(prio, s, Resume), acts), a)
    ensures var n := Reach(prio, Next(prio, s, Resume), acts);
      Known(n) && AtRest(n) && (SomeRunnable(n) <==> PassedBy(Next(prio, s, Resume)))
  {
    var m := Next(prio, s, Resume);
    StepKeeps(prio, s, Resume);
    ThreadsComeToRest(prio, m, acts);
    RunKeeps(prio, m, acts);
    hide Inv, Next, Enabled, Possible, Reach, AllWilling, Available;
    var n := Reach(prio, m, acts);
    forall t | t in n.w.inventory ensures t in n.w.sleeping {
      if t !in n.w.sleeping { AwakeCanStep(prio, n, t); }
    }
    if PassedBy(m) {
      var i :| 0 <= i < |m.w.assignments|
               && AllWilling(m.w.policies, m.jobs[m.w.assignments[i]].list, m.w.assignments[i]);
      var j := m.w.assignments[i];
      PassedByLoses(prio, m, acts, j);
      var k :| 0 <= k < |n.w.assignments| && n.w.assignments[k] == j;
    } else {
      AttendedLosesNothing(prio, m, acts);
    }
  }

  // ---- A wake-up that is lost ----

  /** One thread and one queued job without policies. */
  function Prepared(): State {
    OneJob(WorkingHard, {}, Applying(false))
  }

  function OneJob(state: StateId, sleeping: set<nat>, p: Phase): State {
    State(Weaver(state, [0], [1], [], 0, 1, 1, sleeping, Policies([], map[])),
          map[1 := p], map[0 := Job(Queued, [])], [], {})
  }

  /** The thread finds the Weaver suspending, completes the suspend, and is overtaken by resume before
      it waits. */
  function Overtaken(): seq<Act> {
    [Suspend] + ([Dispatch(1)] + ([Enter(1)] + ([Resume] + ([Wait(1)] + []))))
  }

  lemma OneMore(prio: nat -> int, s: State, a: Act, acts: seq<Act>)
    requires Known(s) && Enabled(s, a) && Possible(prio, Next(prio, s, a), acts)
    ensures Possible(prio, s, [a] + acts) && Reach(prio, s, [a] + acts) == Reach(prio, Next(prio, s, a), acts)
  {
  }

  /** Such a state comes about from the start. */
  lemma PreparedIsReached(prio: nat -> int, s: State)
    requires Initial(s)
    ensures var acts := [SetMaximumThreads(1)] + ([NewJob(0)] + ([EnqueueJobs([0])] + []));
      Possible(prio, s, acts) && Reach(prio, s, acts) == Prepared()
  {
    var s1 := Next(prio, s, SetMaximumThreads(1));
    var s2 := Next(prio, s1, NewJob(0));
    EnqueuesFirst(prio, s2);
    OneMore(prio, s2, EnqueueJobs([0]), []);
    OneMore(prio, s1, NewJob(0), [EnqueueJobs([0])] + []);
    OneMore(prio, s, SetMaximumThreads(1), [NewJob(0)] + ([EnqueueJobs([0])] + []));
  }

  lemma EnqueuesFirst(prio: nat -> int, s: State)
    requires s.w == Weaver(WorkingHard, [], [], [], 0, 1, 0, {}, Policies([], map[]))
    requires s.phase == map[] && s.jobs == map[0 := Job(New, [])] && s.log == [] && s.wants == {}
    ensures Enabled(s, EnqueueJobs([0])) && Next(prio, s, EnqueueJobs([0])) == Prepared()
  {
    assert NewThreads(0, 1) == [1];
    var v := EnqueueOne(s.w, prio, 1, 0);
    assert Enqueue(s.w, prio, 1, [0]) == Enqueue(v, prio, 1, [0][1..]) == v;
    assert v == Prepared().w;
    hide EnqueueOne, Enqueue, Insert, NewThreads;
    var n := Next(prio, s, EnqueueJobs([0]));
    assert n.phase == Prepared().phase;
    assert n.jobs == Prepared().jobs;
  }

  lemma CompletesSuspend(prio: nat -> int)
    ensures var s := OneJob(Suspending, {}, Entering(false, true));
      Known(s) && Enabled(s, Enter(1)) && Next(prio, s, Enter(1)) == OneJob(Suspended, {}, WantsWait)
  {
    var s := OneJob(Suspending, {}, Entering(false, true));
    assert Settled(s.w, false) == s.w;
    assert Next(prio, s, Enter(1)).phase == map[1 := WantsWait];
  }

  lemma GetsThere(prio: nat -> int)
    ensures var s := OneJob(WorkingHard, {}, Applying(false));
      Known(s) && Enabled(s, Suspend) && Next(prio, s, Suspend) == OneJob(Suspending, {}, Applying(false))
    ensures var s := OneJob(Suspending, {}, Applying(false));
      Known(s) && Enabled(s, Dispatch(1)) && Next(prio, s, Dispatch(1)) == OneJob(Suspending, {}, Entering(false, true))
  {
  }

  lemma FallsAsleep(prio: nat -> int)
    ensures var s := OneJob(Suspended, {}, WantsWait);
      Known(s) && Enabled(s, Resume) && Next(prio, s, Resume) == OneJob(WorkingHard, {}, WantsWait)
    ensures var s := OneJob(WorkingHard, {}, WantsWait);
      Known(s) && Enabled(s, Wait(1)) && Next(prio, s, Wait(1)) == OneJob(WorkingHard, {1}, Parked)
  {
  }

  /** Across a suspend and a resume a wake-up can be lost: the Weaver works, a runnable job is queued,
      and every thread sleeps. This is why the claim for steady runs does not extend to all. */
  lemma ResumeCanLoseWakeup(prio: nat -> int)
    ensures Possible(prio, Prepared(), Overtaken())
    ensures var n := Reach(prio, Prepared(), Overtaken());
      && n.w.state == WorkingHard && n.w.inventoryMax >= 1 && AtRest(n)
      && n.w.assignments == [0] && 0 in n.jobs && AllWilling(n.w.policies, n.jobs[0].list, 0)
  {
    hide Next, Enabled, Known;
    GetsThere(prio);
    FallsAsleep(prio);
    CompletesSuspend(prio);
    OneMore(prio, OneJob(WorkingHard, {}, WantsWait), Wait(1), []);
    OneMore(prio, OneJob(Suspended, {}, WantsWait), Resume, [Wait(1)] + []);
    OneMore(prio, OneJob(Suspending, {}, Entering(false, true)), Enter(1), [Resume] + ([Wait(1)] + []));
    OneMore(prio, OneJob(Suspending, {}, Applying(false)), Dispatch(1), [Enter(1)] + ([Resume] + ([Wait(1)] + [])));
    OneMore(prio, Prepared(), Suspend, [Dispatch(1)] + ([Enter(1)] + ([Resume] + ([Wait(1)] + []))));
  }
}
