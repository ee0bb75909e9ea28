/** No wake-up is lost while the Weaver works, and the threads only come to rest when nothing is left
    that could run. */
module SchedulerWakeup {
  import opened JobStatus
  import opened Sequences
  import opened QueuePolicies
  import opened WeaverSpec
  import opened QueueOrder
  import opened Scheduler
  import opened SchedulerInvariant
  import D = DependencyMap

  /** Actions that leave the Weaver working and change no policy of a queued job from outside. */
  predicate Steady(a: Act) {
    match a
    case Suspend => false
    case Resume => false
    case ShutDown => false
    case SetCap(_, _) => false
    case RemoveDependency(_, _) => false
    case SetMaximumThreads(max) => max >= 1
    case _ => true
  }

  /** No thread is on its way out of the Suspending state into wait(). */
  ghost predicate NobodyStopping(s: State) {
    forall t :: t in s.phase ==> !s.phase[t].WantsWait? && !(s.phase[t].Entering? && s.phase[t].stopping)
  }

  ghost predicate SomeRunnable(s: State)
    requires Known(s)
  {
    exists i :: 0 <= i < |s.w.assignments|
                && AllWilling(s.w.policies, s.jobs[s.w.assignments[i]].list, s.w.assignments[i])
  }

  ghost predicate SomeAwake(s: State) {
    exists t :: t in s.w.inventory && t !in s.w.sleeping
  }

  /** The Weaver works, and whenever a queued job could run, a thread is awake. The third part is
      what makes this inductive: an oversized inventory has no sleeper, so the threads left behind by
      one that expires are awake. */
  ghost predicate Alert(s: State)
    requires Known(s)
  {
    && s.w.state == WorkingHard && s.w.inventoryMax >= 1 && NobodyStopping(s)
    && (|s.w.inventory| > s.w.inventoryMax ==> s.w.sleeping == {})
    && (SomeRunnable(s) ==> SomeAwake(s))
  }

  // ---- The step ----

  /** Nothing queued became runnable, and nobody fell asleep or left. */
  lemma AlertKeptElsewhere(s: State, n: State)
    requires Known(s) && Known(n) && Alert(s)
    requires n.w.state == s.w.state && n.w.inventory == s.w.inventory && n.w.inventoryMax == s.w.inventoryMax
    requires n.w.sleeping == s.w.sleeping && NobodyStopping(n)
    requires forall j :: j in n.w.assignments && AllWilling(n.w.policies, n.jobs[j].list, j) ==>
      && j in s.w.assignments
      && AllWilling(s.w.policies, s.jobs[j].list, j)
    ensures Alert(n)
  {
  }

  /** Everybody was woken, and there is somebody. */
  lemma AlertWhenAllWoken(s: State, n: State)
    requires Known(n) && n.w.state == WorkingHard && n.w.inventoryMax >= 1 && NobodyStopping(n)
    requires n.w.sleeping == {} && BoundsOk(n)
    ensures Alert(n)
  {
    hide AllWilling, NobodyStopping;
    if SomeRunnable(n) {
      assert n.w.inventory[0] in n.w.inventory;
    }
  }

  /** A thread that is not asleep is at hand. */
  lemma AlertBecauseOf(n: State, th: nat)
    requires Known(n) && n.w.state == WorkingHard && n.w.inventoryMax >= 1 && NobodyStopping(n)
    requires th in n.w.inventory && th !in n.w.sleeping
    requires |n.w.inventory| > n.w.inventoryMax ==> n.w.sleeping == {}
    ensures Alert(n)
  {
  }

  lemma NobodyStoppingSpawned(s: State, after: nat)
    requires ThreadsOk(s) && NobodyStopping(s) && s.w.created <= after
    ensures forall t :: t in Spawn(s.phase, s.w.created, after) ==>
      var p := Spawn(s.phase, s.w.created, after)[t]; !p.WantsWait? && !(p.Entering? && p.stopping)
    ensures forall t :: t in s.phase ==> t in Spawn(s.phase, s.w.created, after)
  {
  }

  lemma AlertKeptTake(prio: nat -> int, s: State, th: nat)
    requires Inv(prio, s) && Known(s) && Alert(s) && Enabled(s, Enter(th))
    requires Known(Next(prio, s, Enter(th))) && Inv(prio, Next(prio, s, Enter(th)))
    ensures Alert(Next(prio, s, Enter(th)))
  {
    hide Spawn, TakeFirst, Settled, Sorted, ActiveOk, QueueOk, HeldOk, ListsOk, ResourcesOk, DepsOk, BoundsOk;
    hide AllWilling, RemoveAt;
    Numbered(s);
    var p := s.phase[th];
    assert !p.stopping;
    TakeEffect(prio, s, th);
    TakeHasShape(s.w, Lists(s.jobs), th, p.busy, p.stopping);
    SettledGrows(s.w, p.busy);
    var n := Next(prio, s, Enter(th));
    var m := Settled(s.w, p.busy);
    NobodyStoppingSpawned(s, m.created);
    var (t, v) := TakeFirst(s.w, Lists(s.jobs), th, p.busy, p.stopping, p.stopping);
    match t
    case Assigned(j) => AlertBecauseOf(n, th);
    case Slept => assert !SomeRunnable(n);
    case Expired =>
      assert |s.w.inventory| > s.w.inventoryMax;
      AlertWhenAllWoken(s, n);
    case Returned => assert false;
  }

  lemma AlertKeptFree(prio: nat -> int, s: State, th: nat)
    requires Inv(prio, s) && Known(s) && Alert(s) && Enabled(s, FreePolicies(th))
    requires Known(Next(prio, s, FreePolicies(th)))
    ensures Alert(Next(prio, s, FreePolicies(th)))
  {
  }

  /** A dependency of another job adds no willingness. */
  lemma StillUnwilling(prio: nat -> int, s: State, a: nat, b: nat, j: nat)
    requires Known(s) && Enabled(s, AddDependency(a, b)) && j in s.jobs
    requires var n := Next(prio, s, AddDependency(a, b)); AllWilling(n.w.policies, n.jobs[j].list, j)
    ensures AllWilling(s.w.policies, s.jobs[j].list, j)
  {
    var n := Next(prio, s, AddDependency(a, b));
    var l, k := s.jobs[j].list, n.jobs[j].list;
    assert forall i :: 0 <= i < |l| ==> k[i] == l[i];
    var deps := s.w.policies.deps;
    assert forall x :: 0 <= x < |deps| ==> n.w.policies.deps[x + 1] == deps[x];
    forall i | 0 <= i < |l| ensures Willing(s.w.policies, l[i], j) {
      assert Willing(n.w.policies, k[i], j);
    }
  }

  /** What new resources, new jobs and the policies of new jobs are to a queued job: nothing. */
  lemma StillUnwillingElsewhere(prio: nat -> int, s: State, a: Act, j: nat)
    requires Inv(prio, s) && Known(s) && Enabled(s, a) && j in s.w.assignments
    requires a.NewJob? || a.ChangePolicies? || a.NewResource?
    requires AllWilling(Next(prio, s, a).w.policies, Next(prio, s, a).jobs[j].list, j)
    ensures AllWilling(s.w.policies, s.jobs[j].list, j)
  {
    hide Sorted, ThreadsOk, ActiveOk, HeldOk, ResourcesOk, DepsOk, BoundsOk;
    var n := Next(prio, s, a);
    var l := s.jobs[j].list;
    assert n.jobs[j].list == l;
    forall i | 0 <= i < |l| ensures Willing(s.w.policies, l[i], j) {
      assert Willing(n.w.policies, l[i], j);
      assert l[i] in l;
    }
  }

  lemma AlertKeptAdd(prio: nat -> int, s: State, a: nat, b: nat)
    requires Inv(prio, s) && Known(s) && Alert(s) && Enabled(s, AddDependency(a, b))
    requires Known(Next(prio, s, AddDependency(a, b)))
    ensures Alert(Next(prio, s, AddDependency(a, b)))
  {
    hide Sorted, ThreadsOk, ActiveOk, HeldOk, ListsOk, ResourcesOk, DepsOk, BoundsOk, AllWilling;
    var n := Next(prio, s, AddDependency(a, b));
    forall j | j in n.w.assignments && AllWilling(n.w.policies, n.jobs[j].list, j)
      ensures AllWilling(s.w.policies, s.jobs[j].list, j)
    {
      StillUnwilling(prio, s, a, b, j);
    }
    AlertKeptElsewhere(s, n);
  }

  lemma AlertKept(prio: nat -> int, s: State, a: Act)
    requires Inv(prio, s) && Known(s) && Alert(s) && Enabled(s, a) && Steady(a)
    requires Known(Next(prio, s, a)) && Inv(prio, Next(prio, s, a))
    ensures Alert(Next(prio, s, a))
  {
    hide Spawn, TakeFirst, Enqueue, AllWilling, ThreadsOk, ActiveOk, HeldOk, ListsOk, ResourcesOk, DepsOk;
    hide BoundsOk, QueueOk;
    var n := Next(prio, s, a);
    match a
    case Enter(th) => AlertKeptTake(prio, s, th);
    case FreePolicies(th) => AlertKeptFree(prio, s, th);
    case EnqueueJobs(js) =>
      Numbered(s);
      EnqueueGrows(s.w, prio, |js|, js);
      NobodyStoppingSpawned(s, n.w.created);
      if js == [] {
        assert n.w == s.w;
        AlertKeptElsewhere(s, n);
      } else {
        AlertWhenAllWoken(s, n);
      }
    case SetMaximumThreads(max) =>
      NobodyStoppingSpawned(s, n.w.created);
      AlertWhenAllWoken(s, n);
    case Dequeue(j) =>
      forall x | x in n.w.assignments ensures x in s.w.assignments && x != j {
        RemoveFirstIsNoDup(prio, s, j);
      }
      AlertKeptElsewhere(s, n);
    case AddDependency(x, y) => AlertKeptAdd(prio, s, x, y);
    case NewJob(_) => AlertKeptOutside(prio, s, a);
    case ChangePolicies(_, _) => AlertKeptOutside(prio, s, a);
    case NewResource(_, _) => AlertKeptOutside(prio, s, a);
    case LiftBlocker(th, _, _) => AlertKeptLift(prio, s, a);
    case _ => AlertKeptElsewhere(s, n);
  }

  lemma RemoveFirstIsNoDup(prio: nat -> int, s: State, j: nat)
    requires QueueOk(prio, s)
    ensures forall x :: x in RemoveFirst(s.w.assignments, j) ==> x in s.w.assignments && x != j
  {
    RemoveFirstMembers(s.w.assignments, j);
  }

  /** Lifting a blocker wakes nobody, but the thread that lifts it is awake. */
  lemma AlertKeptLift(prio: nat -> int, s: State, a: Act)
    requires Inv(prio, s) && Known(s) && Alert(s) && Enabled(s, a) && a.LiftBlocker? && Known(Next(prio, s, a))
    ensures Alert(Next(prio, s, a))
  {
    hide ActiveOk, QueueOk, HeldOk, ListsOk, ResourcesOk, DepsOk, BoundsOk, AllWilling;
    AlertBecauseOf(Next(prio, s, a), a.th);
  }

  lemma AlertKeptOutside(prio: nat -> int, s: State, a: Act)
    requires Inv(prio, s) && Known(s) && Alert(s) && Enabled(s, a)
    requires a.NewJob? || a.ChangePolicies? || a.NewResource?
    requires Known(Next(prio, s, a))
    ensures Alert(Next(prio, s, a))
  {
    hide Inv, AllWilling;
    var n := Next(prio, s, a);
    forall j | j in n.w.assignments && AllWilling(n.w.policies, n.jobs[j].list, j)
      ensures AllWilling(s.w.policies, s.jobs[j].list, j)
    {
      StillUnwillingElsewhere(prio, s, a, j);
    }
    AlertKeptElsewhere(s, n);
  }

  // ---- No lost wake-up ----

  /** Over any run of steady actions, whenever a queued job would be accepted by all its policies, a
      thread of the inventory is not asleep. */
  lemma {:induction false} NoLostWakeup(prio: nat -> int, s: State, acts: seq<Act>)
    requires Inv(prio, s) && Known(s) && Alert(s) && Possible(prio, s, acts)
    requires forall a :: a in acts ==> Steady(a)
    ensures var n := Reach(prio, s, acts); Inv(prio, n) && Known(n) && Alert(n)
    decreases |acts|
  {
    hide Inv, Next, Enabled, Alert;
    if acts != [] {
      StepKeeps(prio, s, acts[0]);
      AlertKept(prio, s, acts[0]);
      NoLostWakeup(prio, Next(prio, s, acts[0]), acts[1..]);
    }
  }

  lemma InitiallyAlert(s: State)
    requires Initial(s)
    ensures Known(s) && Alert(s)
  {
  }

  // ---- What rest means ----

  /** Every thread sleeps. */
  ghost predicate AtRest(s: State) {
    forall t :: t in s.w.inventory ==> t in s.w.sleeping
  }

  ghost predicate CapsPositive(s: State) {
    forall r :: r in s.w.policies.resources ==> s.w.policies.resources[r].cap >= 1
  }

  lemma NobodyHoldsAtRest(s: State)
    requires ThreadsOk(s) && AtRest(s)
    ensures Busy(s.phase) == {} && HeldJobs(s.phase) == {}
  {
  }

  /** At rest, no job is active, no resource has a customer, and every job left in the queue waits
      for an unresolved dependency or for its turn in a Sequence. */
  lemma RestMeansWaiting(prio: nat -> int, s: State, j: nat)
    requires Inv(prio, s) && Known(s) && Alert(s) && AtRest(s) && CapsPositive(s)
    ensures s.w.active == 0
    ensures forall r :: r in s.w.policies.resources ==> s.w.policies.resources[r].customers == []
    ensures j in s.w.assignments ==>
      || (Dependencies in s.jobs[j].list && D.HasUnresolved(s.w.policies.deps, j))
      || exists owner :: Blocker(owner) in s.jobs[j].list
  {
    hide Sorted, ThreadsOk, HeldOk, BoundsOk;
    NobodyHoldsAtRest(s);
    assert Busy(s.phase) == {};
    forall r | r in s.w.policies.resources ensures s.w.policies.resources[r].customers == [] {
      var c := s.w.policies.resources[r].customers;
      NoMember(c);
    }
    if j in s.w.assignments {
      var l := s.jobs[j].list;
      var i :| 0 <= i < |s.w.assignments| && s.w.assignments[i] == j;
      assert !AllWilling(s.w.policies, l, j);
      var k :| 0 <= k < |l| && !Willing(s.w.policies, l[k], j);
      assert l[k] in l;
      assert l[k].Blocker? ==> Blocker(l[k].owner) in l;
    }
  }

  // ---- No stall ----

  /** A job that is being freed has succeeded. */
  ghost predicate FreeingSucceeded(s: State) {
    forall t :: t in s.phase && s.phase[t].Freeing? && s.phase[t].job in s.jobs ==>
      s.jobs[s.phase[t].job].status == Success
  }

  /** Every dependee that a queued job still waits for is queued or held, and held jobs succeed. */
  ghost predicate Closed(s: State) {
    && (forall p :: p in s.w.policies.deps && p.0 in s.w.assignments ==>
         p.1 in s.w.assignments || p.1 in HeldJobs(s.phase))
    && FreeingSucceeded(s)
  }

  ghost predicate Acyclic(rank: nat -> nat, s: State) {
    forall p :: p in s.w.policies.deps ==> rank(p.1) < rank(p.0)
  }

  /** No job waits for its turn in a Sequence. */
  ghost predicate NoBlockers(s: State) {
    forall j, owner :: j in s.jobs ==> Blocker(owner) !in s.jobs[j].list
  }

  lemma {:induction false} NothingOfRank(prio: nat -> int, rank: nat -> nat, s: State, n: nat)
    requires Inv(prio, s) && Known(s) && Alert(s) && AtRest(s) && CapsPositive(s)
    requires Closed(s) && Acyclic(rank, s) && NoBlockers(s)
    ensures forall j :: j in s.w.assignments ==> rank(j) >= n
  {
    hide Inv, Known, Alert, AtRest, HeldJobs, CapsPositive;
    if n > 0 {
      NothingOfRank(prio, rank, s, n - 1);
      forall j | j in s.w.assignments ensures rank(j) >= n {
        RestMeansWaiting(prio, s, j);
        QueuedExists(prio, s, j);
        var i :| 0 <= i < |s.w.policies.deps| && s.w.policies.deps[i].0 == j;
        assert s.w.policies.deps[i] in s.w.policies.deps;
        NoneHeldAtRest(prio, s);
      }
    }
  }

  lemma QueuedExists(prio: nat -> int, s: State, j: nat)
    requires Inv(prio, s) && j in s.w.assignments
    ensures j in s.jobs
  {
  }

  lemma NoneHeldAtRest(prio: nat -> int, s: State)
    requires Inv(prio, s) && AtRest(s)
    ensures HeldJobs(s.phase) == {}
  {
  }

  /** No stall: with acyclic dependencies and every dependee at hand, all threads asleep means that
      the queue is empty and nothing is active. */
  lemma NoStall(prio: nat -> int, rank: nat -> nat, s: State)
    requires Inv(prio, s) && Known(s) && Alert(s) && AtRest(s) && CapsPositive(s)
    requires Closed(s) && Acyclic(rank, s) && NoBlockers(s)
    ensures s.w.assignments == [] && s.w.active == 0
  {
    hide Inv, Known, Alert, AtRest, Closed, Acyclic, CapsPositive, NoBlockers;
    RestMeansWaiting(prio, s, 0);
    var q := s.w.assignments;
    if q != [] { NothingOfRank(prio, rank, s, rank(q[0]) + 1); }
    NoMember(q);
  }
}
