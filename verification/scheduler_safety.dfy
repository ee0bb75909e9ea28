/** What can never happen, over runs: a job starting before its dependees succeeded, a resource
    overrun, a job taken while suspended, threads out of bounds. */
module SchedulerSafety {
  import opened JobStatus
  import opened Sequences
  import opened QueuePolicies
  import opened WeaverSpec
  import opened QueueOrder
  import opened Scheduler
  import opened SchedulerInvariant
  import D = DependencyMap

  // ---- Dependencies ----

  /** A job that has started has had every dependency met that was added and never removed. */
  lemma StartsAfterSuccess(prio: nat -> int, s: State, acts: seq<Act>, a: nat, b: nat)
    requires Inv(prio, s) && Known(s) && Possible(prio, s, acts)
    requires var n := Reach(prio, s, acts); (a, b) in n.wants && a in n.jobs && HasStarted(n.jobs[a].status)
    ensures var n := Reach(prio, s, acts); b in n.jobs && n.jobs[b].status == Success
  {
    hide Reach, Possible, ThreadsOk, ActiveOk, QueueOk, HeldOk, ListsOk, ResourcesOk, BoundsOk;
    RunKeeps(prio, s, acts);
  }

  ghost predicate Hopeless(s: State, dead: set<nat>, a: nat) {
    && a in s.jobs && !HasStarted(s.jobs[a].status)
    && exists b :: (a, b) in s.wants && b in s.jobs && (b in dead || s.jobs[b].status.Bad())
  }

  /** None of these jobs has started, and each waits for another of them or for a failed job. */
  ghost predicate AllHopeless(s: State, dead: set<nat>) {
    forall a :: a in dead ==> Hopeless(s, dead, a)
  }

  /** What became of the jobs and of the wanted dependencies in one step. */
  lemma StatusSteps(prio: nat -> int, s: State, a: Act, j: nat)
    requires Inv(prio, s) && Known(s) && Enabled(s, a) && j in s.jobs
    ensures var n := Next(prio, s, a);
      && j in n.jobs
      && (s.jobs[j].status.Bad() ==> n.jobs[j].status.Bad())
      && (!HasStarted(s.jobs[j].status) && HasStarted(n.jobs[j].status) ==>
        AllWilling(s.w.policies, s.jobs[j].list, j))
    ensures !a.RemoveDependency? ==> s.wants <= Next(prio, s, a).wants
  {
    hide Spawn, TakeFirst, Enqueue, FreeAll, ThreadsOk, ActiveOk, ListsOk, ResourcesOk, DepsOk, BoundsOk;
    hide Sorted, AllWilling, Entered, HeldJobs, RemoveAt;
    if a.Enter? {
      var _ := TakeMoves(prio, s, a.th);
    }
  }

  lemma StaysHopeless(prio: nat -> int, s: State, act: Act, dead: set<nat>, a: nat)
    requires Inv(prio, s) && Known(s) && Enabled(s, act) && !act.RemoveDependency?
    requires AllHopeless(s, dead) && a in dead
    ensures Hopeless(Next(prio, s, act), dead, a)
  {
    hide Next, Enabled, ThreadsOk, ActiveOk, QueueOk, HeldOk, ListsOk, ResourcesOk, BoundsOk, AllWilling;
    assert Hopeless(s, dead, a);
    var b :| (a, b) in s.wants && b in s.jobs && (b in dead || s.jobs[b].status.Bad());
    StatusSteps(prio, s, act, a);
    StatusSteps(prio, s, act, b);
    assert b in dead ==> Hopeless(s, dead, b);
    if HasStarted(Next(prio, s, act).jobs[a].status) { WillingHasNoDeps(s, a); }
  }

  /** No job on a dependency cycle, and no job that waits, directly or through others, for a failed
      one ever starts, whatever happens, as long as none of the dependencies is taken back. */
  lemma {:induction false} HopelessNeverStart(prio: nat -> int, s: State, acts: seq<Act>, dead: set<nat>)
    requires Inv(prio, s) && Known(s) && Possible(prio, s, acts) && AllHopeless(s, dead)
    requires forall a :: a in acts ==> !a.RemoveDependency?
    ensures AllHopeless(Reach(prio, s, acts), dead)
    decreases |acts|
  {
    hide Inv, Next, Enabled, Hopeless;
    if acts != [] {
      assert acts[0] in acts;
      StepKeeps(prio, s, acts[0]);
      forall a | a in dead ensures Hopeless(Next(prio, s, acts[0]), dead, a) {
        StaysHopeless(prio, s, acts[0], dead, a);
      }
      HopelessNeverStart(prio, Next(prio, s, acts[0]), acts[1..], dead);
    }
  }

  /** cycle[0] waits for cycle[1], and so on around. */
  ghost predicate IsCycle(s: State, cycle: seq<nat>) {
    && cycle != []
    && forall i :: 0 <= i < |cycle| ==>
      && (cycle[i], cycle[if i == |cycle| - 1 then 0 else i + 1]) in s.wants
  }

  lemma CycleNeverStarts(prio: nat -> int, s: State, acts: seq<Act>, cycle: seq<nat>)
    requires Inv(prio, s) && Known(s) && Possible(prio, s, acts) && IsCycle(s, cycle)
    requires forall j :: j in cycle ==> j in s.jobs && !HasStarted(s.jobs[j].status)
    requires forall a :: a in acts ==> !a.RemoveDependency?
    ensures forall j :: j in cycle ==>
      j in Reach(prio, s, acts).jobs && !HasStarted(Reach(prio, s, acts).jobs[j].status)
  {
    hide Inv, Reach, Possible;
    var dead := set j | j in cycle;
    forall a | a in dead ensures Hopeless(s, dead, a) {
      var i :| 0 <= i < |cycle| && cycle[i] == a;
      var b := cycle[if i == |cycle| - 1 then 0 else i + 1];
      assert b in cycle;
      assert (a, b) in s.wants && b in s.jobs && b in dead;
    }
    HopelessNeverStart(prio, s, acts, dead);
    forall j | j in cycle ensures j in Reach(prio, s, acts).jobs && !HasStarted(Reach(prio, s, acts).jobs[j].status) {
      assert Hopeless(Reach(prio, s, acts), dead, j);
    }
  }

  /** The assertion that closes DependencyPolicy.free always holds: a job that has run waits for nothing. */
  lemma FreedWaitsForNothing(prio: nat -> int, s: State, th: nat)
    requires Inv(prio, s) && Known(s) && Enabled(s, FreePolicies(th))
    ensures !D.HasUnresolved(Next(prio, s, FreePolicies(th)).w.policies.deps, s.phase[th].job)
  {
    hide ThreadsOk, ActiveOk, QueueOk, ResourcesOk, BoundsOk;
    var j := s.phase[th].job;
    FreeAllExactly(s.w.policies, s.jobs[j].list, j, s.jobs[j].status == Success);
    var deps := Next(prio, s, FreePolicies(th)).w.policies.deps;
    forall i | 0 <= i < |deps| ensures deps[i].0 != j {
      assert deps[i] in s.w.policies.deps;
    }
  }

  // ---- Resources ----

  ghost function Carriers(s: State, r: nat): set<nat> {
    set t | t in s.phase && Holds(s.phase[t]) && s.phase[t].job in s.jobs
            && Restriction(r) in s.jobs[s.phase[t].job].list
  }

  /** As many threads hold a job that carries the restriction as it has customers. */
  lemma CustomersAreCarriers(prio: nat -> int, s: State, r: nat)
    requires Inv(prio, s) && r in s.w.policies.resources
    ensures |s.w.policies.resources[r].customers| == |Carriers(s, r)|
  {
    hide ThreadsOk, ActiveOk, QueueOk, ListsOk, DepsOk, BoundsOk;
    var c := s.w.policies.resources[r].customers;
    forall j | j in c ensures exists t :: t in Carriers(s, r) && s.phase[t].job == j {
      var t :| t in s.phase && Holds(s.phase[t]) && s.phase[t].job == j;
      assert t in Carriers(s, r);
    }
    forall t, u | t in Carriers(s, r) && u in Carriers(s, r) && s.phase[t].job == s.phase[u].job ensures t == u {
      assert SameJob(s.phase, t, u);
    }
    CountedByJob(c, Carriers(s, r), t requires t in s.phase && Holds(s.phase[t]) => s.phase[t].job);
  }

  lemma {:induction false} CountedByJob(c: seq<nat>, threads: set<nat>, job: nat --> nat)
    requires NoDup(c) && forall t :: t in threads ==> job.requires(t) && job(t) in c
    requires forall j :: j in c ==> exists t :: t in threads && job(t) == j
    requires forall t, u :: t in threads && u in threads && job(t) == job(u) ==> t == u
    ensures |c| == |threads|
  {
    if c != [] {
      assert c[0] in c;
      var t :| t in threads && job(t) == c[0];
      var rest, others := c[1..], threads - {t};
      assert forall j :: j in c <==> j == c[0] || j in rest;
      assert c[0] !in rest;
      forall j | j in rest ensures exists u :: u in others && job(u) == j {
        var u :| u in threads && job(u) == j;
        assert u in others;
      }
      CountedByJob(rest, others, job);
    } else {
      assert forall t :: t !in threads;
    }
  }

  ghost predicate HoldsCarrier(s: State, r: nat, j: nat) {
    && j in s.jobs && Restriction(r) in s.jobs[j].list
    && exists t :: t in s.phase && Holds(s.phase[t]) && s.phase[t].job == j
  }

  /** At every point of every run, the customers of a resource are exactly the jobs with the
      restriction that were taken and not yet freed, each once; so the same number of threads hold
      one. */
  lemma CustomersExactly(prio: nat -> int, s: State, acts: seq<Act>, r: nat, j: nat)
    requires Inv(prio, s) && Known(s) && Possible(prio, s, acts) && r in Reach(prio, s, acts).w.policies.resources
    ensures var n := Reach(prio, s, acts);
      var c := n.w.policies.resources[r].customers;
      && NoDup(c) && |c| == |Carriers(n, r)|
      && (j in c <==> HoldsCarrier(n, r, j))
  {
    hide Reach, Possible, ThreadsOk, ActiveOk, QueueOk, HeldOk, ListsOk, DepsOk, BoundsOk, Carriers;
    RunKeeps(prio, s, acts);
    CustomersAreCarriers(prio, Reach(prio, s, acts), r);
  }

  ghost predicate GrowsWithin(before: Resource<nat>, after: Resource<nat>) {
    && |after.customers| <= |before.customers| + 1
    && (|after.customers| > |before.customers| ==> |before.customers| < before.cap && after.cap == before.cap)
  }

  /** A list of customers grows only by one, and only while it is below the cap then in force. */
  lemma GrowsOnlyBelowCap(prio: nat -> int, s: State, a: Act, r: nat)
    requires Inv(prio, s) && Known(s) && Enabled(s, a) && r in s.w.policies.resources
    ensures var ps := Next(prio, s, a).w.policies;
      && r in ps.resources
      && (!(a.SetCap? && a.r == r) ==> ps.resources[r].cap == s.w.policies.resources[r].cap)
      && GrowsWithin(s.w.policies.resources[r], ps.resources[r])
  {
    hide Inv, Next, Enabled;
    if a.Enter? {
      GrowsByTaking(prio, s, a.th, r);
    } else if a.FreePolicies? {
      ShrinksByFreeing(prio, s, a.th, r);
    } else if IsMove(a) {
      MoveEffect(prio, s, a);
    } else {
      SameCustomers(prio, s, a, r);
    }
  }

  lemma GrowsByTaking(prio: nat -> int, s: State, th: nat, r: nat)
    requires Inv(prio, s) && Known(s) && Enabled(s, Enter(th)) && r in s.w.policies.resources
    ensures var ps := Next(prio, s, Enter(th)).w.policies;
      && r in ps.resources && ps.resources[r].cap == s.w.policies.resources[r].cap
      && GrowsWithin(s.w.policies.resources[r], ps.resources[r])
  {
    hide Inv, Next, Enabled, HeldJobs, RemoveAt;
    var i := TakeMoves(prio, s, th);
    if Next(prio, s, Enter(th)).phase[th].Working? {
      var l := s.jobs[s.w.assignments[i]].list;
      if Restriction(r) in l {
        var k :| 0 <= k < |l| && l[k] == Restriction(r);
        assert Willing(s.w.policies, l[k], s.w.assignments[i]);
      }
    }
  }

  lemma ShrinksByFreeing(prio: nat -> int, s: State, th: nat, r: nat)
    requires Inv(prio, s) && Known(s) && Enabled(s, FreePolicies(th)) && r in s.w.policies.resources
    ensures var ps := Next(prio, s, FreePolicies(th)).w.policies;
      && r in ps.resources && ps.resources[r].cap == s.w.policies.resources[r].cap
      && GrowsWithin(s.w.policies.resources[r], ps.resources[r])
  {
    hide ThreadsOk, ActiveOk, DepsOk, BoundsOk, QueueOk, HeldOk, ResourcesOk;
    var j := s.phase[th].job;
    FreeAllExactly(s.w.policies, s.jobs[j].list, j, s.jobs[j].status == Success);
  }

  lemma SameCustomers(prio: nat -> int, s: State, a: Act, r: nat)
    requires Inv(prio, s) && Known(s) && Enabled(s, a) && r in s.w.policies.resources && !a.Enter? && !IsMove(a)
    ensures var ps := Next(prio, s, a).w.policies;
      && r in ps.resources && ps.resources[r].customers == s.w.policies.resources[r].customers
      && (!(a.SetCap? && a.r == r) ==> ps.resources[r].cap == s.w.policies.resources[r].cap)
  {
    hide Spawn, Enqueue, ThreadsOk, ActiveOk, DepsOk, BoundsOk, QueueOk, HeldOk, ResourcesOk, ListsOk;
    if a.EnqueueJobs? {
      Numbered(s);
      EnqueueGrows(s.w, prio, |a.js|, a.js);
    }
  }

  /** As long as its cap is never lowered, at no point of any run do more threads hold a job with the
      restriction than the cap allows. */
  lemma {:induction false} CapHolds(prio: nat -> int, s: State, acts: seq<Act>, r: nat)
    requires Inv(prio, s) && Known(s) && Possible(prio, s, acts) && r in s.w.policies.resources
    requires |s.w.policies.resources[r].customers| <= s.w.policies.resources[r].cap
    requires NeverLowered(s.w.policies.resources[r].cap, acts, r)
    ensures var n := Reach(prio, s, acts);
      r in n.w.policies.resources && |Carriers(n, r)| <= n.w.policies.resources[r].cap
    decreases |acts|
  {
    hide Inv, Next, Enabled, Carriers;
    CustomersAreCarriers(prio, s, r);
    if acts != [] {
      var n := Next(prio, s, acts[0]);
      StepKeeps(prio, s, acts[0]);
      GrowsOnlyBelowCap(prio, s, acts[0], r);
      if acts[0].SetCap? && acts[0].r == r { CapAfter(prio, s, acts[0], r); }
      CapHolds(prio, n, acts[1..], r);
    }
  }

  ghost predicate NeverLowered(cap: int, acts: seq<Act>, r: nat)
    decreases |acts|
  {
    acts == [] ||
    if acts[0].SetCap? && acts[0].r == r
    then acts[0].cap >= cap && NeverLowered(acts[0].cap, acts[1..], r)
    else NeverLowered(cap, acts[1..], r)
  }

  lemma CapAfter(prio: nat -> int, s: State, a: Act, r: nat)
    requires Known(s) && Enabled(s, a) && r in s.w.policies.resources && a.SetCap? && a.r == r
    ensures Next(prio, s, a).w.policies.resources[r] == s.w.policies.resources[r].(cap := a.cap)
  {
  }

  // ---- Suspending ----

  /** In Suspended and in ShuttingDown no thread holds a job or has one to settle, and the assertions
      on wasBusy and on the active count in the thread's way through the states always hold. */
  lemma SuspendedIsQuiet(prio: nat -> int, s: State, acts: seq<Act>, th: nat)
    requires Inv(prio, s) && Known(s) && Possible(prio, s, acts) && th in Reach(prio, s, acts).phase
    ensures var n := Reach(prio, s, acts);
      && n.w.active >= 0
      && (n.w.state == Suspended || n.w.state == ShuttingDown ==>
        && n.w.active == 0 && !Holds(n.phase[th])
        && (n.phase[th].Applying? || n.phase[th].Entering? ==> !n.phase[th].busy))
      && (n.phase[th].Entering? && n.phase[th].busy ==> n.w.active > 0)
  {
    hide Reach, Possible, ThreadsOk, QueueOk, HeldOk, ListsOk, ResourcesOk, DepsOk, BoundsOk;
    RunKeeps(prio, s, acts);
    var n := Reach(prio, s, acts);
    if n.w.state == Suspended || n.w.state == ShuttingDown { NobodyBusy(n, th); }
    if IsBusy(n.phase[th]) { assert th in Busy(n.phase); }
  }

  /** A suspend completes in the pass of a thread exactly if the Weaver is suspending, the Suspending
      state sent the thread, and no other thread holds a job or has one to settle. */
  lemma SuspendCompletesExactly(prio: nat -> int, s: State, th: nat)
    requires Inv(prio, s) && Known(s) && Enabled(s, Enter(th))
    ensures Next(prio, s, Enter(th)).w.state == Suspended && s.w.state != Suspended <==>
      s.w.state == Suspending && s.phase[th].stopping && Busy(s.phase) <= {th}
  {
    hide Spawn, Scan, ThreadsOk, QueueOk, HeldOk, ListsOk, ResourcesOk, DepsOk, BoundsOk, AdjustInventory;
    SameElsewhere(Busy(s.phase), Busy(s.phase) - {th}, th);
    assert Busy(s.phase) <= {th} <==> Busy(s.phase) - {th} == {};
    assert th in Busy(s.phase) <==> s.phase[th].busy;
    var a := AdjustInventory(s.w.(expired := []), 1);
    AdjustKeeps(s.w.(expired := []));
    hide Busy;
    assert |Busy(s.phase) - {th}| == 0 <==> Busy(s.phase) - {th} == {};
  }

  lemma AdjustKeeps(w: Weaver<nat, nat>)
    ensures AdjustInventory(w, 1).active == w.active && AdjustInventory(w, 1).state == w.state
  {
  }

  lemma TakesOnlyWhileWorking(prio: nat -> int, s: State, a: Act)
    requires Known(s) && Enabled(s, a) && s.w.state != WorkingHard && a != Resume
    ensures Next(prio, s, a).log == s.log && Next(prio, s, a).w.state != WorkingHard
  {
    hide Scan, Spawn, Enqueue, FreeAll;
    if a.EnqueueJobs? { EnqueueState(s.w, prio, |a.js|, a.js); }
  }

  lemma {:induction false} EnqueueState(w: Weaver<nat, nat>, prio: nat -> int, batch: int, js: seq<nat>)
    ensures Enqueue(w, prio, batch, js).state == w.state
    decreases |js|
  {
    if js != [] { EnqueueState(EnqueueOne(w, prio, batch, js[0]), prio, batch, js[1..]); }
  }

  /** No job is taken between suspend and resume. */
  lemma {:induction false} NothingTakenUntilResume(prio: nat -> int, s: State, acts: seq<Act>)
    requires Known(s) && Inv(prio, s) && Possible(prio, s, acts) && s.w.state != WorkingHard
    requires forall a :: a in acts ==> a != Resume
    ensures Reach(prio, s, acts).log == s.log
    decreases |acts|
  {
    hide Inv, Next, Enabled;
    if acts != [] {
      assert acts[0] in acts && forall a :: a in acts[1..] ==> a in acts;
      StepKeeps(prio, s, acts[0]);
      TakesOnlyWhileWorking(prio, s, acts[0]);
      NothingTakenUntilResume(prio, Next(prio, s, acts[0]), acts[1..]);
    }
  }

  // ---- The inventory ----

  ghost predicate WithinBounds(s: State, n: State) {
    && (n.w.created > s.w.created ==> |n.w.inventory| <= n.w.inventoryMax)
    && (forall t :: t in n.w.expired && t !in s.w.expired ==> ExpiresProperly(s, n, t))
  }

  ghost predicate ExpiresProperly(s: State, n: State, t: nat) {
    && t in s.w.inventory && t !in n.w.inventory && t in n.phase && n.phase[t].Gone?
    && |n.w.inventory| >= n.w.inventoryMax
  }

  /** Creation stops at the maximum in force; a thread expires only while what remains still reaches
      it, is taken out of the inventory once and for all, and every thread that leaves the inventory
      is gone. */
  lemma InventoryBounds(prio: nat -> int, s: State, a: Act)
    requires Inv(prio, s) && Known(s) && Enabled(s, a)
    ensures WithinBounds(s, Next(prio, s, a))
  {
    hide Next, Enabled, ActiveOk, QueueOk, HeldOk, ListsOk, ResourcesOk, DepsOk, BoundsOk, ThreadsOk;
    if a.Enter? {
      ExpiryBounds(prio, s, a.th);
    } else if IsMove(a) {
      MoveEffect(prio, s, a);
    } else if IsSpawn(a) {
      SpawnBounds(prio, s, a);
    } else {
      OutsideEffect(prio, s, a);
    }
  }

  lemma SpawnBounds(prio: nat -> int, s: State, a: Act)
    requires Inv(prio, s) && Known(s) && Enabled(s, a) && IsSpawn(a)
    ensures WithinBounds(s, Next(prio, s, a))
  {
    hide Spawn, Enqueue, ActiveOk, QueueOk, HeldOk, ListsOk, ResourcesOk, DepsOk, BoundsOk, ThreadsOk;
    var n := Next(prio, s, a);
    Numbered(s);
    if a.EnqueueJobs? {
      EnqueueGrows(s.w, prio, |a.js|, a.js);
      GrownBounds(s.w, n.w);
    } else {
      AdjustedInventory(s.w.(inventoryMax := a.max, sleeping := {}), 1);
      GrownBounds(s.w.(inventoryMax := a.max), n.w);
    }
  }

  lemma GrownBounds(w: Weaver<nat, nat>, v: Weaver<nat, nat>)
    requires Grown(w, v) && (v.inventory == w.inventory || |v.inventory| <= w.inventoryMax)
    requires forall t :: t in w.inventory ==> t <= w.created
    ensures v.created > w.created ==> |v.inventory| <= w.inventoryMax
  {
    assert v.created > w.created ==> v.created in v.inventory;
  }

  lemma ExpiryBounds(prio: nat -> int, s: State, th: nat)
    requires Inv(prio, s) && Known(s) && Enabled(s, Enter(th))
    ensures WithinBounds(s, Next(prio, s, Enter(th)))
  {
    hide Spawn, TakeFirst, ActiveOk, QueueOk, HeldOk, ListsOk, ResourcesOk, DepsOk, BoundsOk, RemoveAt, Settled;
    var p := s.phase[th];
    Numbered(s);
    SettledGrows(s.w, p.busy);
    var m := Settled(s.w, p.busy);
    GrownBounds(s.w, m);
    TakeHasShape(s.w, Lists(s.jobs), th, p.busy, p.stopping);
    RemoveFirstMembers(m.inventory, th);
  }

  /** At every point of every run: inventory and expired threads are disjoint and free of duplicates,
      an expired thread is gone for good, and a non-empty queue has a thread if one is allowed. */
  lemma InventoryOverRuns(prio: nat -> int, s: State, acts: seq<Act>)
    requires Inv(prio, s) && Known(s) && Possible(prio, s, acts)
    ensures var n := Reach(prio, s, acts);
      && NoDup(n.w.inventory) && NoDup(n.w.expired)
      && (forall t :: t in n.w.expired ==> t !in n.w.inventory && t in n.phase && n.phase[t].Gone?)
      && (forall t :: t in n.phase && !n.phase[t].Gone? ==> t in n.w.inventory)
      && (n.w.inventoryMax > 0 && n.w.assignments != [] ==> n.w.inventory != [])
  {
    hide Reach, Possible, ActiveOk, QueueOk, HeldOk, ListsOk, ResourcesOk, DepsOk;
    RunKeeps(prio, s, acts);
  }
}
