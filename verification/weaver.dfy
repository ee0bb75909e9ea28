/** The Weaver as the object it is: its fields, and its mutex-protected critical sections with their
    loops. Every method is proved to do to the fields what WeaverSpec says, so that the runs of the
    scheduler machine are runs of these methods. */
module WeaverObject {
  import opened JobStatus
  import opened Sequences
  import opened QueuePolicies
  import opened JobsAndPolicies
  import S = WeaverSpec

  function Priority(j: Job): int {
    j.priority
  }

  class Weaver {
    var state: S.StateId
    var assignments: seq<Job>
    var inventory: seq<nat>
    var expiredThreads: seq<nat>
    var active: int
    var inventoryMax: int
    /** createdThreads; the threads are numbered in the order of their creation. */
    var created: nat
    /** The threads that wait on jobAvailable. */
    var sleeping: set<nat>
    /** The one DependencyPolicy of the program, and the restrictions its jobs may carry. */
    const dependencies: DependencyPolicy
    ghost const restrictions: set<ResourceRestrictionPolicy>

    ghost function Pol(): Policies<Job, ResourceRestrictionPolicy>
      reads dependencies, restrictions
    {
      PoliciesOf(dependencies, restrictions)
    }

    ghost function Abs(): S.Weaver<Job, ResourceRestrictionPolicy>
      reads this, dependencies, restrictions
    {
      S.Weaver(state, assignments, inventory, expiredThreads, active, inventoryMax, created, sleeping, Pol())
    }

    ghost function Lists(): map<Job, seq<QueuePolicy>>
      reads this, assignments
    {
      map j | j in assignments :: j.queuePolicies
    }

    constructor (inventoryMax: int, dependencies: DependencyPolicy, ghost restrictions: set<ResourceRestrictionPolicy>)
      requires inventoryMax >= 0
      ensures Abs()
           == S.Weaver(S.WorkingHard, [], [], [], 0, inventoryMax, 0, {}, PoliciesOf(dependencies, restrictions))
    {
      state, assignments, inventory, expiredThreads, active := S.WorkingHard, [], [], [], 0;
      this.inventoryMax, created, sleeping := inventoryMax, 0, {};
      this.dependencies, this.restrictions := dependencies, restrictions;
    }

    // ---- Asking the policies ----

    method Ask(p: QueuePolicy, job: Job) returns (ok: bool)
      requires p.Restriction? ==> p.r in restrictions
      modifies restrictions
      ensures (ok, Pol()) == QueuePolicies.CanRun(old(Pol()), p, job)
    {
      ghost var before := Pol();
      match p {
        case Dependencies => ok := dependencies.CanRun(job);
        case Restriction(r) => ok := r.CanRun(job);
        case Blocker(_) => ok := false;
      }
      assert Pol().resources == QueuePolicies.CanRun(before, p, job).1.resources;
    }

    method TakeBack(p: QueuePolicy, job: Job)
      requires p.Restriction? ==> p.r in restrictions
      modifies restrictions
      ensures Pol() == QueuePolicies.Release(old(Pol()), p, job)
    {
      ghost var before := Pol();
      if p.Restriction? { p.r.Release(job); }
      assert Pol().resources == QueuePolicies.Release(before, p, job).resources;
    }

    /** Whether a job can be executed now: no Sequence blocks it, it waits for nobody, and none of its
        restrictions is full. If so it becomes the last customer of each of them, and otherwise nobody's. */
    method CanBeExecuted(job: Job) returns (success: bool)
      requires Covers(restrictions, job.queuePolicies)
      modifies restrictions
      ensures (success, Pol()) == QueuePolicies.CanBeExecuted(old(Pol()), job.queuePolicies, job)
      ensures !success && NoCustomer(old(Pol()), job.queuePolicies, job) ==> Pol() == old(Pol())
      ensures NoDup(job.queuePolicies) && NoCustomer(old(Pol()), job.queuePolicies, job) ==>
        (success <==>
          && (forall owner :: Blocker(owner) !in job.queuePolicies)
          && (Dependencies in job.queuePolicies ==> forall p :: p in dependencies.depMap ==> p.0 != job)
          && (forall r :: Restriction(r) in job.queuePolicies ==> |old(r.customers)| < r.cap))
      ensures NoDup(job.queuePolicies) && NoCustomer(old(Pol()), job.queuePolicies, job) ==>
        forall r :: r in restrictions ==>
          r.customers == old(r.customers) + if success && Restriction(r) in job.queuePolicies then [job] else []
    {
      ghost var before := Pol();
      success := AskInTurn(job);
      hide QueuePolicies.CanBeExecuted, NoCustomer;
      if NoDup(job.queuePolicies) && NoCustomer(before, job.queuePolicies, job) {
        CanBeExecutedExactly(before, job.queuePolicies, job);
        assert forall r :: r in restrictions ==> Pol().resources[r].customers == r.customers;
        assert forall r :: r in restrictions ==> before.resources[r].customers == old(r.customers);
      }
    }

    /** Ask the policies one by one; when one refuses, take everything back. */
    method AskInTurn(job: Job) returns (success: bool)
      requires Covers(restrictions, job.queuePolicies)
      modifies restrictions
      ensures (success, Pol()) == QueuePolicies.CanBeExecuted(old(Pol()), job.queuePolicies, job)
      ensures !success && NoCustomer(old(Pol()), job.queuePolicies, job) ==> Pol() == old(Pol())
    {
      ghost var before := Pol();
      var policies := job.queuePolicies;
      var acquired: seq<QueuePolicy> := [];
      success := true;
      var index := 0;
      while index < |policies|
        invariant 0 <= index <= |policies| && success && acquired == policies[..index]
        invariant Accepts(before, policies, job, index) && Pol() == Acquire(before, policies, job, index)
      {
        var ok := Ask(policies[index], job);
        if !ok {
          success := false;
          break;
        }
        acquired := acquired + [policies[index]];
        index := index + 1;
      }
      GrantedIs(before, policies, job, index);
      if !success {
        ghost var held := Pol();
        var i := 0;
        while i < |acquired|
          invariant 0 <= i <= |acquired| && Pol() == ReleaseSome(held, policies, job, i)
        {
          TakeBack(acquired[i], job);
          i := i + 1;
        }
        if NoCustomer(before, policies, job) { RefusalLeavesNoTrace(before, policies, job); }
      }
    }

    // ---- Threads ----

    method AdjustInventory(numberOfNewJobs: int)
      modifies `inventory, `created
      ensures Abs() == S.AdjustInventory(old(Abs()), numberOfNewJobs)
      ensures old(inventory) <= inventory && created - old(created) == |inventory| - |old(inventory)|
      ensures numberOfNewJobs <= 0 || inventoryMax <= |old(inventory)| ==> inventory == old(inventory)
      ensures numberOfNewJobs > 0 && inventoryMax > |old(inventory)| ==>
        && |inventory| <= inventoryMax && |inventory| <= |old(inventory)| + numberOfNewJobs
        && (|inventory| == inventoryMax || |inventory| == |old(inventory)| + numberOfNewJobs)
    {
      var reserve := inventoryMax - |inventory|;
      if reserve > 0 {
        var i := 0;
        var n := if reserve < numberOfNewJobs then reserve else numberOfNewJobs;
        while i < n
          invariant 0 <= i && (n >= 0 ==> i <= n) && (n < 0 ==> i == 0)
          invariant created == old(created) + i
          invariant inventory == old(inventory) + S.NewThreads(old(created), i)
        {
          inventory := inventory + [created + 1];
          created := created + 1;
          i := i + 1;
        }
      }
    }

    method SetMaximumNumberOfThreads(cap: int)
      requires cap >= 0
      modifies `inventoryMax, `inventory, `created, `sleeping
      ensures Abs() == S.SetMaximum(old(Abs()), cap)
      ensures inventoryMax == cap && sleeping == {} && old(inventory) <= inventory
      ensures |inventory| == |old(inventory)| + if old(inventoryMax) == 0 && cap > |old(inventory)| then 1 else 0
    {
      var createInitialThread := inventoryMax == 0 && cap > 0;
      inventoryMax := cap;
      if createInitialThread {
        AdjustInventory(1);
      }
      Reschedule();
    }

    method Reschedule()
      modifies `sleeping
      ensures sleeping == {}
    {
      sleeping := {};
    }

    /** Entering WorkingHard or Suspending wakes the threads, entering Suspended does not. */
    method SetState(id: S.StateId)
      modifies `state, `sleeping
      ensures Abs() == S.SetState(old(Abs()), id) && state == id
      ensures sleeping == if old(state) != id && (id == S.WorkingHard || id == S.Suspending) then {} else old(sleeping)
    {
      var previous := state;
      state := id;
      if previous != id && (id == S.WorkingHard || id == S.Suspending) {
        Reschedule();
      }
    }

    // ---- The queue ----

    /** Enqueue a list of jobs: each goes behind everything of its own or a higher priority. */
    method Enqueue(jobs: seq<Job>)
      requires NoDup(jobs) && forall i :: 0 <= i < |jobs| ==> jobs[i].status == New
      modifies `assignments, `inventory, `created, `sleeping, jobs
      ensures Abs() == S.Enqueue(old(Abs()), Priority, |jobs|, jobs)
      ensures jobs != [] ==> sleeping == {}
      ensures forall i :: 0 <= i < |jobs| ==>
        && jobs[i].status == Queued
        && jobs[i].queuePolicies == old(jobs[i].queuePolicies) && jobs[i].shouldAbort == old(jobs[i].shouldAbort)
    {
      assert jobs[0..] == jobs;
      var n := 0;
      while n < |jobs|
        invariant 0 <= n <= |jobs| && (n > 0 ==> sleeping == {})
        invariant S.Enqueue(Abs(), Priority, |jobs|, jobs[n..]) == S.Enqueue(old(Abs()), Priority, |jobs|, jobs)
        invariant forall i :: 0 <= i < |jobs| ==>
          && jobs[i].status == (if i < n then Queued else New)
          && jobs[i].queuePolicies == old(jobs[i].queuePolicies) && jobs[i].shouldAbort == old(jobs[i].shouldAbort)
      {
        EnqueueJob(jobs[n], |jobs|);
        assert jobs[n..][0] == jobs[n] && jobs[n..][1..] == jobs[n + 1..];
        n := n + 1;
      }
      assert jobs[n..] == [] && jobs[0..] == jobs;
    }

    method EnqueueJob(job: Job, batch: nat)
      requires job.status == New
      modifies `assignments, `inventory, `created, `sleeping, job`status
      ensures Abs() == S.EnqueueOne(old(Abs()), Priority, batch, job) && job.status == Queued
      ensures sleeping == {}
    {
      AdjustInventory(batch);
      InsertJob(job);
      job.status := Queued;
      Reschedule();
    }

    method InsertJob(job: Job)
      modifies `assignments
      ensures assignments == S.Insert(Priority, old(assignments), job)
      ensures exists k :: (
        && 0 <= k <= |old(assignments)|
        && assignments == old(assignments)[..k] + [job] + old(assignments)[k..]
        && (k > 0 ==> old(assignments)[k - 1].priority >= job.priority)
        && forall m :: k <= m < |old(assignments)| ==> old(assignments)[m].priority < job.priority)
    {
      var i := |assignments|;
      if i > 0 {
        while i > 0 && assignments[i - 1].priority < job.priority
          invariant i <= |assignments|
          invariant forall m :: i <= m < |assignments| ==> assignments[m].priority < job.priority
          invariant S.InsertPosition(Priority, assignments, job, i)
                 == S.InsertPosition(Priority, assignments, job, |assignments|)
        {
          i := i - 1;
        }
        assignments := assignments[..i] + [job] + assignments[i..];
      } else {
        assignments := assignments + [job];
      }
    }

    method Dequeue(job: Job) returns (found: bool)
      modifies `assignments, job`status
      ensures found <==> job in old(assignments)
      ensures assignments == RemoveFirst(old(assignments), job)
      ensures job.status == if found then New else old(job.status)
    {
      var position := IndexOf(assignments, job);
      found := position < |assignments|;
      if found {
        RemoveAtIndex(assignments, job, position);
        assignments := assignments[..position] + assignments[position + 1..];
        job.status := New;
      }
    }

    method DequeueAll()
      modifies `assignments
      ensures assignments == []
    {
      assignments := [];
    }

    method IsIdle() returns (idle: bool)
      ensures idle <==> assignments == [] && active == 0
    {
      idle := |assignments| == 0 && active == 0;
    }

    // ---- Taking a job ----

    /** The critical section that every thread enters between two jobs. */
    method TakeFirstAvailableJobOrSuspendOrWait(th: nat, wasBusy: bool, suspendIfInactive: bool, justReturning: bool)
      returns (t: S.Taken<Job>)
      requires forall i :: 0 <= i < |assignments| ==> Covers(restrictions, assignments[i].queuePolicies)
      modifies this, restrictions
      ensures (t, Abs()) == S.TakeFirst(old(Abs()), old(Lists()), th, wasBusy, suspendIfInactive, justReturning)
    {
      hide S.Scan, S.Settled, PoliciesOf, S.RemoveAt, S.Shortfall, S.NewThreads;
      Settle(wasBusy);
      if suspendIfInactive && active == 0 && state == S.Suspending {
        SetState(S.Suspended);
        return S.Returned;
      }
      if state != S.WorkingHard || justReturning {
        return S.Returned;
      }
      if state == S.WorkingHard && |inventory| > inventoryMax {
        RemoveThread(th);
        expiredThreads := expiredThreads + [th];
        assert expiredThreads == [th];
        return S.Expired;
      }
      assert Lists() == old(Lists());
      var next := TakeExecutable();
      if next != null {
        active := active + 1;
        return S.Assigned(next);
      }
      sleeping := sleeping + {th};
      return S.Slept;
    }

    /** Forget expired threads, make room for one more, and settle the previous job. */
    method Settle(wasBusy: bool)
      modifies `expiredThreads, `inventory, `created, `active
      ensures Abs() == S.Settled(old(Abs()), wasBusy) && expiredThreads == []
      ensures active == old(active) - if wasBusy then 1 else 0
      ensures |inventory| == |old(inventory)| + if inventoryMax > |old(inventory)| then 1 else 0
    {
      expiredThreads := [];
      AdjustInventory(1);
      if wasBusy {
        active := active - 1;
      }
    }

    /** The scan: take the first job that can be executed out of the queue. */
    method TakeExecutable() returns (next: Job?)
      requires forall i :: 0 <= i < |assignments| ==> Covers(restrictions, assignments[i].queuePolicies)
      modifies `assignments, restrictions
      ensures var (found, ps) := S.Scan(old(Pol()), old(assignments), old(Lists()), 0);
        && Pol() == ps && (next == null <==> found.None?)
        && match found
           case None => next == null && assignments == old(assignments)
           case At(i) => next == old(assignments)[i] && assignments == S.RemoveAt(old(assignments), i)
    {
      hide QueuePolicies.CanBeExecuted, PoliciesOf, NoCustomer;
      ghost var ps, lists := Pol(), Lists();
      next := null;
      var index := 0;
      while index < |assignments|
        invariant 0 <= index <= |assignments| && next == null && assignments == old(assignments)
        invariant S.Scan(ps, assignments, lists, 0) == S.Scan(Pol(), assignments, lists, index)
      {
        var candidate := assignments[index];
        var ok := CanBeExecuted(candidate);
        if ok {
          next := candidate;
          assignments := assignments[..index] + assignments[index + 1..];
          break;
        }
        index := index + 1;
      }
    }

    /** The thread is in the inventory once, so its first occurrence is all of them. */
    method RemoveThread(th: nat)
      modifies `inventory
      ensures inventory == RemoveFirst(old(inventory), th)
    {
      var i := IndexOf(inventory, th);
      if i < |inventory| {
        RemoveAtIndex(inventory, th, i);
        inventory := inventory[..i] + inventory[i + 1..];
      }
    }
  }

  // ---- When the loop of CanBeExecuted stops ----

  lemma {:induction false} AcceptsDown<J, R>(ps: Policies<J, R>, list: seq<Policy<R>>, j: J, i: nat, k: nat)
    requires i <= k <= |list| && Accepts(ps, list, j, k)
    ensures Accepts(ps, list, j, i)
  {
    if i < k { AcceptsDown(ps, list, j, i, k - 1); }
  }

  lemma GrantedIs<J, R>(ps: Policies<J, R>, list: seq<Policy<R>>, j: J, k: nat)
    requires k <= |list| && Accepts(ps, list, j, k) && (k < |list| ==> !Accepts(ps, list, j, k + 1))
    ensures Granted(ps, list, j, |list|) == k
  {
    var g := Granted(ps, list, j, |list|);
    if g < k { AcceptsDown(ps, list, j, g + 1, k); }
    if k < g { AcceptsDown(ps, list, j, k + 1, g); }
  }
}
