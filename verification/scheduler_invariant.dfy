/** What every action of the scheduler keeps. */
module SchedulerInvariant {
  import opened JobStatus
  import opened Sequences
  import opened QueuePolicies
  import opened WeaverSpec
  import opened QueueOrder
  import opened Scheduler
  import D = DependencyMap

  // ---- The invariant ----

  /** Inventory and expired threads are disjoint and duplicate-free; a thread is in the inventory as
      long as it lives; only threads inside wait() sleep. */
  ghost predicate ThreadsOk(s: State) {
    && (forall t :: t in s.phase <==> 1 <= t <= s.w.created)
    && NoDup(s.w.inventory) && NoDup(s.w.expired)
    && (forall t :: t in s.w.inventory ==> t in s.phase && t !in s.w.expired)
    && (forall t :: t in s.w.expired ==> t in s.phase && s.phase[t].Gone?)
    && (forall t :: t in s.phase && !s.phase[t].Gone? ==> t in s.w.inventory)
    && (s.w.state != ShuttingDown ==> forall t :: t in s.w.inventory ==> !s.phase[t].Gone?)
    && (forall t :: t in s.w.sleeping ==> t in s.phase && s.phase[t].Parked?)
  }

  ghost function Busy(phase: map<nat, Phase>): set<nat> {
    set t | t in phase && IsBusy(phase[t])
  }

  ghost function HeldJobs(phase: map<nat, Phase>): set<nat> {
    set t | t in phase && Holds(phase[t]) :: phase[t].job
  }

  /** The active count is the number of threads that hold a job or have not yet come back. */
  ghost predicate ActiveOk(s: State) {
    && s.w.active == |Busy(s.phase)|
    && (s.w.state == Suspended || s.w.state == ShuttingDown ==> s.w.active == 0)
  }

  ghost predicate QueueOk(prio: nat -> int, s: State) {
    && NoDup(s.w.assignments) && Sorted(prio, s.w.assignments)
    && forall j :: j in s.w.assignments ==> j in s.jobs && s.jobs[j].status == Queued
  }

  ghost predicate SameJob(phase: map<nat, Phase>, t: nat, u: nat) {
    t in phase && u in phase && Holds(phase[t]) && Holds(phase[u]) && phase[t].job == phase[u].job
  }

  /** Two threads never hold the same job, and a held job is no longer queued. */
  ghost predicate HeldOk(s: State) {
    && (forall t :: t in s.phase && Holds(s.phase[t]) ==>
      && s.phase[t].job in s.jobs && s.phase[t].job !in s.w.assignments
      && (s.phase[t].Working? ==> s.jobs[s.phase[t].job].status == Running)
      && (s.phase[t].Freeing? ==> s.jobs[s.phase[t].job].status.Finished()))
    && (forall t, u :: SameJob(s.phase, t, u) ==> t == u)
  }

  ghost predicate ListsOk(s: State) {
    forall j :: j in s.jobs ==>
      NoDup(s.jobs[j].list)
      && forall p :: p in s.jobs[j].list && p.Restriction? ==> p.r in s.w.policies.resources
  }

  /** The customers of a resource are exactly the jobs carrying it that were taken and not yet
      freed, each of them once. */
  ghost predicate ResourcesOk(s: State) {
    forall r :: r in s.w.policies.resources ==>
      && NoDup(s.w.policies.resources[r].customers)
      && forall j :: j in s.w.policies.resources[r].customers <==>
        j in HeldJobs(s.phase) && j in s.jobs && Restriction(r) in s.jobs[j].list
  }

  predicate HasStarted(s: Status) {
    s == Running || s.Finished()
  }

  /** Both ends of an unresolved dependency carry the policy, and its dependent has not started. A
      wanted dependency is either unresolved or its dependee has ended with success. */
  ghost predicate DepsOk(s: State) {
    && (forall p :: p in s.w.policies.deps ==>
      && p.0 in s.jobs && p.1 in s.jobs
      && Dependencies in s.jobs[p.0].list && Dependencies in s.jobs[p.1].list
      && !HasStarted(s.jobs[p.0].status))
    && (forall p :: p in s.wants ==>
      p.0 in s.jobs && p.1 in s.jobs && (p in s.w.policies.deps || s.jobs[p.1].status == Success))
  }

  ghost predicate BoundsOk(s: State) {
    && s.w.inventoryMax >= 0
    && (s.w.inventoryMax > 0 && s.w.assignments != [] ==> s.w.inventory != [])
  }

  ghost predicate Inv(prio: nat -> int, s: State) {
    && ThreadsOk(s) && ActiveOk(s) && QueueOk(prio, s) && HeldOk(s) && ListsOk(s)
    && ResourcesOk(s) && DepsOk(s) && BoundsOk(s)
  }

  // ---- What the kinds of actions touch ----

  /** Steps of one thread outside the critical section. */
  predicate IsMove(a: Act) {
    a.Dispatch? || a.Wait? || a.SkipWait? || a.Wake? || a.EndRun? || a.FreePolicies?
  }

  /** Actions that may create threads. */
  predicate IsSpawn(a: Act) {
    a.EnqueueJobs? || a.SetMaximumThreads?
  }

  predicate IsOutside(a: Act) {
    !IsMove(a) && !IsSpawn(a) && !a.Enter?
  }

  ghost predicate MoveTouches(s: State, n: State, a: Act)
    requires IsMove(a)
  {
    && a.th in s.phase && a.th in n.phase && n.phase == s.phase[a.th := n.phase[a.th]]
    && n.w == s.w.(sleeping := s.w.sleeping + (if a.Wait? then {a.th} else {}), policies := n.w.policies)
    && (!a.FreePolicies? ==> n.w.policies == s.w.policies)
    && n.log == s.log && n.wants == s.wants && n.jobs.Keys == s.jobs.Keys
    && (forall j :: j in s.jobs ==>
      && n.jobs[j].list == s.jobs[j].list
      && (n.jobs[j].status == s.jobs[j].status ||
          (a.EndRun? && Holds(s.phase[a.th]) && s.phase[a.th].job == j && n.jobs[j].status == a.outcome)))
    && (a.EndRun? ==>
      && s.phase[a.th].Working? && n.phase[a.th] == Freeing(s.phase[a.th].job) && a.outcome.Finished()
      && (s.phase[a.th].job in s.jobs ==> n.jobs[s.phase[a.th].job].status == a.outcome))
    && (a.FreePolicies? ==> s.phase[a.th].Freeing? && n.phase[a.th] == Applying(true))
    && (!a.EndRun? && !a.FreePolicies? ==> !Holds(s.phase[a.th]) && !Holds(n.phase[a.th]))
  }

  lemma MoveEffect(prio: nat -> int, s: State, a: Act)
    requires Known(s) && Enabled(s, a) && IsMove(a)
    ensures MoveTouches(s, Next(prio, s, a), a)
  {
    hide FreeAll;
  }

  ghost predicate OutsideTouches(s: State, n: State, a: Act) {
    && n.phase == s.phase && n.log == s.log && s.jobs.Keys <= n.jobs.Keys
    && n.w == s.w.(state := n.w.state, assignments := n.w.assignments, sleeping := n.w.sleeping,
                   policies := n.w.policies)
    && n.w.assignments ==
       (if a.Dequeue? then RemoveFirst(s.w.assignments, a.j) else if a.DequeueAll? then [] else s.w.assignments)
    && (forall j :: j in n.jobs && j !in s.jobs ==> n.jobs[j] == Job(New, []))
    && (forall j :: j in s.jobs ==> n.jobs[j].status == if a == Dequeue(j) then New else s.jobs[j].status)
    && (a.Dequeue? ==> a.j in s.w.assignments)
    && n.w.sleeping <= s.w.sleeping
    && (s.w.state == ShuttingDown ==> n.w.state == ShuttingDown)
    && (n.w.state == Suspended || n.w.state == ShuttingDown ==> n.w.state == s.w.state || s.w.active == 0)
  }

  lemma OutsideEffect(prio: nat -> int, s: State, a: Act)
    requires Known(s) && Enabled(s, a) && IsOutside(a)
    ensures OutsideTouches(s, Next(prio, s, a), a)
  {
    hide RemoveFirst;
  }

  // ---- Sets of threads and jobs ----

  lemma SameElsewhere(b: set<nat>, c: set<nat>, x: nat)
    requires forall t :: t != x ==> (t in b <==> t in c)
    ensures |b| + (if x in c then 1 else 0) == |c| + if x in b then 1 else 0
  {
    var rest := b - {x};
    assert rest == c - {x};
    assert b == rest + if x in b then {x} else {};
    assert c == rest + if x in c then {x} else {};
  }

  lemma BusyUpdate(phase: map<nat, Phase>, th: nat, p: Phase)
    requires th in phase
    ensures |Busy(phase[th := p])| + (if IsBusy(phase[th]) then 1 else 0) == |Busy(phase)| + if IsBusy(p) then 1 else 0
  {
    var b, c := Busy(phase), Busy(phase[th := p]);
    assert forall t :: t != th ==> (t in b <==> t in c);
    assert th in b <==> IsBusy(phase[th]);
    assert th in c <==> IsBusy(p);
    hide Busy, IsBusy;
    SameElsewhere(b, c, th);
  }

  lemma SpawnChangesNothing(phase: map<nat, Phase>, before: nat, after: nat)
    requires forall t :: t in phase <==> 1 <= t <= before
    ensures Busy(Spawn(phase, before, after)) == Busy(phase)
    ensures HeldJobs(Spawn(phase, before, after)) == HeldJobs(phase)
    ensures forall t :: t in phase ==> t in Spawn(phase, before, after) && Spawn(phase, before, after)[t] == phase[t]
    ensures before <= after ==> forall t :: t in Spawn(phase, before, after) <==> 1 <= t <= after
    ensures forall t :: t in Spawn(phase, before, after) && t !in phase ==>
      Spawn(phase, before, after)[t] == Applying(false)
  {
  }

  lemma HeldUpdate(phase: map<nat, Phase>, th: nat, p: Phase)
    requires th in phase
    requires forall t :: t in phase && t != th && Holds(phase[t]) && Holds(phase[th]) ==> phase[t].job != phase[th].job
    ensures HeldJobs(phase[th := p]) ==
      HeldJobs(phase) - (if Holds(phase[th]) then {phase[th].job} else {}) + (if Holds(p) then {p.job} else {})
  {
    var q := phase[th := p];
    forall j | j in HeldJobs(phase) && !(Holds(phase[th]) && phase[th].job == j) ensures j in HeldJobs(q) {
      var t :| t in phase && Holds(phase[t]) && phase[t].job == j;
      assert q[t] == phase[t];
    }
    if Holds(p) { assert q[th] == p; }
  }

  // ---- What the functions of the Weaver do to its fields ----

  lemma AdjustedInventory(w: Weaver<nat, nat>, wanted: int)
    requires NoDup(w.inventory) && forall t :: t in w.inventory ==> t <= w.created
    ensures var v := AdjustInventory(w, wanted);
      && v.created >= w.created && NoDup(v.inventory)
      && (forall t :: t in v.inventory <==> t in w.inventory || w.created < t <= v.created)
      && (v.inventory == w.inventory || |v.inventory| <= w.inventoryMax)
      && (wanted >= 1 && w.inventoryMax > 0 ==> v.inventory != [])
  {
    var n := Shortfall(w.inventoryMax, |w.inventory|, wanted);
    var added := NewThreads(w.created, n);
    assert forall i, k :: 0 <= i < |w.inventory| && 0 <= k < n ==> w.inventory[i] in w.inventory && added[k] in added;
  }

  /** A Weaver whose inventory has at most grown, within its maximum, by threads numbered next. */
  ghost predicate Grown(w: Weaver<nat, nat>, v: Weaver<nat, nat>) {
    && v.created >= w.created && NoDup(v.inventory)
    && (forall t :: t in v.inventory <==> t in w.inventory || w.created < t <= v.created)
  }

  lemma {:induction false} EnqueueGrows(w: Weaver<nat, nat>, prio: nat -> int, batch: int, js: seq<nat>)
    requires NoDup(w.inventory) && forall t :: t in w.inventory ==> t <= w.created
    ensures var v := Enqueue(w, prio, batch, js);
      && Grown(w, v)
      && v.state == w.state && v.active == w.active && v.expired == w.expired
      && v.inventoryMax == w.inventoryMax && v.policies == w.policies
      && v.assignments == InsertAll(prio, w.assignments, js)
      && v.sleeping == (if js == [] then w.sleeping else {})
      && (js != [] && batch >= 1 && w.inventoryMax > 0 ==> v.inventory != [])
      && (v.inventory == w.inventory || |v.inventory| <= w.inventoryMax)
      && (js == [] ==> v == w)
    decreases |js|
  {
    if js != [] {
      AdjustedInventory(w, batch);
      EnqueueGrows(EnqueueOne(w, prio, batch, js[0]), prio, batch, js[1..]);
    }
  }

  ghost predicate NumbersOk(s: State) {
    NoDup(s.w.inventory) && forall t :: t in s.w.inventory ==> t <= s.w.created
  }

  lemma Numbered(s: State)
    requires ThreadsOk(s)
    ensures NumbersOk(s)
  {
  }

  lemma SettledGrows(w: Weaver<nat, nat>, busy: bool)
    requires NoDup(w.inventory) && forall t :: t in w.inventory ==> t <= w.created
    ensures var m := Settled(w, busy);
      && Grown(w, m) && m.expired == []
      && m.state == w.state && m.assignments == w.assignments && m.inventoryMax == w.inventoryMax
      && m.policies == w.policies && m.sleeping == w.sleeping
      && m.active == w.active - (if busy then 1 else 0)
      && (m.inventory == w.inventory || |m.inventory| <= w.inventoryMax)
      && (w.inventoryMax > 0 ==> m.inventory != [])
  {
    AdjustedInventory(w.(expired := []), 1);
  }

  /** How the critical section may leave the Weaver, m being the Weaver after settling. */
  ghost predicate TakeShape(m: Weaver<nat, nat>, th: nat, stopping: bool, t: Taken<nat>, v: Weaver<nat, nat>) {
    && v.created == m.created && v.inventoryMax == m.inventoryMax
    && match t
       case Returned =>
         v == m.(state := v.state)
         && if v.state == m.state then m.state != WorkingHard || stopping
            else m.state == Suspending && v.state == Suspended && m.active == 0
       case Expired =>
         && m.state == WorkingHard && |m.inventory| > m.inventoryMax
         && v == m.(inventory := RemoveFirst(m.inventory, th), expired := [th])
       case Slept =>
         && m.state == WorkingHard && |m.inventory| <= m.inventoryMax
         && v == m.(sleeping := m.sleeping + {th}, policies := v.policies)
       case Assigned(j) =>
         && m.state == WorkingHard && |m.inventory| <= m.inventoryMax
         && v == m.(assignments := v.assignments, active := m.active + 1, policies := v.policies)
         && exists i :: 0 <= i < |m.assignments| && m.assignments[i] == j && v.assignments == RemoveAt(m.assignments, i)
  }

  lemma TakeHasShape(w: Weaver<nat, nat>, lists: map<nat, seq<Policy<nat>>>, th: nat, busy: bool, stopping: bool)
    requires forall i :: 0 <= i < |w.assignments| ==> w.assignments[i] in lists
    ensures var (t, v) := TakeFirst(w, lists, th, busy, stopping, stopping);
      TakeShape(Settled(w, busy), th, stopping, t, v)
  {
  }

  // ---- Threads ----

  /** The state in the middle of the critical section, after settling. */
  ghost function Middle(s: State, busy: bool): State {
    s.(w := Settled(s.w, busy), phase := Spawn(s.phase, s.w.created, Settled(s.w, busy).created))
  }

  lemma ThreadsInTheMiddle(s: State, busy: bool)
    requires ThreadsOk(s)
    ensures ThreadsOk(Middle(s, busy)) && Middle(s, busy).w.expired == []
    ensures forall t :: t in s.phase ==> t in Middle(s, busy).phase && Middle(s, busy).phase[t] == s.phase[t]
  {
    hide Spawn, Settled;
    SettledGrows(s.w, busy);
    SpawnChangesNothing(s.phase, s.w.created, Settled(s.w, busy).created);
  }

  lemma ThreadsKeptTake(s: State, th: nat, busy: bool, stopping: bool, t: Taken<nat>, v: Weaver<nat, nat>)
    requires ThreadsOk(s) && th in s.phase && s.phase[th].Entering?
    requires TakeShape(Settled(s.w, busy), th, stopping, t, v)
    ensures ThreadsOk(AfterTake(s, th, t, v, stopping))
  {
    hide Spawn, Settled, RemoveAt, ThreadsOk;
    ThreadsInTheMiddle(s, busy);
    var m := Middle(s, busy);
    var n := AfterTake(s, th, t, v, stopping);
    assert n.phase == m.phase[th := n.phase[th]];
    ThreadsKeptUpdate(m, n, th);
  }

  /** In the last part of the critical section, the thread leaves the inventory and is gone, or falls
      asleep in wait(), or neither. */
  lemma ThreadsKeptUpdate(m: State, n: State, th: nat)
    requires ThreadsOk(m) && m.w.expired == [] && th in m.phase && m.phase[th].Entering?
    requires th in n.phase && n.phase == m.phase[th := n.phase[th]] && n.w.created == m.w.created
    requires n.w.state == ShuttingDown <==> m.w.state == ShuttingDown
    requires if n.phase[th].Gone? then
        n.w.inventory == RemoveFirst(m.w.inventory, th) && n.w.expired == [th] && n.w.sleeping == m.w.sleeping
      else
        && n.w.inventory == m.w.inventory && n.w.expired == []
        && n.w.sleeping == m.w.sleeping + (if n.phase[th].Parked? then {th} else {})
    ensures ThreadsOk(n)
  {
    RemoveFirstMembers(m.w.inventory, th);
  }

  lemma ThreadsKeptGrow(s: State, n: State)
    requires ThreadsOk(s) && Grown(s.w, n.w) && n.phase == Spawn(s.phase, s.w.created, n.w.created)
    requires n.w.expired == s.w.expired && n.w.state == s.w.state && n.w.sleeping <= s.w.sleeping
    ensures ThreadsOk(n)
  {
  }

  lemma ThreadsKept(prio: nat -> int, s: State, a: Act)
    requires Known(s) && ThreadsOk(s) && Enabled(s, a)
    ensures ThreadsOk(Next(prio, s, a))
  {
    var n := Next(prio, s, a);
    if a.Enter? {
      ThreadsKeptEnter(prio, s, a.th);
    } else if IsMove(a) {
      ThreadsKeptMove(prio, s, a);
    } else if IsSpawn(a) {
      ThreadsKeptSpawn(prio, s, a);
    } else {
      OutsideEffect(prio, s, a);
      hide Next, Enabled;
    }
  }

  lemma ThreadsKeptEnter(prio: nat -> int, s: State, th: nat)
    requires Known(s) && ThreadsOk(s) && Enabled(s, Enter(th))
    ensures ThreadsOk(Next(prio, s, Enter(th)))
  {
    hide Spawn, TakeFirst, ThreadsOk;
    var p := s.phase[th];
    TakeHasShape(s.w, Lists(s.jobs), th, p.busy, p.stopping);
    var (t, v) := TakeFirst(s.w, Lists(s.jobs), th, p.busy, p.stopping, p.stopping);
    ThreadsKeptTake(s, th, p.busy, p.stopping, t, v);
  }

  /** A thread only falls asleep in Wait, and only dies when it finds the Weaver shutting down. */
  lemma ThreadsKeptMove(prio: nat -> int, s: State, a: Act)
    requires Known(s) && ThreadsOk(s) && Enabled(s, a) && IsMove(a)
    ensures ThreadsOk(Next(prio, s, a))
  {
    var n := Next(prio, s, a);
    var th := a.th;
    MoveEffect(prio, s, a);
    assert !s.phase[th].Gone? && (n.phase[th].Gone? ==> s.w.state == ShuttingDown) && (a.Wait? ==> n.phase[th].Parked?)
      && th !in s.w.sleeping;
    hide Next, Enabled;
  }

  lemma ThreadsKeptSpawn(prio: nat -> int, s: State, a: Act)
    requires Known(s) && ThreadsOk(s) && Enabled(s, a) && IsSpawn(a)
    ensures ThreadsOk(Next(prio, s, a))
  {
    hide Spawn, Enqueue, ThreadsOk;
    Numbered(s);
    if a.EnqueueJobs? {
      EnqueueGrows(s.w, prio, |a.js|, a.js);
    } else {
      AdjustedInventory(s.w.(inventoryMax := a.max, sleeping := {}), 1);
    }
    ThreadsKeptGrow(s, Next(prio, s, a));
  }

  // ---- Active threads ----

  lemma ActiveKeptTake(s: State, th: nat, stopping: bool, t: Taken<nat>, v: Weaver<nat, nat>)
    requires ThreadsOk(s) && ActiveOk(s) && th in s.phase && s.phase[th].Entering?
    requires TakeShape(Settled(s.w, s.phase[th].busy), th, stopping, t, v)
    ensures ActiveOk(AfterTake(s, th, t, v, stopping))
  {
    hide Spawn, Settled, RemoveAt, Busy;
    var busy := s.phase[th].busy;
    SettledGrows(s.w, busy);
    SpawnChangesNothing(s.phase, s.w.created, Settled(s.w, busy).created);
    var m := Middle(s, busy);
    var n := AfterTake(s, th, t, v, stopping);
    assert n.phase == m.phase[th := n.phase[th]];
    BusyUpdate(m.phase, th, n.phase[th]);
  }

  lemma NobodyBusy(s: State, th: nat)
    requires ActiveOk(s) && (s.w.state == Suspended || s.w.state == ShuttingDown) && th in s.phase
    ensures !IsBusy(s.phase[th])
  {
    BusyUpdate(s.phase, th, Gone);
  }

  lemma ActiveKept(prio: nat -> int, s: State, a: Act)
    requires Known(s) && ThreadsOk(s) && ActiveOk(s) && Enabled(s, a)
    ensures ActiveOk(Next(prio, s, a))
  {
    if a.Enter? {
      ActiveKeptEnter(prio, s, a.th);
    } else if IsMove(a) {
      ActiveKeptMove(prio, s, a);
    } else if IsSpawn(a) {
      ActiveKeptSpawn(prio, s, a);
    } else {
      OutsideEffect(prio, s, a);
      hide Next, Enabled, Busy;
    }
  }

  lemma ActiveKeptEnter(prio: nat -> int, s: State, th: nat)
    requires Known(s) && ThreadsOk(s) && ActiveOk(s) && Enabled(s, Enter(th))
    ensures ActiveOk(Next(prio, s, Enter(th)))
  {
    hide Spawn, TakeFirst, ActiveOk, ThreadsOk;
    var p := s.phase[th];
    TakeHasShape(s.w, Lists(s.jobs), th, p.busy, p.stopping);
    var (t, v) := TakeFirst(s.w, Lists(s.jobs), th, p.busy, p.stopping, p.stopping);
    ActiveKeptTake(s, th, p.stopping, t, v);
  }

  /** Outside the critical section a thread stays as busy as it is. */
  lemma ActiveKeptMove(prio: nat -> int, s: State, a: Act)
    requires Known(s) && ActiveOk(s) && Enabled(s, a) && IsMove(a)
    ensures ActiveOk(Next(prio, s, a))
  {
    hide Busy, FreeAll;
    var n := Next(prio, s, a);
    var th := a.th;
    MoveEffect(prio, s, a);
    if s.w.state == Suspended || s.w.state == ShuttingDown { NobodyBusy(s, th); }
    BusyUpdate(s.phase, th, n.phase[th]);
  }

  lemma ActiveKeptSpawn(prio: nat -> int, s: State, a: Act)
    requires Known(s) && ThreadsOk(s) && ActiveOk(s) && Enabled(s, a) && IsSpawn(a)
    ensures ActiveOk(Next(prio, s, a))
  {
    hide Spawn, Enqueue, Busy;
    if a.EnqueueJobs? { EnqueueGrows(s.w, prio, |a.js|, a.js); }
    SpawnChangesNothing(s.phase, s.w.created, Next(prio, s, a).w.created);
  }

  // ---- The queue ----

  lemma InsertMembers(prio: nat -> int, q: seq<nat>, j: nat)
    ensures forall x :: x in Insert(prio, q, j) <==> x in q || x == j
    ensures NoDup(q) && j !in q ==> NoDup(Insert(prio, q, j))
  {
  }

  lemma {:induction false} InsertAllMembers(prio: nat -> int, q: seq<nat>, js: seq<nat>)
    requires NoDup(q) && NoDup(js) && forall j :: j in js ==> j !in q
    ensures NoDup(InsertAll(prio, q, js))
    ensures forall x :: x in InsertAll(prio, q, js) <==> x in q || x in js
    decreases |js|
  {
    if js != [] {
      InsertMembers(prio, q, js[0]);
      assert forall i :: 1 <= i < |js| ==> js[i] == js[1..][i - 1];
      assert js == [js[0]] + js[1..];
      assert js[0] !in js[1..];
      InsertAllMembers(prio, Insert(prio, q, js[0]), js[1..]);
    }
  }

  lemma RemoveAtKeeps(prio: nat -> int, q: seq<nat>, i: nat)
    requires i < |q| && NoDup(q) && Sorted(prio, q)
    ensures NoDup(RemoveAt(q, i)) && Sorted(prio, RemoveAt(q, i))
    ensures forall x :: x in RemoveAt(q, i) <==> x in q && x != q[i]
  {
  }

  lemma {:induction false} RemoveFirstIndex(q: seq<nat>, x: nat) returns (i: nat)
    requires x in q
    ensures i < |q| && q[i] == x && RemoveFirst(q, x) == RemoveAt(q, i)
  {
    if q[0] == x {
      i := 0;
    } else {
      i := RemoveFirstIndex(q[1..], x);
      i := i + 1;
    }
  }

  lemma QueueKeptTake(prio: nat -> int, s: State, th: nat, busy: bool, stopping: bool, t: Taken<nat>,
      v: Weaver<nat, nat>)
    requires NumbersOk(s) && QueueOk(prio, s)
    requires TakeShape(Settled(s.w, busy), th, stopping, t, v)
    ensures QueueOk(prio, AfterTake(s, th, t, v, stopping))
  {
    hide Spawn, Settled, RemoveAt, Sorted;
    SettledGrows(s.w, busy);
    if t.Assigned? {
      var i :| 0 <= i < |s.w.assignments| && s.w.assignments[i] == t.job
               && v.assignments == RemoveAt(s.w.assignments, i);
      RemoveAtKeeps(prio, s.w.assignments, i);
    }
  }

  lemma QueueKeptEnqueue(prio: nat -> int, s: State, js: seq<nat>, n: State)
    requires QueueOk(prio, s) && NoDup(js)
    requires forall j :: j in js ==> j in s.jobs && s.jobs[j].status == New
    requires n.w.assignments == InsertAll(prio, s.w.assignments, js) && n.jobs == SetAll(s.jobs, js, Queued)
    ensures QueueOk(prio, n)
  {
    hide OfPriority, InsertAll, Sorted;
    InsertAllMembers(prio, s.w.assignments, js);
    InsertAllAppends(prio, s.w.assignments, js, 0);
  }

  lemma QueueKept(prio: nat -> int, s: State, a: Act)
    requires Known(s) && ThreadsOk(s) && QueueOk(prio, s) && HeldOk(s) && Enabled(s, a)
    ensures QueueOk(prio, Next(prio, s, a))
  {
    hide Next, QueueOk, HeldOk, ThreadsOk, Enabled;
    if a.Enter? {
      QueueKeptEnter(prio, s, a.th);
    } else if IsMove(a) {
      MoveEffect(prio, s, a);
      QueueKeptMove(prio, s, Next(prio, s, a), a);
    } else if IsSpawn(a) {
      QueueKeptSpawn(prio, s, a);
    } else {
      OutsideEffect(prio, s, a);
      QueueKeptOutside(prio, s, Next(prio, s, a), a);
    }
  }

  lemma QueueKeptMove(prio: nat -> int, s: State, n: State, a: Act)
    requires QueueOk(prio, s) && HeldOk(s) && IsMove(a) && MoveTouches(s, n, a)
    ensures QueueOk(prio, n)
  {
  }

  lemma EmptyIsSorted(prio: nat -> int)
    ensures Sorted(prio, [])
  {
  }

  lemma QueueKeptOutside(prio: nat -> int, s: State, n: State, a: Act)
    requires QueueOk(prio, s) && OutsideTouches(s, n, a)
    ensures QueueOk(prio, n)
  {
    hide Sorted, RemoveAt;
    EmptyIsSorted(prio);
    if a.Dequeue? {
      var i := RemoveFirstIndex(s.w.assignments, a.j);
      RemoveAtKeeps(prio, s.w.assignments, i);
    }
  }

  lemma QueueKeptEnter(prio: nat -> int, s: State, th: nat)
    requires Known(s) && ThreadsOk(s) && QueueOk(prio, s) && Enabled(s, Enter(th))
    ensures QueueOk(prio, Next(prio, s, Enter(th)))
  {
    hide Spawn, TakeFirst, ThreadsOk, QueueOk;
    Numbered(s);
    var p := s.phase[th];
    TakeHasShape(s.w, Lists(s.jobs), th, p.busy, p.stopping);
    var (t, v) := TakeFirst(s.w, Lists(s.jobs), th, p.busy, p.stopping, p.stopping);
    QueueKeptTake(prio, s, th, p.busy, p.stopping, t, v);
  }

  lemma QueueKeptSpawn(prio: nat -> int, s: State, a: Act)
    requires Known(s) && ThreadsOk(s) && QueueOk(prio, s) && Enabled(s, a) && IsSpawn(a)
    ensures QueueOk(prio, Next(prio, s, a))
  {
    hide Spawn, Enqueue, ThreadsOk, Sorted;
    if a.EnqueueJobs? {
      Numbered(s);
      EnqueueGrows(s.w, prio, |a.js|, a.js);
      QueueKeptEnqueue(prio, s, a.js, Next(prio, s, a));
    }
  }

  // ---- Jobs that threads hold ----

  lemma HeldKept(prio: nat -> int, s: State, a: Act)
    requires Known(s) && ThreadsOk(s) && QueueOk(prio, s) && HeldOk(s) && Enabled(s, a)
    ensures HeldOk(Next(prio, s, a))
  {
    var n := Next(prio, s, a);
    IsQueued(prio, s);
    if a.Enter? {
      HeldKeptEnter(prio, s, a.th);
    } else if IsMove(a) {
      MoveEffect(prio, s, a);
      hide *;
      HeldKeptMove(s, n, a);
    } else if IsSpawn(a) {
      HeldKeptSpawning(prio, s, a);
    } else {
      OutsideEffect(prio, s, a);
      hide Next, HeldOk, ThreadsOk, QueueOk, Enabled;
      if a.Dequeue? { RemoveFirstMembers(s.w.assignments, a.j); }
      HeldKeptElsewhere(s, n);
    }
  }

  lemma HeldKeptEnter(prio: nat -> int, s: State, th: nat)
    requires Known(s) && ThreadsOk(s) && QueueOk(prio, s) && HeldOk(s) && Enabled(s, Enter(th))
    ensures HeldOk(Next(prio, s, Enter(th)))
  {
    hide Spawn, TakeFirst, ThreadsOk, HeldOk, QueueOk;
    Numbered(s);
    var p := s.phase[th];
    TakeHasShape(s.w, Lists(s.jobs), th, p.busy, p.stopping);
    var (t, v) := TakeFirst(s.w, Lists(s.jobs), th, p.busy, p.stopping, p.stopping);
    HeldKeptTake(prio, s, th, p.busy, p.stopping, t, v);
  }

  lemma HeldKeptSpawning(prio: nat -> int, s: State, a: Act)
    requires Known(s) && ThreadsOk(s) && QueueOk(prio, s) && HeldOk(s) && Enabled(s, a) && IsSpawn(a)
    ensures HeldOk(Next(prio, s, a))
  {
    hide Spawn, Enqueue, ThreadsOk, HeldOk, Sorted;
    if a.EnqueueJobs? {
      Numbered(s);
      EnqueueGrows(s.w, prio, |a.js|, a.js);
      InsertAllMembers(prio, s.w.assignments, a.js);
    }
    HeldKeptSpawn(s, Next(prio, s, a));
  }

  lemma IsQueued(prio: nat -> int, s: State)
    requires QueueOk(prio, s)
    ensures NoDup(s.w.assignments)
    ensures forall j :: j in s.w.assignments ==> j in s.jobs && s.jobs[j].status == Queued
  {
  }

  lemma HeldKeptElsewhere(s: State, n: State)
    requires HeldOk(s) && n.phase == s.phase && forall j :: j in n.w.assignments ==> j in s.w.assignments
    requires forall j :: j in s.jobs ==>
      && j in n.jobs
      && (HasStarted(s.jobs[j].status) ==> n.jobs[j].status == s.jobs[j].status)
    ensures HeldOk(n)
  {
  }

  lemma HeldKeptMove(s: State, n: State, a: Act)
    requires HeldOk(s) && IsMove(a) && MoveTouches(s, n, a)
    ensures HeldOk(n)
  {
    var th := a.th;
    forall x, y | SameJob(n.phase, x, y) ensures x == y {
      assert SameJob(s.phase, x, y);
    }
    forall t | t in n.phase && t != th && Holds(n.phase[t]) && Holds(n.phase[th])
      ensures n.phase[t].job != n.phase[th].job
    {
      assert SameJob(s.phase, t, th) ==> t == th;
    }
  }

  lemma HeldKeptSpawn(s: State, n: State)
    requires ThreadsOk(s) && HeldOk(s) && s.w.created <= n.w.created
    requires n.phase == Spawn(s.phase, s.w.created, n.w.created)
    requires forall j :: j in s.jobs ==>
      && j in n.jobs
      && (HasStarted(s.jobs[j].status) ==> n.jobs[j].status == s.jobs[j].status)
    requires forall j :: j in n.w.assignments && j !in s.w.assignments ==> j in s.jobs && !HasStarted(s.jobs[j].status)
    ensures HeldOk(n)
  {
    SpawnChangesNothing(s.phase, s.w.created, n.w.created);
    hide Spawn;
    forall t, u | SameJob(n.phase, t, u) ensures t == u {
      assert SameJob(s.phase, t, u);
    }
  }

  /** One more thread holds a job, which it took from the queue, or none more does. */
  lemma HeldKeptUpdate(m: State, n: State, th: nat)
    requires HeldOk(m) && th in m.phase && th in n.phase && !Holds(m.phase[th]) && n.phase == m.phase[th := n.phase[th]]
    requires forall j :: j in n.w.assignments ==> j in m.w.assignments
    requires m.jobs.Keys == n.jobs.Keys
    requires Holds(n.phase[th]) ==>
      var j := n.phase[th].job;
      && n.phase[th].Working? && j in m.w.assignments && j !in n.w.assignments
      && j in n.jobs && n.jobs[j].status == Running
    requires forall j :: j in m.jobs && !(Holds(n.phase[th]) && n.phase[th].job == j) ==> n.jobs[j] == m.jobs[j]
    ensures HeldOk(n)
  {
    forall x, y | SameJob(n.phase, x, y) ensures x == y {
      assert x != th && y != th ==> SameJob(m.phase, x, y);
    }
  }

  lemma HeldKeptTake(prio: nat -> int, s: State, th: nat, busy: bool, stopping: bool, t: Taken<nat>,
      v: Weaver<nat, nat>)
    requires ThreadsOk(s) && QueueOk(prio, s) && HeldOk(s) && th in s.phase && s.phase[th].Entering?
    requires TakeShape(Settled(s.w, busy), th, stopping, t, v)
    ensures HeldOk(AfterTake(s, th, t, v, stopping))
  {
    hide Spawn, RemoveAt, Settled, Sorted, HeldOk, ThreadsOk;
    Numbered(s);
    ThreadsInTheMiddle(s, busy);
    SettledGrows(s.w, busy);
    var m := Middle(s, busy);
    HeldKeptSpawn(s, m);
    var n := AfterTake(s, th, t, v, stopping);
    assert n.phase == m.phase[th := n.phase[th]];
    if t.Assigned? {
      var i :| 0 <= i < |s.w.assignments| && s.w.assignments[i] == t.job
               && v.assignments == RemoveAt(s.w.assignments, i);
      RemoveAtKeeps(prio, s.w.assignments, i);
    }
    HeldKeptUpdate(m, n, th);
  }

  // ---- Policy lists ----

  lemma ListsKept(prio: nat -> int, s: State, a: Act)
    requires Known(s) && ThreadsOk(s) && QueueOk(prio, s) && HeldOk(s) && ListsOk(s) && Enabled(s, a)
    requires ResourcesOk(s)
    ensures ListsOk(Next(prio, s, a))
  {
    hide Next, Enabled, QueueOk, HeldOk, ResourcesOk, ThreadsOk, ListsOk;
    if a.Enter? {
      ListsKeptEnter(prio, s, a.th);
    } else if IsMove(a) {
      MoveEffect(prio, s, a);
      if a.FreePolicies? { FreeKeepsResources(prio, s, a.th); }
      ListsKeptGrown(s, Next(prio, s, a));
    } else if IsSpawn(a) {
      ListsKeptSpawn(prio, s, a);
    } else {
      ListsKeptOutside(prio, s, a);
    }
  }

  lemma FreeKeepsResources(prio: nat -> int, s: State, th: nat)
    requires Known(s) && ListsOk(s) && Enabled(s, FreePolicies(th))
    ensures Next(prio, s, FreePolicies(th)).w.policies.resources.Keys == s.w.policies.resources.Keys
  {
    var j := s.phase[th].job;
    FreeAllExactly(s.w.policies, s.jobs[j].list, j, s.jobs[j].status == Success);
  }

  lemma ListsKeptEnter(prio: nat -> int, s: State, th: nat)
    requires ThreadsOk(s) && QueueOk(prio, s) && HeldOk(s) && ListsOk(s) && ResourcesOk(s)
    requires Known(s) && Enabled(s, Enter(th))
    ensures ListsOk(Next(prio, s, Enter(th)))
  {
    hide Spawn, TakeFirst, ThreadsOk, Sorted, HeldOk, ResourcesOk, ListsOk;
    Numbered(s);
    TakeEffect(prio, s, th);
    ListsKeptGrown(s, Next(prio, s, Enter(th)));
  }

  lemma ListsKeptSpawn(prio: nat -> int, s: State, a: Act)
    requires Known(s) && ThreadsOk(s) && ListsOk(s) && Enabled(s, a) && IsSpawn(a)
    ensures ListsOk(Next(prio, s, a))
  {
    hide Spawn, Enqueue, ThreadsOk, ListsOk;
    if a.EnqueueJobs? {
      Numbered(s);
      EnqueueGrows(s.w, prio, |a.js|, a.js);
    }
    ListsKeptGrown(s, Next(prio, s, a));
  }

  lemma ListsKeptOutside(prio: nat -> int, s: State, a: Act)
    requires Known(s) && ListsOk(s) && Enabled(s, a) && IsOutside(a)
    ensures ListsOk(Next(prio, s, a))
  {
    if a.AddDependency? {
      ListsKeptAdd(prio, s, a.a, a.b);
    } else if a.ChangePolicies? || a.NewJob? {
      ListsKeptEdit(prio, s, a);
    } else if a.LiftBlocker? {
      Lifted(s.jobs[a.j].list, Blocker(a.owner));
    } else {
      ListsKeptPlain(prio, s, a);
    }
  }

  lemma Lifted(l: seq<Policy<nat>>, b: Policy<nat>)
    requires NoDup(l)
    ensures NoDup(RemoveFirst(l, b)) && forall p :: p in RemoveFirst(l, b) <==> p in l && p != b
  {
    RemoveFirstMembers(l, b);
  }

  lemma ListsKeptAdd(prio: nat -> int, s: State, x: nat, y: nat)
    requires Known(s) && ListsOk(s) && Enabled(s, AddDependency(x, y))
    ensures ListsOk(Next(prio, s, AddDependency(x, y)))
  {
  }

  lemma ListsKeptEdit(prio: nat -> int, s: State, a: Act)
    requires Known(s) && ListsOk(s) && Enabled(s, a) && (a.ChangePolicies? || a.NewJob?)
    ensures ListsOk(Next(prio, s, a))
  {
  }

  lemma ListsKeptPlain(prio: nat -> int, s: State, a: Act)
    requires Known(s) && ListsOk(s) && Enabled(s, a)
    requires IsOutside(a) && !a.AddDependency? && !a.ChangePolicies? && !a.NewJob? && !a.LiftBlocker?
    ensures ListsOk(Next(prio, s, a))
  {
  }

  lemma ListsKeptGrown(s: State, n: State)
    requires ListsOk(s) && s.w.policies.resources.Keys <= n.w.policies.resources.Keys && n.jobs.Keys == s.jobs.Keys
    requires forall j :: j in s.jobs ==> n.jobs[j].list == s.jobs[j].list
    ensures ListsOk(n)
  {
  }

  /** No queued job is a customer anywhere, so the scan is exact. */
  lemma ReadyToScan(prio: nat -> int, s: State)
    requires QueueOk(prio, s) && HeldOk(s) && ListsOk(s) && ResourcesOk(s)
    ensures ScanReady(s.w.policies, s.w.assignments, Lists(s.jobs))
  {
  }

  /** What the critical section does to the policies: it lets the taken job enter its restrictions,
      and it takes a job, the first willing one, exactly if one is willing. */
  lemma TakeEffect(prio: nat -> int, s: State, th: nat)
    requires QueueOk(prio, s) && HeldOk(s) && ListsOk(s) && ResourcesOk(s) && NumbersOk(s)
    requires Known(s) && Enabled(s, Enter(th))
    ensures var p := s.phase[th];
      var (t, v) := TakeFirst(s.w, Lists(s.jobs), th, p.busy, p.stopping, p.stopping);
      match t
      case Assigned(j) =>
        && j in s.w.assignments && AllWilling(s.w.policies, s.jobs[j].list, j)
        && v.policies == Entered(s.w.policies, s.jobs[j].list, j)
      case Slept =>
        && v.policies == s.w.policies
        && forall j :: j in s.w.assignments ==> !AllWilling(s.w.policies, s.jobs[j].list, j)
      case _ => v.policies == s.w.policies
  {
    hide Scan, Settled;
    ReadyToScan(prio, s);
    SettledGrows(s.w, s.phase[th].busy);
    ScanFindsFirst(s.w.policies, s.w.assignments, Lists(s.jobs), 0);
  }

  // ---- Resources ----

  /** Neither the policies of held jobs nor who is held has changed, nor any list of customers. */
  lemma ResourcesKeptElsewhere(s: State, n: State)
    requires ListsOk(s) && ResourcesOk(s) && HeldJobs(n.phase) == HeldJobs(s.phase)
    requires forall j :: j in HeldJobs(s.phase) ==> j in s.jobs && j in n.jobs
    requires forall j, r :: j in HeldJobs(s.phase) ==>
      (Restriction(r) in n.jobs[j].list <==> Restriction(r) in s.jobs[j].list)
    requires forall r :: r in n.w.policies.resources ==>
      if r in s.w.policies.resources
      then n.w.policies.resources[r].customers == s.w.policies.resources[r].customers
      else n.w.policies.resources[r].customers == []
    ensures ResourcesOk(n)
  {
  }

  lemma HeldAfterTake(prio: nat -> int, s: State, th: nat)
    requires ThreadsOk(s) && HeldOk(s) && Known(s) && Enabled(s, Enter(th))
    ensures var n := Next(prio, s, Enter(th));
      th in n.phase && HeldJobs(n.phase) == HeldJobs(s.phase) + if Holds(n.phase[th]) then {n.phase[th].job} else {}
  {
    hide Spawn, TakeFirst, ThreadsOk, HeldOk, Settled, HeldJobs, RemoveAt;
    var p := s.phase[th];
    Numbered(s);
    SettledGrows(s.w, p.busy);
    TakeHasShape(s.w, Lists(s.jobs), th, p.busy, p.stopping);
    var n := Next(prio, s, Enter(th));
    var m := Middle(s, p.busy);
    ThreadsInTheMiddle(s, p.busy);
    SpawnedIsHeld(s, m);
    HeldKeptSpawn(s, m);
    assert n.phase == m.phase[th := n.phase[th]];
    MoveIsHeld(m, th, n.phase[th]);
  }

  lemma ResourcesKeptTake(prio: nat -> int, s: State, th: nat)
    requires ThreadsOk(s) && QueueOk(prio, s) && HeldOk(s) && ListsOk(s) && ResourcesOk(s)
    requires Known(s) && Enabled(s, Enter(th))
    ensures ResourcesOk(Next(prio, s, Enter(th)))
  {
    hide Spawn, TakeFirst, ThreadsOk, Sorted, HeldJobs, HeldOk, ResourcesOk, ListsOk, AllWilling, Entered;
    Numbered(s);
    TakeEffect(prio, s, th);
    HeldAfterTake(prio, s, th);
    HeldAreJobs(s);
    var n := Next(prio, s, Enter(th));
    if Holds(n.phase[th]) {
      EnteredCustomers(s, n, n.phase[th].job);
    } else {
      ResourcesKeptElsewhere(s, n);
    }
  }

  lemma SpawnedIsHeld(s: State, n: State)
    requires ThreadsOk(s) && n.phase == Spawn(s.phase, s.w.created, n.w.created)
    ensures HeldJobs(n.phase) == HeldJobs(s.phase)
    ensures forall t :: t in s.phase ==> t in n.phase && n.phase[t] == s.phase[t]
  {
  }

  lemma HeldAreJobs(s: State)
    requires HeldOk(s)
    ensures forall j :: j in HeldJobs(s.phase) ==> j in s.jobs && j !in s.w.assignments && HasStarted(s.jobs[j].status)
  {
  }

  lemma EnteredCustomers(s: State, n: State, j: nat)
    requires ListsOk(s) && ResourcesOk(s) && j in s.jobs && j !in HeldJobs(s.phase)
    requires HeldJobs(n.phase) == HeldJobs(s.phase) + {j}
    requires n.w.policies == Entered(s.w.policies, s.jobs[j].list, j)
    requires n.jobs.Keys == s.jobs.Keys && forall x :: x in s.jobs ==> n.jobs[x].list == s.jobs[x].list
    ensures ResourcesOk(n)
  {
  }

  lemma FreedCustomers(s: State, n: State, j: nat, success: bool)
    requires ListsOk(s) && ResourcesOk(s) && j in s.jobs && j in HeldJobs(s.phase)
    requires HeldJobs(n.phase) == HeldJobs(s.phase) - {j}
    requires n.w.policies == Freed(s.w.policies, s.jobs[j].list, j, success) && n.jobs == s.jobs
    ensures ResourcesOk(n)
  {
    hide HeldJobs;
    forall r | r in n.w.policies.resources
      ensures NoDup(n.w.policies.resources[r].customers)
      ensures forall x :: x in n.w.policies.resources[r].customers <==>
        x in HeldJobs(n.phase) && x in n.jobs && Restriction(r) in n.jobs[x].list
    {
      RemoveFirstMembers(s.w.policies.resources[r].customers, j);
    }
  }

  lemma MoveIsHeld(s: State, th: nat, p: Phase)
    requires HeldOk(s) && th in s.phase
    ensures HeldJobs(s.phase[th := p]) ==
      HeldJobs(s.phase) - (if Holds(s.phase[th]) then {s.phase[th].job} else {}) + (if Holds(p) then {p.job} else {})
    ensures Holds(s.phase[th]) ==> s.phase[th].job in HeldJobs(s.phase)
  {
    forall t | t in s.phase && t != th && Holds(s.phase[t]) && Holds(s.phase[th])
      ensures s.phase[t].job != s.phase[th].job
    {
      assert SameJob(s.phase, t, th) ==> t == th;
    }
    HeldUpdate(s.phase, th, p);
  }

  lemma ResourcesKeptMove(s: State, n: State, th: nat)
    requires ListsOk(s) && HeldOk(s) && ResourcesOk(s) && th in s.phase && th in n.phase
    requires n.phase == s.phase[th := n.phase[th]] && n.w.policies == s.w.policies
    requires n.jobs.Keys == s.jobs.Keys && forall j :: j in s.jobs ==> n.jobs[j].list == s.jobs[j].list
    requires if Holds(s.phase[th])
      then Holds(n.phase[th]) && n.phase[th].job == s.phase[th].job else !Holds(n.phase[th])
    ensures ResourcesOk(n)
  {
    hide HeldJobs, ListsOk, ResourcesOk;
    HeldAreJobs(s);
    MoveIsHeld(s, th, n.phase[th]);
    assert HeldJobs(n.phase) == HeldJobs(s.phase);
    ResourcesKeptElsewhere(s, n);
  }

  lemma ResourcesKeptEnvironment(prio: nat -> int, s: State, a: Act)
    requires Known(s) && HeldOk(s) && ListsOk(s) && ResourcesOk(s) && Enabled(s, a)
    requires a.NewJob? || a.ChangePolicies? || a.AddDependency? || a.RemoveDependency? || a.NewResource? || a.SetCap?
          || a.Dequeue? || a.DequeueAll? || a.Suspend? || a.Resume? || a.ShutDown?
    ensures ResourcesOk(Next(prio, s, a))
  {
    hide HeldJobs, HeldOk, ListsOk, ResourcesOk;
    HeldAreJobs(s);
    ResourcesKeptElsewhere(s, Next(prio, s, a));
  }

  lemma ResourcesKeptLift(prio: nat -> int, s: State, a: Act)
    requires Known(s) && HeldOk(s) && ListsOk(s) && ResourcesOk(s) && Enabled(s, a) && a.LiftBlocker?
    ensures ResourcesOk(Next(prio, s, a))
  {
    ListIsNoDup(s, a.j);
    hide HeldJobs, HeldOk, ListsOk, ResourcesOk;
    HeldAreJobs(s);
    Lifted(s.jobs[a.j].list, Blocker(a.owner));
    ResourcesKeptElsewhere(s, Next(prio, s, a));
  }

  lemma ResourcesKept(prio: nat -> int, s: State, a: Act)
    requires Known(s) && Inv(prio, s) && Enabled(s, a)
    ensures ResourcesOk(Next(prio, s, a))
  {
    hide Spawn, TakeFirst, Enqueue, HeldJobs, ResourcesOk, HeldOk, QueueOk, DepsOk, ActiveOk, ListsOk, ThreadsOk;
    var n := Next(prio, s, a);
    match a
    case Enter(th) => ResourcesKeptTake(prio, s, th);
    case FreePolicies(th) =>
      var j := s.phase[th].job;
      MoveIsHeld(s, th, Applying(true));
      ListIsNoDup(s, j);
      FreeAllExactly(s.w.policies, s.jobs[j].list, j, s.jobs[j].status == Success);
      FreedCustomers(s, n, j, s.jobs[j].status == Success);
    case EnqueueJobs(js) =>
      Numbered(s);
      HeldAreJobs(s);
      EnqueueGrows(s.w, prio, |js|, js);
      SpawnedIsHeld(s, n);
      ResourcesKeptElsewhere(s, n);
    case SetMaximumThreads(max) =>
      HeldAreJobs(s);
      SpawnedIsHeld(s, n);
      ResourcesKeptElsewhere(s, n);
    case Dispatch(th) => ResourcesKeptMove(s, n, th);
    case Wait(th) => ResourcesKeptMove(s, n, th);
    case SkipWait(th) => ResourcesKeptMove(s, n, th);
    case Wake(th) => ResourcesKeptMove(s, n, th);
    case EndRun(th, _) => ResourcesKeptMove(s, n, th);
    case LiftBlocker(_, j, owner) => ResourcesKeptLift(prio, s, a);
    case _ => ResourcesKeptEnvironment(prio, s, a);
  }

  lemma ListIsNoDup(s: State, j: nat)
    requires ListsOk(s) && j in s.jobs
    ensures NoDup(s.jobs[j].list)
  {
  }

  // ---- Dependencies ----

  /** The map is untouched, no dependent of it starts, no success is undone, no list loses the
      policy. */
  lemma DepsKeptElsewhere(s: State, n: State)
    requires DepsOk(s) && n.w.policies.deps == s.w.policies.deps && n.wants == s.wants
    requires forall j :: j in s.jobs ==>
      && j in n.jobs
      && (Dependencies in s.jobs[j].list ==> Dependencies in n.jobs[j].list)
      && (s.jobs[j].status == Success ==> n.jobs[j].status == Success)
    requires forall p :: p in s.w.policies.deps && p.0 in n.jobs ==> !HasStarted(n.jobs[p.0].status)
    ensures DepsOk(n)
  {
  }

  lemma DepsKeptTake(prio: nat -> int, s: State, th: nat)
    requires ThreadsOk(s) && QueueOk(prio, s) && HeldOk(s) && ListsOk(s) && ResourcesOk(s) && DepsOk(s)
    requires Known(s) && Enabled(s, Enter(th))
    ensures DepsOk(Next(prio, s, Enter(th)))
  {
    hide Spawn, TakeFirst, ThreadsOk, Sorted, HeldOk, ResourcesOk, ListsOk;
    Numbered(s);
    TakeEffect(prio, s, th);
    var p := s.phase[th];
    var (t, v) := TakeFirst(s.w, Lists(s.jobs), th, p.busy, p.stopping, p.stopping);
    var n := Next(prio, s, Enter(th));
    if t.Assigned? {
      WillingHasNoDeps(s, t.job);
    }
    DepsKeptElsewhere(s, n);
  }

  /** A job whose policies are all willing has no unresolved dependency. */
  lemma WillingHasNoDeps(s: State, j: nat)
    requires DepsOk(s) && j in s.jobs && AllWilling(s.w.policies, s.jobs[j].list, j)
    ensures forall p :: p in s.w.policies.deps ==> p.0 != j
  {
  }

  lemma DepsKeptFree(prio: nat -> int, s: State, th: nat)
    requires HeldOk(s) && ListsOk(s) && DepsOk(s)
    requires Known(s) && Enabled(s, FreePolicies(th))
    ensures DepsOk(Next(prio, s, FreePolicies(th)))
  {
    var j := s.phase[th].job;
    FreeAllExactly(s.w.policies, s.jobs[j].list, j, s.jobs[j].status == Success);
    var n := Next(prio, s, FreePolicies(th));
    assert forall p :: p in n.w.policies.deps ==> p in s.w.policies.deps;
    forall p | p in s.wants && p in s.w.policies.deps && p !in n.w.policies.deps ensures s.jobs[p.1].status == Success {
      var i :| 0 <= i < |s.w.policies.deps| && s.w.policies.deps[i] == p;
    }
  }

  lemma DepsKeptEdit(prio: nat -> int, s: State, a: Act)
    requires DepsOk(s) && Known(s) && Enabled(s, a) && (a.AddDependency? || a.RemoveDependency?)
    ensures DepsOk(Next(prio, s, a))
  {
    var n := Next(prio, s, a);
    if a.RemoveDependency? {
      forall p | p in n.w.policies.deps ensures p in s.w.policies.deps {
        RemoveFirstSubset(s.w.policies.deps, (a.a, a.b), p);
      }
      forall p | p in s.w.policies.deps && p != (a.a, a.b) ensures p in n.w.policies.deps {
        RemoveFirstOthers(s.w.policies.deps, (a.a, a.b), p);
      }
    }
  }

  lemma DepsKept(prio: nat -> int, s: State, a: Act)
    requires Known(s) && Inv(prio, s) && Enabled(s, a)
    ensures DepsOk(Next(prio, s, a))
  {
    hide Next, Enabled, HeldOk, ResourcesOk, ActiveOk, ListsOk, ThreadsOk, QueueOk, DepsOk, BoundsOk;
    if a.Enter? {
      DepsKeptTake(prio, s, a.th);
    } else if a.FreePolicies? {
      DepsKeptFree(prio, s, a.th);
    } else if a.AddDependency? || a.RemoveDependency? {
      DepsKeptEdit(prio, s, a);
    } else if IsMove(a) {
      MoveEffect(prio, s, a);
      DepsKeptMove(s, Next(prio, s, a), a);
    } else if IsSpawn(a) {
      DepsKeptSpawn(prio, s, a);
    } else {
      DepsKeptOutside(prio, s, a);
    }
  }

  lemma DepsKeptMove(s: State, n: State, a: Act)
    requires HeldOk(s) && DepsOk(s) && IsMove(a) && !a.FreePolicies? && MoveTouches(s, n, a)
    ensures DepsOk(n)
  {
  }

  lemma DepsKeptSpawn(prio: nat -> int, s: State, a: Act)
    requires Known(s) && ThreadsOk(s) && DepsOk(s) && Enabled(s, a) && IsSpawn(a)
    ensures DepsOk(Next(prio, s, a))
  {
    hide Spawn, Enqueue, ThreadsOk;
    if a.EnqueueJobs? {
      Numbered(s);
      EnqueueGrows(s.w, prio, |a.js|, a.js);
    }
    DepsKeptElsewhere(s, Next(prio, s, a));
  }

  lemma DepsKeptOutside(prio: nat -> int, s: State, a: Act)
    requires Known(s) && QueueOk(prio, s) && ListsOk(s) && DepsOk(s) && Enabled(s, a)
    requires IsOutside(a) && !a.AddDependency? && !a.RemoveDependency?
    ensures DepsOk(Next(prio, s, a))
  {
    if a.LiftBlocker? { Lifted(s.jobs[a.j].list, Blocker(a.owner)); }
    hide Sorted, ListsOk, NoDup, RemoveFirst;
    DepsKeptElsewhere(s, Next(prio, s, a));
  }

  // ---- Bounds of the inventory ----

  lemma BoundsKept(prio: nat -> int, s: State, a: Act)
    requires Known(s) && ThreadsOk(s) && BoundsOk(s) && Enabled(s, a)
    ensures BoundsOk(Next(prio, s, a))
  {
    hide Next, Enabled, ThreadsOk;
    if a.Enter? {
      BoundsKeptTake(prio, s, a.th);
    } else if IsMove(a) {
      MoveEffect(prio, s, a);
    } else if IsSpawn(a) {
      BoundsKeptSpawn(prio, s, a);
    } else {
      OutsideEffect(prio, s, a);
    }
  }

  lemma BoundsKeptTake(prio: nat -> int, s: State, th: nat)
    requires Known(s) && ThreadsOk(s) && BoundsOk(s) && Enabled(s, Enter(th))
    ensures BoundsOk(Next(prio, s, Enter(th)))
  {
    hide Spawn, TakeFirst, ThreadsOk, Settled;
    Numbered(s);
    var p := s.phase[th];
    TakeHasShape(s.w, Lists(s.jobs), th, p.busy, p.stopping);
    SettledGrows(s.w, p.busy);
  }

  lemma BoundsKeptSpawn(prio: nat -> int, s: State, a: Act)
    requires Known(s) && ThreadsOk(s) && BoundsOk(s) && Enabled(s, a) && IsSpawn(a)
    ensures BoundsOk(Next(prio, s, a))
  {
    hide Spawn, Enqueue, AdjustInventory, ThreadsOk, Grown, NoDup, InsertAll;
    Numbered(s);
    var n := Next(prio, s, a);
    if a.EnqueueJobs? {
      EnqueueGrows(s.w, prio, |a.js|, a.js);
      if s.w.inventory != [] { GrownHasAsMany(s.w, n.w); }
      assert a.js != [] ==> |a.js| >= 1;
    } else {
      var m := s.w.(inventoryMax := a.max, sleeping := {});
      AdjustedInventory(m, 1);
      AdjustedKeeps(m);
    }
  }

  lemma GrownHasAsMany(w: Weaver<nat, nat>, v: Weaver<nat, nat>)
    requires Grown(w, v) && w.inventory != []
    ensures v.inventory != []
  {
    assert w.inventory[0] in v.inventory;
  }

  lemma AdjustedKeeps(w: Weaver<nat, nat>)
    ensures var v := AdjustInventory(w, 1); v.assignments == w.assignments && v.inventoryMax == w.inventoryMax
    ensures w.inventory != [] ==> AdjustInventory(w, 1).inventory != []
  {
  }

  // ---- What the critical section moves ----

  ghost predicate TookNothing(s: State, n: State) {
    && n.w.assignments == s.w.assignments && n.jobs == s.jobs && n.log == s.log
    && HeldJobs(n.phase) == HeldJobs(s.phase) && n.w.policies == s.w.policies
  }

  /** The queue's entry i has moved into the hands of th. */
  ghost predicate TookEntry(s: State, n: State, th: nat, i: nat) {
    && i < |s.w.assignments| && n.w.assignments == RemoveAt(s.w.assignments, i)
    && var j := s.w.assignments[i];
    && j in s.jobs && n.jobs == SetJob(s, j, Running) && n.log == s.log + [j]
    && th in n.phase && n.phase[th] == Working(j) && HeldJobs(n.phase) == HeldJobs(s.phase) + {j}
    && AllWilling(s.w.policies, s.jobs[j].list, j) && n.w.policies == Entered(s.w.policies, s.jobs[j].list, j)
  }

  /** A pass through the critical section takes nothing, or one entry of the queue. */
  lemma TakeMoves(prio: nat -> int, s: State, th: nat) returns (i: nat)
    requires Inv(prio, s) && Known(s) && Enabled(s, Enter(th))
    ensures var n := Next(prio, s, Enter(th));
      th in n.phase && if n.phase[th].Working? then TookEntry(s, n, th, i) else TookNothing(s, n)
  {
    hide Spawn, TakeFirst, ActiveOk, ListsOk, ResourcesOk, DepsOk, BoundsOk, Settled, HeldJobs, Entered;
    hide RemoveAt, Sorted, ThreadsOk, HeldOk, AllWilling;
    var p := s.phase[th];
    Numbered(s);
    SettledGrows(s.w, p.busy);
    TakeHasShape(s.w, Lists(s.jobs), th, p.busy, p.stopping);
    TakeEffect(prio, s, th);
    HeldAfterTake(prio, s, th);
    i := 0;
    var (t, v) := TakeFirst(s.w, Lists(s.jobs), th, p.busy, p.stopping, p.stopping);
    if t.Assigned? {
      i :| 0 <= i < |s.w.assignments| && s.w.assignments[i] == t.job && v.assignments == RemoveAt(s.w.assignments, i);
    }
  }

  // ---- Everything ----

  lemma StepKeeps(prio: nat -> int, s: State, a: Act)
    requires Inv(prio, s) && Known(s) && Enabled(s, a)
    ensures Inv(prio, Next(prio, s, a)) && Known(Next(prio, s, a))
  {
    hide ThreadsOk, ActiveOk, HeldOk, ListsOk, ResourcesOk, DepsOk, BoundsOk, Next, Enabled;
    ThreadsKept(prio, s, a);
    ActiveKept(prio, s, a);
    QueueKept(prio, s, a);
    HeldKept(prio, s, a);
    ListsKept(prio, s, a);
    ResourcesKept(prio, s, a);
    DepsKept(prio, s, a);
    BoundsKept(prio, s, a);
  }

  lemma InitiallyGood(prio: nat -> int, s: State)
    requires Initial(s)
    ensures Inv(prio, s) && Known(s)
  {
  }

  ghost predicate Possible(prio: nat -> int, s: State, acts: seq<Act>)
    decreases |acts|
  {
    acts == [] || (Known(s) && Enabled(s, acts[0]) && Possible(prio, Next(prio, s, acts[0]), acts[1..]))
  }

  ghost function Reach(prio: nat -> int, s: State, acts: seq<Act>): State
    requires Possible(prio, s, acts)
    decreases |acts|
  {
    if acts == [] then s else Reach(prio, Next(prio, s, acts[0]), acts[1..])
  }

  lemma {:induction false} RunKeeps(prio: nat -> int, s: State, acts: seq<Act>)
    requires Inv(prio, s) && Known(s) && Possible(prio, s, acts)
    ensures Inv(prio, Reach(prio, s, acts)) && Known(Reach(prio, s, acts))
    decreases |acts|
  {
    hide Inv, Next, Enabled;
    if acts != [] {
      StepKeeps(prio, s, acts[0]);
      RunKeeps(prio, Next(prio, s, acts[0]), acts[1..]);
    }
  }
}
