/** Whether the Weaver works or suspends, the threads, left to themselves, come to rest after a bounded
    number of steps. */
module SchedulerRest {
  import opened JobStatus
  import opened Sequences
  import opened QueuePolicies
  import opened WeaverSpec
  import opened Scheduler
  import opened SchedulerInvariant

  predicate OfThread(a: Act) {
    a.Dispatch? || a.Enter? || a.Wait? || a.SkipWait? || a.Wake? || a.EndRun? || a.FreePolicies?
  }

  /** How many steps a thread may still take by itself before it sleeps or takes the next job. A thread
      that entered the critical section from the working state is sent back where the Weaver no longer
      works. */
  function ThreadWork(p: Phase, asleep: bool, works: bool): nat {
    match p
    case Applying(_) => 3
    case Entering(_, stopping) => if works || stopping then 2 else 4
    case WantsWait => 1
    case Parked => if asleep then 0 else 4
    case Working(_) => 5
    case Freeing(_) => 4
    case Gone => 0
  }

  ghost function WorkUpTo(phase: map<nat, Phase>, sleeping: set<nat>, works: bool, n: nat): nat
    requires forall t :: 1 <= t <= n ==> t in phase
  {
    if n == 0 then 0
    else WorkUpTo(phase, sleeping, works, n - 1) + ThreadWork(phase[n], n in sleeping, works)
  }

  ghost function Missing(w: Weaver<nat, nat>): nat {
    if |w.inventory| < w.inventoryMax then w.inventoryMax - |w.inventory| else 0
  }

  /** Five steps for every queued job, four for every thread that may still be created, and those
      of the existing threads. */
  ghost function Work(s: State): nat
    requires ThreadsOk(s)
  {
    5 * |s.w.assignments| + 4 * Missing(s.w)
    + WorkUpTo(s.phase, s.w.sleeping, s.w.state == WorkingHard, s.w.created)
  }

  lemma {:induction false} WorkSame(phase: map<nat, Phase>, sleeping: set<nat>, other: map<nat, Phase>,
      others: set<nat>, works: bool, n: nat)
    requires forall t :: 1 <= t <= n ==> t in phase && t in other
    requires forall t :: 1 <= t <= n ==> phase[t] == other[t] && (t in sleeping <==> t in others)
    ensures WorkUpTo(phase, sleeping, works, n) == WorkUpTo(other, others, works, n)
  {
    if n > 0 { WorkSame(phase, sleeping, other, others, works, n - 1); }
  }

  lemma {:induction false} WorkUpdate(phase: map<nat, Phase>, sleeping: set<nat>, th: nat, p: Phase,
      others: set<nat>, works: bool, n: nat)
    requires (forall t :: 1 <= t <= n ==> t in phase) && 1 <= th <= n
    requires forall t :: t != th ==> (t in sleeping <==> t in others)
    ensures WorkUpTo(phase[th := p], others, works, n) + ThreadWork(phase[th], th in sleeping, works)
         == WorkUpTo(phase, sleeping, works, n) + ThreadWork(p, th in others, works)
  {
    if n == th {
      WorkSame(phase, sleeping, phase[th := p], others, works, n - 1);
    } else {
      WorkUpdate(phase, sleeping, th, p, others, works, n - 1);
    }
  }

  /** The threads that the critical section creates. */
  lemma WorkOfSettled(s: State, busy: bool)
    requires ThreadsOk(s)
    ensures var m := Middle(s, busy);
      ThreadsOk(m) && Work(m) <= Work(s)
  {
    hide Settled, Spawn, ThreadsOk;
    ThreadsInTheMiddle(s, busy);
    var m := Middle(s, busy);
    SettledCounts(s.w, busy);
    Phases(s);
    Phases(m);
    SpawnedWork(s, m.phase, m.w.created);
  }

  lemma Phases(s: State)
    requires ThreadsOk(s)
    ensures forall t :: t in s.phase <==> 1 <= t <= s.w.created
  {
  }

  lemma SettledCounts(w: Weaver<nat, nat>, busy: bool)
    ensures var m := Settled(w, busy);
      && 4 * Missing(m) + 3 * (m.created - w.created) <= 4 * Missing(w)
      && w.created <= m.created <= w.created + 1
      && m.sleeping == w.sleeping && m.assignments == w.assignments && m.state == w.state
  {
  }

  lemma SpawnedWork(s: State, phase: map<nat, Phase>, after: nat)
    requires (forall t :: t in s.phase <==> 1 <= t <= s.w.created) && s.w.created <= after <= s.w.created + 1
    requires phase == Spawn(s.phase, s.w.created, after)
    ensures forall t :: 1 <= t <= after ==> t in phase
    ensures var works := s.w.state == WorkingHard;
      WorkUpTo(phase, s.w.sleeping, works, after)
      <= WorkUpTo(s.phase, s.w.sleeping, works, s.w.created) + 3 * (after - s.w.created)
  {
    SpawnChangesNothing(s.phase, s.w.created, after);
    hide Spawn;
    WorkSame(s.phase, s.w.sleeping, phase, s.w.sleeping, s.w.state == WorkingHard, s.w.created);
    if after > s.w.created { assert phase[after] == Applying(false); }
  }

  /** The last part of the critical section uses up a queued job, or a step of the thread. */
  lemma WorkOfOutcome(m: State, n: State, th: nat, t: Taken<nat>, stopping: bool)
    requires ThreadsOk(m) && ThreadsOk(n) && th in m.phase && m.phase[th].Entering? && th in n.phase
    requires m.phase[th].stopping == stopping && m.w.state != ShuttingDown && TakeShape(m.w, th, stopping, t, n.w)
    requires n.phase == m.phase[th := n.phase[th]]
    requires match t
      case Assigned(j) => n.phase[th] == Working(j)
      case Expired => n.phase[th] == Gone
      case Slept => n.phase[th] == Parked
      case Returned => n.phase[th] == if stopping then WantsWait else Applying(false)
    ensures Work(n) < Work(m)
  {
    hide ThreadsOk, WorkUpTo, RemoveAt;
    Phases(m);
    WorkUpdate(m.phase, m.w.sleeping, th, n.phase[th], n.w.sleeping, m.w.state == WorkingHard, m.w.created);
    if t.Assigned? {
      var i :| 0 <= i < |m.w.assignments| && m.w.assignments[i] == t.job
               && n.w.assignments == RemoveAt(m.w.assignments, i);
      RemovedOne(m.w.assignments, i);
    } else if t.Expired? {
      ExpiredOne(m.w.inventory, th, m.w.inventoryMax);
    }
  }

  lemma ExpiredOne(q: seq<nat>, th: nat, max: int)
    requires |q| > max
    ensures |RemoveFirst(q, th)| >= max
  {
  }

  lemma WorkOfTake(prio: nat -> int, s: State, th: nat)
    requires Inv(prio, s) && Known(s) && s.w.state != ShuttingDown
    requires Enabled(s, Enter(th)) && Inv(prio, Next(prio, s, Enter(th)))
    ensures Work(Next(prio, s, Enter(th))) < Work(s)
  {
    hide Spawn, TakeFirst, Settled, ThreadsOk, ActiveOk, QueueOk, HeldOk, ListsOk, ResourcesOk, DepsOk;
    hide BoundsOk, RemoveAt, WorkUpTo, Work;
    var p := s.phase[th];
    var n := Next(prio, s, Enter(th));
    Numbered(s);
    SettledGrows(s.w, p.busy);
    TakeHasShape(s.w, Lists(s.jobs), th, p.busy, p.stopping);
    WorkOfSettled(s, p.busy);
    var m := Middle(s, p.busy);
    ThreadsInTheMiddle(s, p.busy);
    assert n.phase == m.phase[th := n.phase[th]];
    var (t, v) := TakeFirst(s.w, Lists(s.jobs), th, p.busy, p.stopping, p.stopping);
    WorkOfOutcome(m, n, th, t, p.stopping);
  }

  lemma RemovedOne(q: seq<nat>, i: nat)
    requires i < |q|
    ensures |RemoveAt(q, i)| == |q| - 1
  {
  }

  /** As long as it is not shutting down, every step of a thread uses up work. */
  lemma WorkShrinks(prio: nat -> int, s: State, a: Act)
    requires Inv(prio, s) && Known(s) && s.w.state != ShuttingDown && Enabled(s, a) && OfThread(a)
    requires Inv(prio, Next(prio, s, a))
    ensures Work(Next(prio, s, a)) < Work(s)
  {
    hide Spawn, TakeFirst, FreeAll, ActiveOk, QueueOk, HeldOk, ListsOk, ResourcesOk, DepsOk, BoundsOk;
    hide WorkUpTo;
    if a.Enter? {
      WorkOfTake(prio, s, a.th);
    } else {
      var n := Next(prio, s, a);
      WorkUpdate(s.phase, s.w.sleeping, a.th, n.phase[a.th], n.w.sleeping, s.w.state == WorkingHard, s.w.created);
    }
  }

  /** Threads change the state only to complete a suspend. */
  lemma KeepsWorking(prio: nat -> int, s: State, a: Act)
    requires Known(s) && Enabled(s, a) && OfThread(a)
    ensures var n := Next(prio, s, a).w.state; n == s.w.state || (s.w.state == Suspending && n == Suspended)
  {
    hide Scan, Spawn, FreeAll;
  }

  /** Left to themselves, the threads take at most Work(s) steps. */
  lemma {:induction false} ThreadsComeToRest(prio: nat -> int, s: State, acts: seq<Act>)
    requires Inv(prio, s) && Known(s) && s.w.state != ShuttingDown && Possible(prio, s, acts)
    requires forall a :: a in acts ==> OfThread(a)
    ensures |acts| <= Work(s)
    ensures var n := Reach(prio, s, acts).w.state; n == s.w.state || (s.w.state == Suspending && n == Suspended)
    decreases |acts|
  {
    hide Next, Enabled, Work, ActiveOk, QueueOk, HeldOk, ListsOk, ResourcesOk, DepsOk, BoundsOk, ThreadsOk;
    if acts != [] {
      var n := Next(prio, s, acts[0]);
      assert acts[0] in acts;
      StepKeeps(prio, s, acts[0]);
      KeepsWorking(prio, s, acts[0]);
      WorkShrinks(prio, s, acts[0]);
      ThreadsComeToRest(prio, n, acts[1..]);
    }
  }

  /** A thread that does not sleep has a step to take. */
  lemma AwakeCanStep(prio: nat -> int, s: State, th: nat)
    requires Inv(prio, s) && s.w.state != ShuttingDown && th in s.w.inventory && th !in s.w.sleeping
    ensures exists a :: OfThread(a) && Enabled(s, a)
  {
    hide ActiveOk, QueueOk, ListsOk, ResourcesOk, DepsOk, BoundsOk;
    match s.phase[th]
    case Applying(_) => assert OfThread(Dispatch(th)) && Enabled(s, Dispatch(th));
    case Entering(_, _) => assert OfThread(Enter(th)) && Enabled(s, Enter(th));
    case WantsWait => assert OfThread(Wait(th)) && Enabled(s, Wait(th));
    case Parked => assert OfThread(Wake(th)) && Enabled(s, Wake(th));
    case Working(_) => assert OfThread(EndRun(th, Success)) && Enabled(s, EndRun(th, Success));
    case Freeing(_) => assert OfThread(FreePolicies(th)) && Enabled(s, FreePolicies(th));
  }
}
