/** The scheduler as a machine: worker threads, the Weaver's data, the policies and plain jobs.
    Every action is one critical section, or one step of a thread outside them; the environment
    creates, enqueues and dequeues jobs, changes caps, suspends and resumes at any time. */
module Scheduler {
  import opened JobStatus
  import opened Sequences
  import opened QueuePolicies
  import opened WeaverSpec
  import D = DependencyMap

  /** Where a worker thread is. `busy` is its wasBusy flag; `stopping` is set when it was sent into
      the critical section by the Suspending state. A Parked thread is inside wait(); it sleeps
      while it is in the Weaver's `sleeping` set. A Freeing thread holds a job whose run is over and
      whose policies are not yet freed. */
  datatype Phase =
    | Applying(busy: bool)
    | Entering(busy: bool, stopping: bool)
    | WantsWait
    | Parked
    | Working(job: nat)
    | Freeing(job: nat)
    | Gone

  datatype Job = Job(status: Status, list: seq<Policy<nat>>)

  /** `log` lists the jobs in the order they were taken. `wants` holds the dependencies that were
      added before their dependent was enqueued and never removed. */
  datatype State = State(
    w: Weaver<nat, nat>,
    phase: map<nat, Phase>,
    jobs: map<nat, Job>,
    log: seq<nat>,
    wants: set<(nat, nat)>)

  /** A thread that has not yet come back from its job may lift the blocker of a Sequence from another
      job, in the handler that follows the end of an element. */
  datatype Act =
    | Dispatch(th: nat)
    | Enter(th: nat)
    | Wait(th: nat)
    | SkipWait(th: nat)
    | Wake(th: nat)
    | EndRun(th: nat, outcome: Status)
    | FreePolicies(th: nat)
    | LiftBlocker(th: nat, j: nat, owner: nat)
    | NewJob(j: nat)
    | ChangePolicies(j: nat, list: seq<Policy<nat>>)
    | AddDependency(a: nat, b: nat)
    | RemoveDependency(a: nat, b: nat)
    | NewResource(r: nat, cap: int)
    | SetCap(r: nat, cap: int)
    | EnqueueJobs(js: seq<nat>)
    | Dequeue(j: nat)
    | DequeueAll
    | SetMaximumThreads(max: nat)
    | Suspend
    | Resume
    | ShutDown

  predicate Holds(p: Phase) {
    p.Working? || p.Freeing?
  }

  predicate IsBusy(p: Phase) {
    Holds(p) || (p.Applying? && p.busy) || (p.Entering? && p.busy)
  }

  function Lists(jobs: map<nat, Job>): map<nat, seq<Policy<nat>>> {
    map j | j in jobs :: jobs[j].list
  }

  /** The queue holds only jobs that exist. */
  predicate Known(s: State) {
    forall i :: 0 <= i < |s.w.assignments| ==> s.w.assignments[i] in s.jobs
  }

  ghost predicate Enabled(s: State, a: Act) {
    match a
    case Dispatch(th) => th in s.phase && s.phase[th].Applying?
    case Enter(th) => th in s.phase && s.phase[th].Entering?
    case Wait(th) => th in s.phase && s.phase[th].WantsWait?
    case SkipWait(th) => th in s.phase && s.phase[th].WantsWait? && s.w.state == ShuttingDown
    case Wake(th) => th in s.phase && s.phase[th].Parked? && th !in s.w.sleeping
    case EndRun(th, outcome) => th in s.phase && s.phase[th].Working? && outcome.Finished()
    case FreePolicies(th) => th in s.phase && s.phase[th].Freeing? && s.phase[th].job in s.jobs
    case LiftBlocker(th, j, _) => th in s.phase && IsBusy(s.phase[th]) && !s.phase[th].Entering? && j in s.jobs
    case NewJob(j) => j !in s.jobs
    case ChangePolicies(j, list) =>
      && j in s.jobs && s.jobs[j].status == New
      && NoDup(list) && (Dependencies in list <==> Dependencies in s.jobs[j].list)
      && (forall p :: p in list && p.Restriction? ==> p.r in s.w.policies.resources)
    case AddDependency(a, b) => a != b && a in s.jobs && b in s.jobs && s.jobs[a].status == New
    case RemoveDependency(a, b) => true
    case NewResource(r, cap) => r !in s.w.policies.resources
    case SetCap(r, cap) => r in s.w.policies.resources
    case EnqueueJobs(js) => NoDup(js) && forall j :: j in js ==> j in s.jobs && s.jobs[j].status == New
    case Dequeue(j) => j in s.w.assignments
    case DequeueAll => true
    case SetMaximumThreads(max) => true
    case Suspend => s.w.state == WorkingHard
    case Resume => s.w.state == Suspending || s.w.state == Suspended
    case ShutDown => s.w.state != ShuttingDown && s.w.assignments == [] && s.w.active == 0
  }

  predicate Later(before: nat, t: nat) {
    before < t
  }

  /** New threads start by applying for work. */
  function Spawn(phase: map<nat, Phase>, before: nat, after: nat): map<nat, Phase> {
    phase + map t: nat | t <= after && Later(before, t) :: Applying(false)
  }

  function WithPolicy(l: seq<Policy<nat>>, p: Policy<nat>): seq<Policy<nat>> {
    if p in l then l else l + [p]
  }

  function SetJob(s: State, j: nat, st: Status): map<nat, Job>
    requires j in s.jobs
  {
    s.jobs[j := s.jobs[j].(status := st)]
  }

  function SetAll(jobs: map<nat, Job>, js: seq<nat>, st: Status): map<nat, Job> {
    map j | j in jobs :: if j in js then jobs[j].(status := st) else jobs[j]
  }

  /** What the critical section of a thread leaves behind. */
  function AfterTake(s: State, th: nat, t: Taken<nat>, w: Weaver<nat, nat>, stopping: bool): State {
    var phase := Spawn(s.phase, s.w.created, w.created);
    match t
    case Assigned(j) =>
      State(w, phase[th := Working(j)], if j in s.jobs then SetJob(s, j, Running) else s.jobs, s.log + [j], s.wants)
    case Returned => s.(w := w, phase := phase[th := if stopping then WantsWait else Applying(false)])
    case Expired => s.(w := w, phase := phase[th := Gone])
    case Slept => s.(w := w, phase := phase[th := Parked])
  }

  ghost function Next(prio: nat -> int, s: State, a: Act): State
    requires Known(s) && Enabled(s, a)
  {
    var w := s.w;
    match a
    case Dispatch(th) =>
      var busy := s.phase[th].busy;
      s.(phase := s.phase[th :=
        match w.state
        case WorkingHard => Entering(busy, false)
        case Suspending => Entering(busy, true)
        case Suspended => WantsWait
        case ShuttingDown => Gone])
    case Enter(th) =>
      var p := s.phase[th];
      var (t, v) := TakeFirst(w, Lists(s.jobs), th, p.busy, p.stopping, p.stopping);
      AfterTake(s, th, t, v, p.stopping)
    case Wait(th) => s.(phase := s.phase[th := Parked], w := w.(sleeping := w.sleeping + {th}))
    case SkipWait(th) => s.(phase := s.phase[th := Applying(false)])
    case Wake(th) => s.(phase := s.phase[th := Applying(false)])
    case EndRun(th, outcome) =>
      var j := s.phase[th].job;
      s.(phase := s.phase[th := Freeing(j)], jobs := if j in s.jobs then SetJob(s, j, outcome) else s.jobs)
    case FreePolicies(th) =>
      var j := s.phase[th].job;
      s.(phase := s.phase[th := Applying(true)],
         w := w.(policies := FreeAll(w.policies, s.jobs[j].list, j, s.jobs[j].status == Success)))
    case LiftBlocker(_, j, owner) =>
      s.(jobs := s.jobs[j := s.jobs[j].(list := RemoveFirst(s.jobs[j].list, Blocker(owner)))])
    case NewJob(j) => s.(jobs := s.jobs[j := Job(New, [])])
    case ChangePolicies(j, list) => s.(jobs := s.jobs[j := s.jobs[j].(list := list)])
    case AddDependency(a, b) =>
      var jobs := s.jobs[a := s.jobs[a].(list := WithPolicy(s.jobs[a].list, Dependencies))];
      s.(jobs := jobs[b := jobs[b].(list := WithPolicy(jobs[b].list, Dependencies))],
         w := w.(policies := w.policies.(deps := [(a, b)] + w.policies.deps)),
         wants := s.wants + {(a, b)})
    case RemoveDependency(a, b) =>
      s.(w := w.(policies := w.policies.(deps := D.RemoveOne(w.policies.deps, a, b).1)), wants := s.wants - {(a, b)})
    case NewResource(r, cap) =>
      s.(w := w.(policies := w.policies.(resources := w.policies.resources[r := Resource(cap, [])])))
    case SetCap(r, cap) =>
      s.(w := w.(policies := w.policies.(resources := w.policies.resources[r := w.policies.resources[r].(cap := cap)])))
    case EnqueueJobs(js) =>
      var v := Enqueue(w, prio, |js|, js);
      s.(w := v, phase := Spawn(s.phase, w.created, v.created), jobs := SetAll(s.jobs, js, Queued))
    case Dequeue(j) =>
      s.(w := w.(assignments := RemoveFirst(w.assignments, j)),
         jobs := if j in s.jobs then SetJob(s, j, New) else s.jobs)
    case DequeueAll => s.(w := w.(assignments := []))
    case SetMaximumThreads(max) =>
      var v := SetMaximum(w, max);
      s.(w := v, phase := Spawn(s.phase, w.created, v.created))
    case Suspend => s.(w := SetState(w, Suspending))
    case Resume => s.(w := SetState(w, WorkingHard))
    case ShutDown => s.(w := w.(state := ShuttingDown, sleeping := {}))
  }

  ghost predicate Initial(s: State) {
    && s.w.state == WorkingHard && s.w.assignments == [] && s.w.inventory == [] && s.w.expired == []
    && s.w.active == 0 && s.w.inventoryMax >= 4 && s.w.created == 0 && s.w.sleeping == {}
    && s.w.policies == Policies([], map[])
    && s.phase == map[] && s.jobs == map[] && s.log == [] && s.wants == {}
  }
}
