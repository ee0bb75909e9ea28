/** What the critical sections of the Weaver do, as functions on its data. The job type J and the
    resource type R are left open: the Weaver class uses objects, the scheduler machine numbers. */
module WeaverSpec {
  import opened Sequences
  import opened QueuePolicies

  datatype StateId = WorkingHard | Suspending | Suspended | ShuttingDown

  /** Threads are numbered in the order of their creation, from 1. `sleeping` are those that wait
      on jobAvailable. */
  datatype Weaver<J, R> = Weaver(
    state: StateId,
    assignments: seq<J>,
    inventory: seq<nat>,
    expired: seq<nat>,
    active: int,
    inventoryMax: int,
    created: nat,
    sleeping: set<nat>,
    policies: Policies<J, R>)

  // ---- Queue order ----

  /** The loop of enqueue_p: step over everything with a lower priority, from position i down. */
  function InsertPosition<J>(prio: J -> int, q: seq<J>, j: J, i: nat): (k: nat)
    requires i <= |q|
    ensures k <= i
    ensures forall m :: k <= m < i ==> prio(q[m]) < prio(j)
    ensures k > 0 ==> prio(q[k - 1]) >= prio(j)
  {
    if i > 0 && prio(q[i - 1]) < prio(j) then InsertPosition(prio, q, j, i - 1) else i
  }

  function Insert<J>(prio: J -> int, q: seq<J>, j: J): seq<J> {
    var k := InsertPosition(prio, q, j, |q|);
    q[..k] + [j] + q[k..]
  }

  function RemoveAt<J>(q: seq<J>, i: nat): seq<J>
    requires i < |q|
  {
    q[..i] + q[i + 1..]
  }

  // ---- Threads ----

  function NewThreads(created: nat, n: nat): (r: seq<nat>)
    ensures |r| == n && NoDup(r)
    ensures forall t :: t in r <==> created < t <= created + n
  {
    if n == 0 then [] else
    var r := NewThreads(created, n - 1);
    NoDupAppend(r, created + n);
    r + [created + n]
  }

  /** How many threads adjustInventory creates. */
  function Shortfall(max: int, present: nat, wanted: int): nat {
    var reserve := max - present;
    if reserve <= 0 || wanted <= 0 then 0 else if reserve < wanted then reserve else wanted
  }

  function AdjustInventory<J, R>(w: Weaver<J, R>, wanted: int): Weaver<J, R> {
    var n := Shortfall(w.inventoryMax, |w.inventory|, wanted);
    w.(inventory := w.inventory + NewThreads(w.created, n), created := w.created + n)
  }

  function SetMaximum<J, R>(w: Weaver<J, R>, cap: int): Weaver<J, R> {
    var m := w.(inventoryMax := cap, sleeping := {});
    if w.inventoryMax == 0 && cap > 0 then AdjustInventory(m, 1) else m
  }

  // ---- States ----

  /** Entering WorkingHard or Suspending wakes all threads. */
  function SetState<J, R>(w: Weaver<J, R>, id: StateId): Weaver<J, R> {
    var wakes := w.state != id && (id == WorkingHard || id == Suspending);
    w.(state := id, sleeping := if wakes then {} else w.sleeping)
  }

  // ---- Enqueue and dequeue ----

  function EnqueueOne<J, R>(w: Weaver<J, R>, prio: J -> int, batch: int, j: J): Weaver<J, R> {
    var m := AdjustInventory(w, batch);
    m.(assignments := Insert(prio, w.assignments, j), sleeping := {})
  }

  function Enqueue<J, R>(w: Weaver<J, R>, prio: J -> int, batch: int, jobs: seq<J>): Weaver<J, R>
    decreases |jobs|
  {
    if jobs == [] then w else Enqueue(EnqueueOne(w, prio, batch, jobs[0]), prio, batch, jobs[1..])
  }

  // ---- Taking a job ----

  datatype Taken<J> = Assigned(job: J) | Returned | Expired | Slept

  datatype Found = None | At(i: nat)

  /** The scan: the first candidate from position k on that can be executed. */
  function Scan<J(==), R(==)>(ps: Policies<J, R>, q: seq<J>, lists: map<J, seq<Policy<R>>>, k: nat): (r: (Found,
      Policies<J, R>))
    requires k <= |q| && forall i :: 0 <= i < |q| ==> q[i] in lists
    ensures r.0.At? ==> k <= r.0.i < |q|
    decreases |q| - k
  {
    if k == |q| then (None, ps) else
    var (ok, qs) := CanBeExecuted(ps, lists[q[k]], q[k]);
    if ok then (At(k), qs) else Scan(qs, q, lists, k + 1)
  }

  /** The head of the critical section: forget expired threads, create one if there is room, and
      give back the active count of the previous job. */
  function Settled<J, R>(w: Weaver<J, R>, wasBusy: bool): Weaver<J, R> {
    var a := AdjustInventory(w.(expired := []), 1);
    if wasBusy then a.(active := a.active - 1) else a
  }

  /** Settle the previous job, complete a suspend, shrink the inventory, or look for a job. */
  function TakeFirst<J(==), R(==)>(w: Weaver<J, R>, lists: map<J, seq<Policy<R>>>, th: nat,
      wasBusy: bool, suspendIfInactive: bool, justReturning: bool): (Taken<J>, Weaver<J, R>)
    requires forall i :: 0 <= i < |w.assignments| ==> w.assignments[i] in lists
  {
    var m := Settled(w, wasBusy);
    if suspendIfInactive && m.active == 0 && m.state == Suspending then
      (Returned, SetState(m, Suspended))
    else if m.state != WorkingHard || justReturning then
      (Returned, m)
    else if |m.inventory| > m.inventoryMax then
      (Expired, m.(inventory := RemoveFirst(m.inventory, th), expired := [th]))
    else
      var (found, ps) := Scan(m.policies, m.assignments, lists, 0);
      match found
      case At(i) =>
        (Assigned(m.assignments[i]),
         m.(assignments := RemoveAt(m.assignments, i), active := m.active + 1, policies := ps))
      case None => (Slept, m.(sleeping := m.sleeping + {th}, policies := ps))
  }
}
