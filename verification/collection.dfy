/** Collections and Sequences as the objects they are, on top of the Weaver object: their counters,
    their critical sections, and the loops that block, enqueue and withdraw the elements. What the
    methods do to the counters is what CollectionLedger says, which is also what the steps of the
    collection tree do. */
module CollectionObject {
  import opened JobStatus
  import opened Sequences
  import opened QueuePolicies
  import opened JobsAndPolicies
  import opened WeaverObject
  import opened CollectionLedger
  import S = WeaverSpec

  // ---- The blocker of a Sequence in an element's list ----

  function Blocked(l: seq<QueuePolicy>, on: bool, id: nat): seq<QueuePolicy> {
    if on then With(l, Blocker(id)) else l
  }

  function Unblocked(l: seq<QueuePolicy>, on: bool, id: nat): seq<QueuePolicy> {
    if on then RemoveFirst(l, Blocker(id)) else l
  }

  /** Of all policies only the blocker of this Sequence comes and goes. */
  lemma OnlyTheBlocker(l: seq<QueuePolicy>, on: bool, id: nat)
    ensures forall p :: p != Blocker(id) ==> (p in Blocked(l, on, id) <==> p in l)
    ensures forall p :: p != Blocker(id) ==> (p in Unblocked(l, on, id) <==> p in l)
    ensures if on then Blocker(id) in Blocked(l, on, id) else Blocked(l, on, id) == Unblocked(l, on, id) == l
    ensures NoDup(l) ==> NoDup(Blocked(l, on, id)) && NoDup(Unblocked(l, on, id))
    ensures NoDup(l) && on ==> Blocker(id) !in Unblocked(l, on, id)
  {
    forall p: QueuePolicy | p != Blocker(id) ensures p in RemoveFirst(l, Blocker(id)) <==> p in l {
      RemoveFirstOthers(l, Blocker(id), p);
    }
    if NoDup(l) { RemoveFirstMembers(l, Blocker(id)); }
    hide RemoveFirst;
  }

  lemma TwiceUnblocked(l: seq<QueuePolicy>, on: bool, again: bool, id: nat)
    ensures var r := Unblocked(Unblocked(l, on, id), again, id);
      && (forall p :: p != Blocker(id) ==> (p in r <==> p in l))
      && (NoDup(l) && (on || again) ==> Blocker(id) !in r)
      && (!on ==> r == Unblocked(l, again, id)) && (!again ==> r == Unblocked(l, on, id))
      && (!on && !again ==> r == l)
  {
    OnlyTheBlocker(l, on, id);
    OnlyTheBlocker(Unblocked(l, on, id), again, id);
    hide RemoveFirst;
  }

  /** Blocking and then unblocking an element gives its list back exactly if it did not carry the blocker. */
  lemma BlockingIsUndone(l: seq<QueuePolicy>, id: nat)
    requires NoDup(l)
    ensures Unblocked(Blocked(l, true, id), true, id) == l <==> Blocker(id) !in l
  {
    var b: QueuePolicy := Blocker(id);
    OnlyTheBlocker(Blocked(l, true, id), true, id);
    OnlyTheBlocker(l, true, id);
    if b !in l {
      RemoveAppended(l, b, 1);
      assert Copies(b, 1) == [b] && l + Copies(b, 0) == l;
    }
  }

  // ---- Withdrawing elements from a queue ----

  /** The queue after the first n elements were removed from it, one by one. */
  function Without(q: seq<Job>, es: seq<Job>, n: nat): seq<Job>
    requires n <= |es|
  {
    if n == 0 then q else RemoveFirst(Without(q, es, n - 1), es[n - 1])
  }

  /** How many of the first n elements are in the queue. */
  function FoundIn(q: seq<Job>, es: seq<Job>, n: nat): nat
    requires n <= |es|
  {
    if n == 0 then 0 else FoundIn(q, es, n - 1) + if es[n - 1] in q then 1 else 0
  }

  /** It is the number of those elements, and the queue gets shorter by it. */
  lemma {:induction false} FoundInCounts(q: seq<Job>, es: seq<Job>, n: nat)
    requires n <= |es| && NoDup(es) && NoDup(q)
    ensures FoundIn(q, es, n) == |set i | 0 <= i < n && es[i] in q|
    ensures |Without(q, es, n)| == |q| - FoundIn(q, es, n)
  {
    if n > 0 {
      FoundInCounts(q, es, n - 1);
      WithoutOthers(q, es, n - 1, es[n - 1]);
      hide Without, NoDup;
      var before := set i | 0 <= i < n - 1 && es[i] in q;
      var now := set i | 0 <= i < n && es[i] in q;
      if es[n - 1] in q { assert now == before + {n - 1}; } else { assert now == before; }
    }
  }

  lemma {:induction false} WithoutOthers(q: seq<Job>, es: seq<Job>, n: nat, x: Job)
    requires n <= |es| && x !in es[..n]
    ensures x in Without(q, es, n) <==> x in q
  {
    if n > 0 {
      assert es[..n] == es[..n - 1] + [es[n - 1]];
      WithoutOthers(q, es, n - 1, x);
      RemoveFirstOthers(Without(q, es, n - 1), es[n - 1], x);
    }
  }

  /** All the elements are gone, and nothing else. */
  lemma {:induction false} WithoutElements(q: seq<Job>, es: seq<Job>, n: nat)
    requires n <= |es| && NoDup(q)
    ensures NoDup(Without(q, es, n))
    ensures forall x :: x in Without(q, es, n) <==> x in q && x !in es[..n]
  {
    if n > 0 {
      WithoutElements(q, es, n - 1);
      RemoveFirstMembers(Without(q, es, n - 1), es[n - 1]);
      assert es[..n] == es[..n - 1] + [es[n - 1]];
    }
  }

  class Collection {
    const isSequence: bool
    const id: nat
    /** The job that the collection itself is. */
    const self: Job
    var elements: seq<Job>
    var api: Weaver?
    var jobCounter: int
    var jobsStarted: nat
    var completed: nat
    var selfIsExecuting: bool
    const dependencies: DependencyPolicy
    ghost const restrictions: set<ResourceRestrictionPolicy>

    ghost function Book(): Ledger
      reads this, self
    {
      Ledger(isSequence, self.status, self.shouldAbort, api != null, jobCounter, completed)
    }

    ghost predicate Valid()
      reads this, self
    {
      && NoDup(elements) && self !in elements
      && Covers(restrictions, self.queuePolicies)
      && (api != null ==> api.dependencies == dependencies && api.restrictions == restrictions)
    }

    /** What finalCleanup asserts, should it be reached from here by a stop. */
    ghost predicate MayCleanUp()
      reads this, self
    {
      api != null && jobCounter >= 1 ==> self.shouldAbort || self.status != Success
    }

    constructor (isSequence: bool, id: nat, self: Job,
        dependencies: DependencyPolicy, ghost restrictions: set<ResourceRestrictionPolicy>)
      requires Covers(restrictions, self.queuePolicies)
      ensures Valid() && elements == [] && api == null && !selfIsExecuting
      ensures Book() == Ledger(isSequence, self.status, self.shouldAbort, false, 0, 0)
    {
      this.isSequence, this.id, this.self := isSequence, id, self;
      this.dependencies, this.restrictions := dependencies, restrictions;
      elements, api, jobCounter, jobsStarted, completed, selfIsExecuting := [], null, 0, 0, 0, false;
    }

    method AddJob(job: Job)
      requires Valid() && (api == null || selfIsExecuting) && job !in elements && job != self
      modifies `elements
      ensures Valid() && elements == old(elements) + [job]
    {
      NoDupAppend(elements, job);
      elements := elements + [job];
    }

    // ---- Starting ----

    /** A Sequence blocks all of its elements; a Collection does nothing. */
    method PrepareToEnqueueElements()
      requires Valid()
      modifies `completed, elements
      ensures completed == if isSequence then 0 else old(completed)
      ensures isSequence ==> forall i :: 0 <= i < |elements| ==>
        Blocker(id) in elements[i].queuePolicies && old(elements[i].queuePolicies) <= elements[i].queuePolicies
      ensures forall i :: 0 <= i < |elements| ==>
        && elements[i].queuePolicies == Blocked(old(elements[i].queuePolicies), isSequence, id)
        && elements[i].status == old(elements[i].status) && elements[i].shouldAbort == old(elements[i].shouldAbort)
    {
      if isSequence {
        completed := 0;
        var i := 0;
        while i < |elements|
          invariant 0 <= i <= |elements| && completed == 0
          invariant forall k :: 0 <= k < |elements| ==>
            && elements[k].queuePolicies == Blocked(old(elements[k].queuePolicies), k < i, id)
            && elements[k].status == old(elements[k].status) && elements[k].shouldAbort == old(elements[k].shouldAbort)
        {
          elements[i].AssignQueuePolicy(Blocker(id));
          i := i + 1;
        }
      }
    }

    method EnqueueElements()
      requires Valid() && api != null && forall i :: 0 <= i < |elements| ==> elements[i].status == New
      modifies `completed, `jobCounter, elements, api`assignments, api`inventory, api`created, api`sleeping
      ensures Book() == Opened(old(Book()), |elements|)
      ensures api.Abs() == S.Enqueue(old(api.Abs()), Priority, |elements|, elements)
      ensures forall i :: 0 <= i < |elements| ==>
        && elements[i].queuePolicies == Blocked(old(elements[i].queuePolicies), isSequence, id)
        && elements[i].status == Queued && elements[i].shouldAbort == old(elements[i].shouldAbort)
    {
      hide S.Enqueue, QueuePolicies.FreeAll, With, PoliciesOf;
      PrepareToEnqueueElements();
      jobCounter := |elements| + 1;
      assert api.Abs() == old(api.Abs());
      api.Enqueue(elements);
    }

    /** The first part to start makes the collection itself begin. */
    method ElementStarted() returns (callBegin: bool)
      modifies `jobsStarted
      ensures callBegin <==> old(jobsStarted) == 0
      ensures jobsStarted == old(jobsStarted) + 1
    {
      callBegin := jobsStarted == 0;
      jobsStarted := jobsStarted + 1;
    }

    // ---- Ending ----

    method FinalCleanup()
      requires Valid() && (self.shouldAbort || self.status != Success)
      modifies `api, self`status, dependencies, restrictions
      ensures Valid() && Book() == CollectionLedger.FinalCleanup(old(Book()))
      ensures PoliciesOf(dependencies, restrictions)
           == FreeAll(old(PoliciesOf(dependencies, restrictions)), self.queuePolicies, self, self.status == Success)
    {
      if self.shouldAbort {
        self.status := Aborted;
      } else if self.status.NotYetFinished() {
        self.status := Success;
      } else {
        assert self.status == Failed || self.status == Aborted;
      }
      self.FreeQueuePolicyResources(dependencies, restrictions);
      api := null;
    }

    method UpdateStatus(part: Status) returns (newStatus: Status)
      modifies self`status
      ensures self.status == newStatus == UpdatedStatus(part)
    {
      newStatus := Running;
      if part != Success {
        newStatus := part;
      }
      self.status := newStatus;
    }

    /** Take whatever is still queued out of the queue, and clean up if only one part is left to count. */
    method DequeueElements()
      requires Valid() && MayCleanUp() && (api != null ==> NoDup(api.assignments))
      modifies `api, `jobCounter, self`status, elements, dependencies, restrictions
      modifies if api == null then {} else {api}
      ensures Valid()
      ensures old(api) == null ==> Book() == old(Book())
      ensures old(api) != null ==>
        && Book() == WithdrawFound(old(Book()), FoundIn(old(api.assignments), elements, |elements|))
        && old(api).assignments == Without(old(api.assignments), elements, |elements|)
        && forall i :: 0 <= i < |elements| ==>
          && elements[i].status == (if elements[i] in old(api.assignments) then New else old(elements[i].status))
          && elements[i].queuePolicies == Unblocked(old(elements[i].queuePolicies), isSequence, id)
      ensures old(api) == null ==>
        && PoliciesOf(dependencies, restrictions) == old(PoliciesOf(dependencies, restrictions))
        && forall i :: 0 <= i < |elements| ==>
          && elements[i].status == old(elements[i].status)
          && elements[i].queuePolicies == old(elements[i].queuePolicies)
      ensures old(api) != null ==>
        && old(jobCounter) - jobCounter == |old(api.assignments)| - |old(api).assignments|
        && (forall x :: x in old(api).assignments <==> x in old(api.assignments) && x !in elements)
        && NoDup(old(api).assignments)
        && api == (if jobCounter == 1 then null else old(api))
        && self.status == (if jobCounter != 1 then old(self.status)
                           else if self.shouldAbort then Aborted
                           else if old(self.status).Bad() then old(self.status)
                           else Success)
        && PoliciesOf(dependencies, restrictions)
          == if jobCounter != 1 then old(PoliciesOf(dependencies, restrictions))
             else FreeAll(old(PoliciesOf(dependencies, restrictions)), self.queuePolicies, self, self.status == Success)
      ensures forall i :: 0 <= i < |elements| ==> elements[i].shouldAbort == old(elements[i].shouldAbort)
      ensures old(api) != null && isSequence ==> forall i :: 0 <= i < |elements| ==>
        NoDup(old(elements[i].queuePolicies)) ==> Blocker(id) !in elements[i].queuePolicies
      ensures forall i, p :: 0 <= i < |elements| && p != Blocker(id) ==>
        (p in elements[i].queuePolicies <==> p in old(elements[i].queuePolicies))
    {
      hide PoliciesOf, Covers, RemoveFirst, Without, FoundIn, Unblocked, NoDup, FreeAll;
      if api == null { return; }
      WithdrawElements();
      if jobCounter == 1 {
        FinalCleanup();
      }
      forall i | 0 <= i < |elements|
        ensures var l, r := old(elements[i].queuePolicies), elements[i].queuePolicies;
          && (old(api) != null && isSequence && NoDup(l) ==> Blocker(id) !in r)
          && forall p :: p != Blocker(id) ==> (p in r <==> p in l)
      {
        OnlyTheBlocker(old(elements[i].queuePolicies), old(api) != null && isSequence, id);
      }
    }

    /** Lifting the blocker of an element is safe only when no thread can find the element queued. */
    method ElementDequeued(job: Job)
      requires isSequence && api != null ==> job !in api.assignments
      modifies job`queuePolicies
      ensures job.queuePolicies == Unblocked(old(job.queuePolicies), isSequence, id)
      ensures isSequence && NoDup(old(job.queuePolicies)) ==> Blocker(id) !in job.queuePolicies
      ensures forall p :: p != Blocker(id) ==> (p in job.queuePolicies <==> p in old(job.queuePolicies))
    {
      hide RemoveFirst, NoDup;
      if isSequence {
        job.RemoveQueuePolicy(Blocker(id));
      }
      OnlyTheBlocker(old(job.queuePolicies), isSequence, id);
    }

    /** One round of the loop: first out of the queue, then without the blocker. */
    method WithdrawElement(job: Job) returns (result: bool)
      requires api != null && NoDup(api.assignments)
      modifies job`status, job`queuePolicies, api`assignments
      ensures NoDup(api.assignments)
      ensures result <==> job in old(api.assignments)
      ensures api.assignments == RemoveFirst(old(api.assignments), job)
      ensures job.status == if result then New else old(job.status)
      ensures job.queuePolicies == Unblocked(old(job.queuePolicies), isSequence, id)
    {
      RemoveFirstMembers(api.assignments, job);
      result := api.Dequeue(job);
      ElementDequeued(job);
    }

    method WithdrawElements()
      requires Valid() && api != null && NoDup(api.assignments)
      modifies `jobCounter, elements, api`assignments
      ensures Valid() && jobCounter == old(jobCounter) - FoundIn(old(api.assignments), elements, |elements|)
      ensures api.assignments == Without(old(api.assignments), elements, |elements|)
      ensures old(jobCounter) - jobCounter == |old(api.assignments)| - |api.assignments|
      ensures NoDup(api.assignments)
      ensures forall x :: x in api.assignments <==> x in old(api.assignments) && x !in elements
      ensures forall i :: 0 <= i < |elements| ==>
        && elements[i].status == (if elements[i] in old(api.assignments) then New else old(elements[i].status))
        && elements[i].queuePolicies == Unblocked(old(elements[i].queuePolicies), isSequence, id)
        && elements[i].shouldAbort == old(elements[i].shouldAbort)
    {
      hide S.Enqueue, QueuePolicies.FreeAll, With, PoliciesOf, Covers, RemoveFirst;
      var n := 0;
      while n < |elements|
        invariant 0 <= n <= |elements| && Valid() && NoDup(api.assignments)
        invariant jobCounter == old(jobCounter) - FoundIn(old(api.assignments), elements, n)
        invariant api.assignments == Without(old(api.assignments), elements, n)
        invariant forall i :: 0 <= i < |elements| ==>
          && elements[i].status
            == (if i < n && elements[i] in old(api.assignments) then New else old(elements[i].status))
          && elements[i].queuePolicies == Unblocked(old(elements[i].queuePolicies), i < n && isSequence, id)
          && elements[i].shouldAbort == old(elements[i].shouldAbort)
      {
        WithoutOthers(old(api.assignments), elements, n, elements[n]);
        var result := WithdrawElement(elements[n]);
        if result {
          jobCounter := jobCounter - 1;
        }
        n := n + 1;
      }
      FoundInCounts(old(api.assignments), elements, |elements|);
      WithoutElements(old(api.assignments), elements, |elements|);
      assert elements[..|elements|] == elements;
    }

    method AboutToBeQueued(queue: Weaver)
      requires Valid() && api == null && queue.dependencies == dependencies && queue.restrictions == restrictions
      modifies `api
      ensures Valid() && api == queue
    {
      api := queue;
    }

    /** What the Weaver calls before it takes the collection itself out of its queue. */
    method AboutToBeDequeued()
      requires Valid() && MayCleanUp() && api != null && NoDup(api.assignments)
      modifies `api, `jobCounter, self`status, elements, dependencies, restrictions, api
      ensures Valid() && api == null
      ensures Book() == WithdrawFound(old(Book()), FoundIn(old(api.assignments), elements, |elements|)).(api := false)
      ensures old(api).assignments == Without(old(api.assignments), elements, |elements|)
      ensures old(jobCounter) - jobCounter == |old(api.assignments)| - |old(api).assignments|
      ensures NoDup(old(api).assignments)
      ensures forall x :: x in old(api).assignments <==> x in old(api.assignments) && x !in elements
      ensures forall i :: 0 <= i < |elements| ==>
        && elements[i].status == (if elements[i] in old(api.assignments) then New else old(elements[i].status))
        && elements[i].queuePolicies == Unblocked(old(elements[i].queuePolicies), isSequence, id)
        && elements[i].shouldAbort == old(elements[i].shouldAbort)
    {
      hide WithdrawFound, PoliciesOf, Covers, RemoveFirst, Without, FoundIn, Unblocked;
      DequeueElements();
      api := null;
    }

    /** Stop the collection: out of the queue if it is still there, otherwise withdraw its elements. */
    method Stop()
      requires Valid() && MayCleanUp() && (api != null ==> NoDup(api.assignments))
      modifies `api, `jobCounter, self`status, elements, dependencies, restrictions
      modifies if api == null then {} else {api}
      ensures Valid()
      ensures old(api) == null ==>
        && Book() == old(Book())
        && PoliciesOf(dependencies, restrictions) == old(PoliciesOf(dependencies, restrictions))
      ensures old(api) != null && self !in old(api.assignments) ==>
        && Book() == WithdrawFound(old(Book()), FoundIn(old(api.assignments), elements, |elements|))
        && old(api).assignments == Without(old(api.assignments), elements, |elements|)
        && old(jobCounter) - jobCounter == |old(api.assignments)| - |old(api).assignments|
        && api == (if jobCounter == 1 then null else old(api))
        && self.status == (if jobCounter != 1 then old(self.status)
                           else if self.shouldAbort then Aborted
                           else if old(self.status).Bad() then old(self.status)
                           else Success)
        && PoliciesOf(dependencies, restrictions)
          == if jobCounter != 1 then old(PoliciesOf(dependencies, restrictions))
             else FreeAll(old(PoliciesOf(dependencies, restrictions)), self.queuePolicies, self, self.status == Success)
      ensures old(api) != null && self in old(api.assignments) ==>
        && api == null && self.status == New
        && old(jobCounter) - jobCounter == |old(api.assignments)| - |old(api).assignments| - 1
      ensures old(api) != null ==>
        && NoDup(old(api).assignments)
        && forall x :: x in old(api).assignments <==> x in old(api.assignments) && x !in elements && x != self
      ensures forall i :: 0 <= i < |elements| ==>
        && elements[i].status
          == (if old(api) != null && elements[i] in old(api.assignments) then New else old(elements[i].status))
        && elements[i].queuePolicies
          == Unblocked(old(elements[i].queuePolicies), old(api) != null && isSequence, id)
        && elements[i].shouldAbort == old(elements[i].shouldAbort)
      ensures old(api) != null && isSequence ==> forall i :: 0 <= i < |elements| ==>
        NoDup(old(elements[i].queuePolicies)) ==> Blocker(id) !in elements[i].queuePolicies
      ensures forall i, p :: 0 <= i < |elements| && p != Blocker(id) ==>
        (p in elements[i].queuePolicies <==> p in old(elements[i].queuePolicies))
    {
      hide WithdrawFound, PoliciesOf, Covers, RemoveFirst, Without, FoundIn;
      if api != null {
        var currentApi := api;
        if self in currentApi.assignments {
          AboutToBeDequeued();
          ghost var rest := currentApi.assignments;
          var _ := currentApi.Dequeue(self);
          RemoveFirstMembers(rest, self);
        } else {
          DequeueElements();
        }
      }
      forall i | 0 <= i < |elements|
        ensures var l, r := old(elements[i].queuePolicies), elements[i].queuePolicies;
          && (old(api) != null && isSequence && NoDup(l) ==> Blocker(id) !in r)
          && forall p :: p != Blocker(id) ==> (p in r <==> p in l)
      {
        OnlyTheBlocker(old(elements[i].queuePolicies), old(api) != null && isSequence, id);
      }
    }

    /** Ask for an abort: stop, and pass the request on to every element that has not finished. */
    method RequestAbort()
      requires Valid() && (api != null ==> NoDup(api.assignments))
      modifies `api, `jobCounter, self`status, self`shouldAbort, elements, dependencies, restrictions
      modifies if api == null then {} else {api}
      ensures Valid() && self.shouldAbort
      ensures forall i :: 0 <= i < |elements| ==>
        elements[i].shouldAbort == (old(elements[i].shouldAbort) || elements[i].status.NotYetFinished())
      ensures old(api) == null ==>
        Book() == old(Book()).(shouldAbort := true)
      ensures old(api) != null ==>
        && (forall x :: x in old(api).assignments <==> x in old(api.assignments) && x !in elements && x != self)
        && NoDup(old(api).assignments)
      ensures old(api) != null && self !in old(api.assignments) ==>
        && old(jobCounter) - jobCounter == |old(api.assignments)| - |old(api).assignments|
        && api == (if jobCounter == 1 then null else old(api))
        && self.status == (if jobCounter == 1 then Aborted else old(self.status))
        && Book() == WithdrawFound(old(Book()).(shouldAbort := true),
                                   FoundIn(old(api.assignments), elements, |elements|))
        && PoliciesOf(dependencies, restrictions)
          == if jobCounter != 1 then old(PoliciesOf(dependencies, restrictions))
             else FreeAll(old(PoliciesOf(dependencies, restrictions)), self.queuePolicies, self, false)
      ensures old(api) != null && self in old(api.assignments) ==>
        && api == null && self.status == New
        && old(jobCounter) - jobCounter == |old(api.assignments)| - |old(api).assignments| - 1
      ensures forall i :: 0 <= i < |elements| ==>
        && elements[i].status
          == (if old(api) != null && elements[i] in old(api.assignments) then New else old(elements[i].status))
        && elements[i].queuePolicies
          == Unblocked(old(elements[i].queuePolicies), old(api) != null && isSequence, id)
      ensures old(api) != null && isSequence ==> forall i :: 0 <= i < |elements| ==>
        NoDup(old(elements[i].queuePolicies)) ==> Blocker(id) !in elements[i].queuePolicies
      ensures forall i, p :: 0 <= i < |elements| && p != Blocker(id) ==>
        (p in elements[i].queuePolicies <==> p in old(elements[i].queuePolicies))
    {
      hide WithdrawFound, PoliciesOf, Covers, RemoveFirst, FoundIn, Without, Unblocked;
      self.shouldAbort := true;
      Stop();
      PassOnAbort();
    }

    /** The loop that passes the request on. */
    method PassOnAbort()
      requires Valid()
      modifies elements`shouldAbort
      ensures forall i :: 0 <= i < |elements| ==>
        elements[i].shouldAbort == (old(elements[i].shouldAbort) || elements[i].status.NotYetFinished())
    {
      var n := 0;
      while n < |elements|
        invariant 0 <= n <= |elements|
        invariant forall i :: 0 <= i < |elements| ==>
          elements[i].shouldAbort
            == (old(elements[i].shouldAbort) || (i < n && elements[i].status.NotYetFinished()))
      {
        if elements[n].status.NotYetFinished() {
          elements[n].shouldAbort := true;
        }
        n := n + 1;
      }
    }

    // ---- A part has ended ----

    /** The window in which a Sequence stops itself, and the status that it restores behind it. */
    method StopItself(updated: Status)
      requires Valid() && isSequence && self.status == updated && updated.Bad()
      requires api != null ==> self !in api.assignments && NoDup(api.assignments)
      modifies `api, `jobCounter, self`status, elements, dependencies, restrictions
      modifies if api == null then {} else {api}
      ensures Valid()
      ensures old(api) == null ==>
        && Book() == old(Book())
        && PoliciesOf(dependencies, restrictions) == old(PoliciesOf(dependencies, restrictions))
      ensures old(api) != null ==>
        && Book() == WithdrawFound(old(Book()), FoundIn(old(api.assignments), elements, |elements|)).(status := updated)
        && old(api).assignments == Without(old(api.assignments), elements, |elements|)
        && old(jobCounter) - jobCounter == |old(api.assignments)| - |old(api).assignments|
        && NoDup(old(api).assignments)
        && (forall x :: x in old(api).assignments <==> x in old(api.assignments) && x !in elements)
        && api == (if jobCounter == 1 then null else old(api))
        && PoliciesOf(dependencies, restrictions)
          == if jobCounter != 1 then old(PoliciesOf(dependencies, restrictions))
             else FreeAll(old(PoliciesOf(dependencies, restrictions)), self.queuePolicies, self, false)
      ensures forall i :: 0 <= i < |elements| ==>
        && elements[i].status
          == (if old(api) != null && elements[i] in old(api.assignments) then New else old(elements[i].status))
        && elements[i].queuePolicies == Unblocked(old(elements[i].queuePolicies), old(api) != null, id)
    {
      hide PoliciesOf, Covers, RemoveFirst, FoundIn, Without, WithdrawFound, Unblocked;
      Stop();
      self.status := updated;
    }

    /** The status that the part leaves behind, and the stop of a Sequence in which it has failed. */
    method UpdateAndStop(part: Status)
      requires Valid() && part.Finished()
      requires api != null ==> self !in api.assignments && NoDup(api.assignments)
      modifies `api, `jobCounter, self`status, elements, dependencies, restrictions
      modifies if api == null then {} else {api}
      ensures Valid() && self.status == (if part == Success then Running else part)
      ensures var withdraws := isSequence && part != Success && old(api) != null;
        && (!withdraws ==>
             && Book() == old(Book()).(status := UpdatedStatus(part)) && api == old(api)
             && (api != null ==> api.assignments == old(api.assignments))
             && PoliciesOf(dependencies, restrictions) == old(PoliciesOf(dependencies, restrictions)))
        && (withdraws ==>
             && Book() == WithdrawFound(old(Book()).(status := part),
                                        FoundIn(old(api.assignments), elements, |elements|)).(status := part)
             && old(api).assignments == Without(old(api.assignments), elements, |elements|)
             && old(jobCounter) - jobCounter == |old(api.assignments)| - |old(api).assignments|
             && NoDup(old(api).assignments)
             && (forall x :: x in old(api).assignments <==> x in old(api.assignments) && x !in elements)
             && api == (if jobCounter == 1 then null else old(api))
             && PoliciesOf(dependencies, restrictions)
               == if jobCounter != 1 then old(PoliciesOf(dependencies, restrictions))
                  else FreeAll(old(PoliciesOf(dependencies, restrictions)), self.queuePolicies, self, false))
      ensures var withdraws := isSequence && part != Success && old(api) != null;
        forall i :: 0 <= i < |elements| ==>
          && elements[i].status
            == (if withdraws && elements[i] in old(api.assignments) then New else old(elements[i].status))
          && elements[i].queuePolicies == Unblocked(old(elements[i].queuePolicies), withdraws, id)
    {
      hide PoliciesOf, Covers, RemoveFirst, FoundIn, Without, NoDup, FreeAll, WithdrawFound;
      var updated := UpdateStatus(part);
      if isSequence && updated != Running {
        StopItself(updated);
      }
    }

    /** The next element in line, if there is one, loses the blocker. */
    method UnblockNext()
      requires Valid() && isSequence
      modifies `completed, elements
      ensures Valid() && completed == old(completed) + 1
      ensures forall i :: 0 <= i < |elements| ==>
        && elements[i].queuePolicies == Unblocked(old(elements[i].queuePolicies), i == old(completed), id)
        && elements[i].status == old(elements[i].status)
    {
      hide RemoveFirst;
      var next := completed;
      completed := completed + 1;
      if next < |elements| {
        elements[next].RemoveQueuePolicy(Blocker(id));
      }
    }

    method ProcessCompletedElement(part: Status)
      requires Valid() && part.Finished()
      requires api != null ==> self !in api.assignments && NoDup(api.assignments)
      modifies `api, `jobCounter, `completed, self`status, elements, dependencies, restrictions
      modifies if api == null then {} else {api}
      ensures Valid() && self.status == (if part == Success then Running else part)
      ensures completed == old(completed) + if isSequence then 1 else 0
      ensures var found := if old(api) == null then 0 else FoundIn(old(api.assignments), elements, |elements|);
        Book() == Processed(old(Book()), part, found)
      ensures var withdraws := isSequence && part != Success && old(api) != null;
        && (!withdraws ==>
             && jobCounter == old(jobCounter) && api == old(api)
             && (api != null ==> api.assignments == old(api.assignments))
             && PoliciesOf(dependencies, restrictions) == old(PoliciesOf(dependencies, restrictions)))
        && (withdraws ==>
             && old(api).assignments == Without(old(api.assignments), elements, |elements|)
             && old(jobCounter) - jobCounter == |old(api.assignments)| - |old(api).assignments|
             && NoDup(old(api).assignments)
             && (forall x :: x in old(api).assignments <==> x in old(api.assignments) && x !in elements)
             && api == (if jobCounter == 1 then null else old(api))
             && PoliciesOf(dependencies, restrictions)
               == if jobCounter != 1 then old(PoliciesOf(dependencies, restrictions))
                  else FreeAll(old(PoliciesOf(dependencies, restrictions)), self.queuePolicies, self, false))
      ensures var withdraws := isSequence && part != Success && old(api) != null;
        forall i :: 0 <= i < |elements| ==>
          && elements[i].status
            == (if withdraws && elements[i] in old(api.assignments) then New else old(elements[i].status))
          && elements[i].queuePolicies == Unblocked(
            Unblocked(old(elements[i].queuePolicies), withdraws, id), isSequence && i == old(completed), id)
      ensures var withdraws := isSequence && part != Success && old(api) != null;
        forall i :: 0 <= i < |elements| ==>
          if withdraws || (isSequence && i == old(completed))
          then NoDup(old(elements[i].queuePolicies)) ==> Blocker(id) !in elements[i].queuePolicies
          else elements[i].queuePolicies == old(elements[i].queuePolicies)
      ensures forall i, p :: 0 <= i < |elements| && p != Blocker(id) ==>
        (p in elements[i].queuePolicies <==> p in old(elements[i].queuePolicies))
    {
      hide PoliciesOf, Covers, RemoveFirst, FoundIn, Without, Unblocked, NoDup, FreeAll, CollectionLedger.FinalCleanup;
      UpdateAndStop(part);
      if isSequence {
        UnblockNext();
      }
      ghost var withdraws := isSequence && part != Success && old(api) != null;
      forall i | 0 <= i < |elements|
        ensures var l, r := old(elements[i].queuePolicies), elements[i].queuePolicies;
          var next := isSequence && i == old(completed);
          && r == Unblocked(Unblocked(l, withdraws, id), next, id)
          && ((withdraws || next) && NoDup(l) ==> Blocker(id) !in r)
          && (!withdraws && !next ==> r == l)
          && forall p :: p != Blocker(id) ==> (p in r <==> p in l)
      {
        TwiceUnblocked(old(elements[i].queuePolicies), withdraws, isSequence && i == old(completed), id);
      }
    }

    /** What a collection frees in its cleanup, it does not free again in its end. */
    lemma SecondFree()
      ensures NoDup(self.queuePolicies) && (forall r :: r in restrictions ==> NoDup(r.customers)) ==>
        var once := FreeAll(PoliciesOf(dependencies, restrictions), self.queuePolicies, self, false);
        FreeAll(once, self.queuePolicies, self, false) == once
    {
      if NoDup(self.queuePolicies) && (forall r :: r in restrictions ==> NoDup(r.customers)) {
        SecondFreeChangesNothing(PoliciesOf(dependencies, restrictions), self.queuePolicies, self, false);
      }
    }

    /** One part less to count; behind the last one, the collection is cleaned up. */
    method CountPart() returns (callEnd: bool)
      requires Valid() && (jobCounter == 1 ==> self.shouldAbort || self.status != Success)
      modifies `api, `jobCounter, self`status, dependencies, restrictions
      ensures Valid() && (Book(), callEnd) == CountDown(old(Book()))
      ensures jobCounter == old(jobCounter) - 1 && (callEnd <==> jobCounter == 0)
      ensures !callEnd ==>
        && api == old(api) && self.status == old(self.status)
        && PoliciesOf(dependencies, restrictions) == old(PoliciesOf(dependencies, restrictions))
      ensures callEnd ==>
        && api == null
        && self.status == (if self.shouldAbort then Aborted
                           else if old(self.status).Bad() then old(self.status)
                           else Success)
        && PoliciesOf(dependencies, restrictions)
          == FreeAll(old(PoliciesOf(dependencies, restrictions)), self.queuePolicies, self, self.status == Success)
    {
      hide PoliciesOf, Covers;
      jobCounter := jobCounter - 1;
      callEnd := jobCounter == 0;
      if callEnd {
        FinalCleanup();
      }
    }

    /** The handler that runs when a part, the collection's own run first of all, has ended. */
    method ElementFinished(part: Status) returns (callEnd: bool)
      requires Valid() && part.Finished()
      requires api != null ==> self !in api.assignments && NoDup(api.assignments)
      requires selfIsExecuting ==> api != null && forall i :: 0 <= i < |elements| ==>
        && elements[i].status == New
        && elements[i] !in api.assignments
      modifies `api, `jobCounter, `completed, `selfIsExecuting, self`status, elements, dependencies, restrictions
      modifies if api == null then {} else {api}
      ensures Valid() && !selfIsExecuting
      ensures var opens := old(selfIsExecuting && !self.shouldAbort);
        var l := if opens then Opened(old(Book()), |elements|) else old(Book());
        var found :=
          if opens then |elements|
          else if old(api) == null then 0
          else FoundIn(old(api.assignments), elements, |elements|);
        (Book(), callEnd) == CountDown(Processed(l, part, found))
      // The queue.
      ensures var opens := old(selfIsExecuting && !self.shouldAbort);
        var withdraws := isSequence && part != Success && old(api) != null;
        old(api) != null ==> forall x :: x in old(api).assignments <==>
          (x in old(api.assignments) && !(withdraws && x in elements)) || (opens && !withdraws && x in elements)
      // The elements.
      ensures var opens := old(selfIsExecuting && !self.shouldAbort);
        var withdraws := isSequence && part != Success && old(api) != null;
        forall i :: 0 <= i < |elements| ==>
          var next := isSequence && i == if opens then 0 else old(completed);
          && elements[i].status
            == (if withdraws && (opens || elements[i] in old(api.assignments)) then New
                else if opens then Queued
                else old(elements[i].status))
          && (isSequence && opens && !withdraws && !next ==> Blocker(id) in elements[i].queuePolicies)
          && ((withdraws || next) && NoDup(old(elements[i].queuePolicies)) ==>
               Blocker(id) !in elements[i].queuePolicies)
          && (!isSequence || (!opens && !withdraws && !next) ==>
               elements[i].queuePolicies == old(elements[i].queuePolicies))
      ensures forall i, p :: 0 <= i < |elements| && p != Blocker(id) ==>
        (p in elements[i].queuePolicies <==> p in old(elements[i].queuePolicies))
      // The count.
      ensures callEnd <==> jobCounter == 0
      ensures var opens := old(selfIsExecuting && !self.shouldAbort);
        var withdraws := isSequence && part != Success && old(api) != null;
        jobCounter == (if opens then |elements| else old(jobCounter) - 1)
          - (if !withdraws then 0 else if opens then |elements| else |old(api.assignments)| - |old(api).assignments|)
      // The end.
      ensures self.status == if !callEnd then (if part == Success then Running else part)
                             else if self.shouldAbort then Aborted else part
      ensures callEnd ==> api == null
      ensures !callEnd ==>
        api == old(api) && PoliciesOf(dependencies, restrictions) == old(PoliciesOf(dependencies, restrictions))
      ensures callEnd && NoDup(self.queuePolicies) && (forall r :: r in restrictions ==> NoDup(old(r.customers))) ==>
        PoliciesOf(dependencies, restrictions)
          == FreeAll(old(PoliciesOf(dependencies, restrictions)), self.queuePolicies, self, self.status == Success)
    {
      SecondFree();
      hide PoliciesOf, Covers, RemoveFirst, Without, Processed, FoundIn, Unblocked, Blocked, Opened, NoDup, FreeAll;
      hide CollectionLedger.FinalCleanup;
      FinishPart(part);
      callEnd := CountPart();
    }

    /** Everything but the count. */
    method FinishPart(part: Status)
      requires Valid() && part.Finished()
      requires api != null ==> self !in api.assignments && NoDup(api.assignments)
      requires selfIsExecuting ==> api != null && forall i :: 0 <= i < |elements| ==>
        && elements[i].status == New
        && elements[i] !in api.assignments
      modifies `api, `jobCounter, `completed, `selfIsExecuting, self`status, elements, dependencies, restrictions
      modifies if api == null then {} else {api}
      ensures Valid() && !selfIsExecuting && self.status == if part == Success then Running else part
      ensures var opens := old(selfIsExecuting && !self.shouldAbort);
        var l := if opens then Opened(old(Book()), |elements|) else old(Book());
        var found :=
          if opens then |elements|
          else if old(api) == null then 0
          else FoundIn(old(api.assignments), elements, |elements|);
        Book() == Processed(l, part, found)
      ensures var opens := old(selfIsExecuting && !self.shouldAbort);
        var withdraws := isSequence && part != Success && old(api) != null;
        old(api) != null ==> forall x :: x in old(api).assignments <==>
          (x in old(api.assignments) && !(withdraws && x in elements)) || (opens && !withdraws && x in elements)
      ensures var opens := old(selfIsExecuting && !self.shouldAbort);
        var withdraws := isSequence && part != Success && old(api) != null;
        && jobCounter == (if opens then |elements| + 1 else old(jobCounter))
          - (if !withdraws then 0 else if opens then |elements| else |old(api.assignments)| - |old(api).assignments|)
        && api == (if withdraws && jobCounter == 1 then null else old(api))
        && PoliciesOf(dependencies, restrictions)
          == if withdraws && jobCounter == 1
             then FreeAll(old(PoliciesOf(dependencies, restrictions)), self.queuePolicies, self, false)
             else old(PoliciesOf(dependencies, restrictions))
      ensures var opens := old(selfIsExecuting && !self.shouldAbort);
        var withdraws := isSequence && part != Success && old(api) != null;
        forall i :: 0 <= i < |elements| ==>
          var next := isSequence && i == if opens then 0 else old(completed);
          && elements[i].status
            == (if withdraws && (opens || elements[i] in old(api.assignments)) then New
                else if opens then Queued
                else old(elements[i].status))
          && (isSequence && opens && !withdraws && !next ==> Blocker(id) in elements[i].queuePolicies)
          && ((withdraws || next) && NoDup(old(elements[i].queuePolicies)) ==>
               Blocker(id) !in elements[i].queuePolicies)
          && (!isSequence || (!opens && !withdraws && !next) ==>
               elements[i].queuePolicies == old(elements[i].queuePolicies))
      ensures forall i, p :: 0 <= i < |elements| && p != Blocker(id) ==>
        (p in elements[i].queuePolicies <==> p in old(elements[i].queuePolicies))
    {
      hide PoliciesOf, Covers, RemoveFirst, Without, Processed, FoundIn, Unblocked, Blocked, Opened, NoDup, FreeAll;
      hide CollectionLedger.FinalCleanup;
      FinishOwnRun();
      if api != null { FoundInCounts(api.assignments, elements, |elements|); }
      ProcessCompletedElement(part);
    }

    /** If it is the own run that has ended, the elements follow, unless an abort was requested. */
    method FinishOwnRun()
      requires Valid() && (api != null ==> self !in api.assignments && NoDup(api.assignments))
      requires selfIsExecuting ==> api != null && forall i :: 0 <= i < |elements| ==>
        && elements[i].status == New
        && elements[i] !in api.assignments
      modifies `completed, `jobCounter, `selfIsExecuting, elements
      modifies if api == null then {} else {api}
      ensures Valid() && !selfIsExecuting
      ensures api != null ==> self !in api.assignments && NoDup(api.assignments)
      ensures var opens := old(selfIsExecuting && !self.shouldAbort);
        && (!opens ==>
             && Book() == old(Book()) && (api != null ==> api.assignments == old(api.assignments))
             && forall i :: 0 <= i < |elements| ==>
               && elements[i].status == old(elements[i].status)
               && elements[i].queuePolicies == old(elements[i].queuePolicies))
        && (opens ==>
             && Book() == Opened(old(Book()), |elements|)
             && jobCounter == |elements| + 1 && completed == (if isSequence then 0 else old(completed))
             && (forall x :: x in api.assignments <==> x in old(api.assignments) || x in elements)
             && FoundIn(api.assignments, elements, |elements|) == |elements|
             && forall i :: 0 <= i < |elements| ==>
               && elements[i].status == Queued
               && (isSequence ==> Blocker(id) in elements[i].queuePolicies)
               && (!isSequence ==> elements[i].queuePolicies == old(elements[i].queuePolicies)))
      ensures forall i, p :: 0 <= i < |elements| && p != Blocker(id) ==>
        (p in elements[i].queuePolicies <==> p in old(elements[i].queuePolicies))
      ensures forall i :: 0 <= i < |elements| && NoDup(old(elements[i].queuePolicies)) ==>
        NoDup(elements[i].queuePolicies)
    {
      hide PoliciesOf, Covers, FoundIn, NoDup, Opened;
      if selfIsExecuting {
        if !self.shouldAbort {
          EnqueueInto();
        }
        selfIsExecuting := false;
      }
    }

    /** Enqueueing the elements, and what that makes of the queue. */
    method EnqueueInto()
      requires Valid() && api != null && self !in api.assignments && NoDup(api.assignments)
      requires forall i :: 0 <= i < |elements| ==> elements[i].status == New && elements[i] !in api.assignments
      modifies `completed, `jobCounter, elements, api`assignments, api`inventory, api`created, api`sleeping
      ensures Valid() && Book() == Opened(old(Book()), |elements|)
      ensures jobCounter == |elements| + 1 && completed == if isSequence then 0 else old(completed)
      ensures self !in api.assignments && NoDup(api.assignments)
      ensures forall x :: x in api.assignments <==> x in old(api.assignments) || x in elements
      ensures |api.assignments| == |old(api.assignments)| + |elements|
      ensures FoundIn(api.assignments, elements, |elements|) == |elements|
      ensures forall i :: 0 <= i < |elements| ==>
        && elements[i].status == Queued && elements[i].shouldAbort == old(elements[i].shouldAbort)
        && elements[i].queuePolicies == Blocked(old(elements[i].queuePolicies), isSequence, id)
        && (isSequence ==> Blocker(id) in elements[i].queuePolicies)
        && (!isSequence ==> elements[i].queuePolicies == old(elements[i].queuePolicies))
      ensures forall i, p :: 0 <= i < |elements| && p != Blocker(id) ==>
        (p in elements[i].queuePolicies <==> p in old(elements[i].queuePolicies))
      ensures forall i :: 0 <= i < |elements| && NoDup(old(elements[i].queuePolicies)) ==>
        NoDup(elements[i].queuePolicies)
    {
      hide PoliciesOf, Covers, FoundIn, Blocked, With, NoDup, S.Enqueue;
      EnqueueElements();
      EnqueuedMembers(old(api.Abs()), |elements|, elements);
      FoundAll(api.assignments, elements, |elements|);
      forall i | 0 <= i < |elements|
        ensures var l, r := old(elements[i].queuePolicies), elements[i].queuePolicies;
          && (if isSequence then Blocker(id) in r else r == l) && (NoDup(l) ==> NoDup(r))
          && forall p :: p != Blocker(id) ==> (p in r <==> p in l)
      {
        OnlyTheBlocker(old(elements[i].queuePolicies), isSequence, id);
      }
    }
  }

  lemma {:induction false} FoundAll(q: seq<Job>, es: seq<Job>, n: nat)
    requires n <= |es| && forall i :: 0 <= i < n ==> es[i] in q
    ensures FoundIn(q, es, n) == n
  {
    if n > 0 { FoundAll(q, es, n - 1); }
  }

  lemma InsertedMembers(q: seq<Job>, j: Job)
    requires NoDup(q) && j !in q
    ensures NoDup(S.Insert(Priority, q, j)) && forall x :: x in S.Insert(Priority, q, j) <==> x in q || x == j
  {
  }

  lemma {:induction false} EnqueuedMembers(w: S.Weaver<Job, ResourceRestrictionPolicy>, batch: int, js: seq<Job>)
    requires NoDup(w.assignments) && NoDup(js) && forall i :: 0 <= i < |js| ==> js[i] !in w.assignments
    ensures var q := S.Enqueue(w, Priority, batch, js).assignments;
      && NoDup(q) && |q| == |w.assignments| + |js|
      && forall x :: x in q <==> x in w.assignments || x in js
    decreases |js|
  {
    if js != [] {
      InsertedMembers(w.assignments, js[0]);
      var m := S.EnqueueOne(w, Priority, batch, js[0]);
      assert m.assignments == S.Insert(Priority, w.assignments, js[0]);
      assert forall i :: 1 <= i < |js| ==> js[1..][i - 1] == js[i];
      assert js == [js[0]] + js[1..];
      EnqueuedMembers(m, batch, js[1..]);
    }
  }
}
