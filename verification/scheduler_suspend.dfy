/** Whether a suspend comes through: after it, the threads, left to themselves, come to rest, and by then
    the Weaver is suspended exactly if one of them had a pass before it. */
module SchedulerSuspend {
  import opened JobStatus
  import opened Sequences
  import opened QueuePolicies
  import opened WeaverSpec
  import opened Scheduler
  import opened SchedulerInvariant
  import opened SchedulerWakeup
  import opened SchedulerRest
  import opened SchedulerResume

  /** The thread is awake and not on its way into wait(), so it will come through the critical section. */
  predicate WillPass(s: State, t: nat) {
    t in s.phase && t !in s.w.sleeping && !s.phase[t].WantsWait? && !s.phase[t].Gone?
  }

  ghost predicate SomeWillPass(s: State) {
    exists t :: WillPass(s, t)
  }

  /** While the Weaver suspends, a pass changes the state, or nothing but the thread and the counts. */
  lemma SuspendingPass(prio: nat -> int, s: State, th: nat)
    requires Inv(prio, s) && Known(s) && s.w.state == Suspending && Enabled(s, Enter(th))
    ensures var n := Next(prio, s, Enter(th));
      && th in n.phase && n.w.sleeping == s.w.sleeping
      && (forall t :: t in s.phase && t != th ==> t in n.phase && n.phase[t] == s.phase[t])
      && n.phase[th] == (if s.phase[th].stopping then WantsWait else Applying(false))
      && (n.w.state == Suspended <==> s.phase[th].stopping && n.w.active == 0)
      && (n.w.state == Suspended || n.w.state == Suspending)
  {
    hide Scan, Spawn, Settled, ActiveOk, QueueOk, HeldOk, ListsOk, ResourcesOk, DepsOk, BoundsOk, ThreadsOk;
    SettledState(s.w, s.phase[th].busy);
    SpawnKeeps(s, Settled(s.w, s.phase[th].busy).created);
  }

  lemma SettledState(w: Weaver<nat, nat>, busy: bool)
    ensures var m := Settled(w, busy);
      m.state == w.state && m.sleeping == w.sleeping && m.created >= w.created
  {
  }

  lemma SpawnKeeps(s: State, after: nat)
    requires ThreadsOk(s)
    ensures var phase := Spawn(s.phase, s.w.created, after);
      forall t :: t in s.phase ==> t in phase && phase[t] == s.phase[t]
  {
  }

  /** If somebody is active, some busy thread will pass. */
  lemma BusyWillPass(prio: nat -> int, s: State)
    requires Inv(prio, s) && s.w.active > 0
    ensures SomeWillPass(s)
  {
    hide QueueOk, HeldOk, ListsOk, ResourcesOk, DepsOk, BoundsOk;
    var t :| t in Busy(s.phase);
    assert WillPass(s, t);
  }

  lemma PassesOn(prio: nat -> int, s: State, a: Act)
    requires Inv(prio, s) && Known(s) && s.w.state == Suspending && Enabled(s, a) && OfThread(a)
    requires Inv(prio, Next(prio, s, a)) && SomeWillPass(s)
    ensures SomeWillPass(Next(prio, s, a)) || Next(prio, s, a).w.state == Suspended
  {
    hide ActiveOk, QueueOk, HeldOk, ListsOk, ResourcesOk, DepsOk, BoundsOk, Next, FreeAll;
    var n := Next(prio, s, a);
    if a.Enter? {
      SuspendingPass(prio, s, a.th);
      if !s.phase[a.th].stopping {
        assert WillPass(n, a.th);
      } else if n.w.active > 0 {
        BusyWillPass(prio, n);
      } else {
        ActiveIsNatural(prio, n);
      }
    } else {
      MovePassesOn(prio, s, a);
    }
  }

  lemma MovePassesOn(prio: nat -> int, s: State, a: Act)
    requires ThreadsOk(s) && Known(s) && s.w.state == Suspending && Enabled(s, a) && OfThread(a) && !a.Enter?
    requires SomeWillPass(s)
    ensures SomeWillPass(Next(prio, s, a))
  {
    hide FreeAll;
    var t :| WillPass(s, t);
    assert WillPass(Next(prio, s, a), t);
  }

  lemma ActiveIsNatural(prio: nat -> int, s: State)
    requires Inv(prio, s)
    ensures s.w.active >= 0
  {
  }

  lemma NobodyPassesOn(prio: nat -> int, s: State, a: Act)
    requires Inv(prio, s) && Known(s) && s.w.state == Suspending && Enabled(s, a) && OfThread(a)
    requires !SomeWillPass(s)
    ensures !SomeWillPass(Next(prio, s, a)) && Next(prio, s, a).w.state == Suspending
  {
    hide ActiveOk, QueueOk, HeldOk, ListsOk, ResourcesOk, DepsOk, BoundsOk, FreeAll;
    assert !WillPass(s, a.th);
    var n := Next(prio, s, a);
    forall t ensures !WillPass(n, t) { assert !WillPass(s, t); }
  }

  ghost predicate ThreadsRest(s: State) {
    forall a :: OfThread(a) ==> !Enabled(s, a)
  }

  lemma RestHasNoPass(prio: nat -> int, s: State)
    requires Inv(prio, s) && s.w.state == Suspending && ThreadsRest(s)
    ensures !SomeWillPass(s)
  {
    forall t ensures !WillPass(s, t) {
      if WillPass(s, t) {
        AwakeCanStep(prio, s, t);
      }
    }
  }

  /** Left to themselves, the threads complete a suspend if and only if one of them will pass. */
  lemma {:induction false} SuspendComesThrough(prio: nat -> int, s: State, acts: seq<Act>)
    requires Inv(prio, s) && Known(s) && s.w.state == Suspending && Possible(prio, s, acts)
    requires forall a :: a in acts ==> OfThread(a)
    requires ThreadsRest(Reach(prio, s, acts))
    ensures Reach(prio, s, acts).w.state == if SomeWillPass(s) then Suspended else Suspending
    decreases |acts|
  {
    hide Inv, Next, Enabled, ThreadsRest, SomeWillPass;
    if acts == [] {
      RestHasNoPass(prio, s);
    } else {
      var n := Next(prio, s, acts[0]);
      assert acts[0] in acts;
      StepKeeps(prio, s, acts[0]);
      KeepsWorking(prio, s, acts[0]);
      if SomeWillPass(s) { PassesOn(prio, s, acts[0]); } else { NobodyPassesOn(prio, s, acts[0]); }
      if n.w.state == Suspended {
        ThreadsComeToRest(prio, n, acts[1..]);
      } else {
        SuspendComesThrough(prio, n, acts[1..]);
      }
    }
  }

  /** Not all threads of the inventory are on their way into wait(). */
  ghost predicate SomeAvailable(s: State) {
    exists t :: t in s.w.inventory && t in s.phase && !s.phase[t].WantsWait?
  }

  lemma SuspendWakes(prio: nat -> int, s: State)
    requires Inv(prio, s) && Known(s) && s.w.state == WorkingHard
    ensures var n := Next(prio, s, Suspend);
      n.w.state == Suspending && Inv(prio, n) && Known(n) && (SomeWillPass(n) <==> SomeAvailable(s))
  {
    StepKeeps(prio, s, Suspend);
    hide ActiveOk, QueueOk, HeldOk, ListsOk, ResourcesOk, DepsOk, BoundsOk;
    var n := Next(prio, s, Suspend);
    if t :| t in s.w.inventory && t in s.phase && !s.phase[t].WantsWait? { assert WillPass(n, t); }
    if t :| WillPass(n, t) { assert t in s.w.inventory && !s.phase[t].WantsWait?; }
  }

  /** Seen from the call: a suspend wakes all sleepers, so it comes through, after a bounded number of steps,
      unless every thread is still on its way into wait() from before, or there is none. */
  lemma SuspendReachesSuspended(prio: nat -> int, s: State, n: State, acts: seq<Act>)
    requires Inv(prio, s) && Known(s) && s.w.state == WorkingHard && n == Next(prio, s, Suspend)
    requires Known(n) && Possible(prio, n, acts) && forall a :: a in acts ==> OfThread(a)
    ensures ThreadsOk(n) && |acts| <= Work(n)
    ensures ThreadsRest(Reach(prio, n, acts)) ==>
      (Reach(prio, n, acts).w.state == Suspended <==> SomeAvailable(s))
  {
    SuspendWakes(prio, s);
    hide Next, Work, ThreadsRest, SomeWillPass, SomeAvailable;
    ThreadsComeToRest(prio, n, acts);
    if ThreadsRest(Reach(prio, n, acts)) { SuspendComesThrough(prio, n, acts); }
  }

  // ---- A suspend that does not come through ----

  /** Suspend, resume and suspend again, while the only thread is between its pass and its wait. */
  function TwiceSuspended(): seq<Act> {
    [Suspend] + ([Dispatch(1)] + ([Enter(1)] + ([Resume] + ([Suspend] + ([Wait(1)] + [])))))
  }

  lemma SleepsThrough(prio: nat -> int)
    ensures var s := OneJob(WorkingHard, {}, WantsWait);
      Known(s) && Enabled(s, Suspend) && Next(prio, s, Suspend) == OneJob(Suspending, {}, WantsWait)
    ensures var s := OneJob(Suspending, {}, WantsWait);
      Known(s) && Enabled(s, Wait(1)) && Next(prio, s, Wait(1)) == OneJob(Suspending, {1}, Parked)
  {
    assert OneJob(Suspending, {}, WantsWait).phase[1 := Parked] == map[1 := Parked];
  }

  /** The second suspend finds the thread on its way into wait() and is never completed: nothing is active,
      all threads sleep, and the Weaver is still suspending. */
  lemma SuspendCanHang(prio: nat -> int)
    ensures Possible(prio, Prepared(), TwiceSuspended())
    ensures var n := Reach(prio, Prepared(), TwiceSuspended());
      n.w.state == Suspending && n.w.active == 0 && AtRest(n)
  {
    hide Next, Enabled, Known;
    GetsThere(prio);
    CompletesSuspend(prio);
    FallsAsleep(prio);
    SleepsThrough(prio);
    OneMore(prio, OneJob(Suspending, {}, WantsWait), Wait(1), []);
    OneMore(prio, OneJob(WorkingHard, {}, WantsWait), Suspend, [Wait(1)] + []);
    OneMore(prio, OneJob(Suspended, {}, WantsWait), Resume, [Suspend] + ([Wait(1)] + []));
    OneMore(prio, OneJob(Suspending, {}, Entering(false, true)), Enter(1), [Resume] + ([Suspend] + ([Wait(1)] + [])));
    OneMore(prio, OneJob(Suspending, {}, Applying(false)), Dispatch(1),
            [Enter(1)] + ([Resume] + ([Suspend] + ([Wait(1)] + []))));
    OneMore(prio, Prepared(), Suspend, [Dispatch(1)] + ([Enter(1)] + ([Resume] + ([Suspend] + ([Wait(1)] + [])))));
  }
}
