/** What the invariant of collections means: counting, exactly one end, and the frontier of
    a Sequence, for every run with any stops and aborts from outside. */
module CollectionResults {
  import opened JobStatus
  import opened CollectionLedger
  import opened CollectionTree
  import opened CollectionInvariant

  /** Steps of one tree. Between them other trees may change the dependency map in any way. */
  datatype TimedAct = TimedAct(act: Act, deps: Deps)

  ghost predicate Runnable(n: Node, acts: seq<TimedAct>)
    decreases |acts|
  {
    acts == [] || (Enabled(n, acts[0].act, acts[0].deps)
                   && Runnable(Next(n, acts[0].act, acts[0].deps).0, acts[1..]))
  }

  ghost function After(n: Node, acts: seq<TimedAct>): Node
    requires Runnable(n, acts)
    decreases |acts|
  {
    if acts == [] then n else After(Next(n, acts[0].act, acts[0].deps).0, acts[1..])
  }

  lemma {:induction false} RunKeeps(n: Node, acts: seq<TimedAct>)
    requires Inv(n) && Runnable(n, acts)
    ensures Inv(After(n, acts))
    decreases |acts|
  {
    if acts != [] {
      StepKeeps(n, acts[0].act, acts[0].deps);
      RunKeeps(Next(n, acts[0].act, acts[0].deps).0, acts[1..]);
    }
  }

  /** Completions counted so far: the elements that are over and the composite's own run, less
      the part that a Sequence is still settling in its window. */
  function Completions(n: Node): int {
    Count(Over, n.kids) + (if InWindow(n) then 0 else 1)
  }

  /** However often and whenever a stop comes, completions, withdrawn elements and the counter
      add up to the number of parts. */
  lemma CountingUnderStop(n: Node)
    requires Inv(n) && n.kind != Leaf && !BeforeOpen(n) && !n.skipped
    ensures Completions(n) + Count(Gone, n.kids) + n.led.jobCounter == |n.kids| + 1
  {
    CountPartition(n.kids);
    CountZero(Unborn, n.kids);
    if Finishing(n) {
      CountZero(Waiting, n.kids);
      CountZero(Flying, n.kids);
    }
  }

  /** The end has come at most once, and when it has, no element is queued or in flight. */
  lemma EndAtMostOnce(n: Node)
    requires Inv(n) && n.kind != Leaf
    ensures n.ends <= 1 && n.begins <= 1
    ensures n.ends == 1 <==> Finishing(n)
    ensures Finishing(n) ==> n.led.jobCounter == 0 && forall i :: 0 <= i < |n.kids| ==>
      ClassOf(n.kids[i]) == Over || ClassOf(n.kids[i]) == Gone
    ensures forall i :: 0 <= i < |n.kids| && Begun(n.kids[i]) ==> n.begins == 1
  {
  }

  /** In a plain Collection a failure does not stick: the part that completes last decides. */
  lemma LastPartDecides(n: Node, i: nat, d: Deps)
    requires Inv(n) && n.kind == Plain && Enabled(n, KidEnd(i), d)
    ensures Next(n, KidEnd(i), d).0.ph.Ending? <==> n.led.jobCounter == 1
    ensures n.led.jobCounter == 1 ==>
      Next(n, KidEnd(i), d).0.led.status == if n.led.shouldAbort then Aborted else n.kids[i].led.status
  {
  }

  /** A Sequence has at most one element in flight, and it is the one before the frontier. */
  lemma OneAtATime(n: Node, i: nat, j: nat)
    requires Inv(n) && n.kind == Sequential && i < |n.kids| && j < |n.kids|
    requires InFlight(n.kids[i]) && InFlight(n.kids[j])
    ensures i == j == n.led.completed - 1 && n.ph.Open?
  {
  }

  lemma {:induction false} KindStays(n: Node, acts: seq<TimedAct>)
    requires Runnable(n, acts)
    ensures After(n, acts).kind == n.kind
    decreases |acts|
  {
    if acts != [] {
      SameKind(n, acts[0].act, acts[0].deps);
      KindStays(Next(n, acts[0].act, acts[0].deps).0, acts[1..]);
    }
  }

  lemma SameKind(n: Node, a: Act, d: Deps)
    requires Enabled(n, a, d)
    ensures Next(n, a, d).0.kind == n.kind
  {
  }

  /** All of the above at the end of any run, whatever stops and aborts it contains. */
  lemma EndsOnceOverRuns(n: Node, acts: seq<TimedAct>)
    requires Inv(n) && n.kind != Leaf && Runnable(n, acts)
    ensures var m := After(n, acts);
      && m.ends <= 1 && m.begins <= 1 && (m.ends == 1 <==> Finishing(m))
      && (forall i :: 0 <= i < |m.kids| && Begun(m.kids[i]) ==> m.begins == 1)
      && (!BeforeOpen(m) && !m.skipped ==> Completions(m) + Count(Gone, m.kids) + m.led.jobCounter == |m.kids| + 1)
  {
    RunKeeps(n, acts);
    KindStays(n, acts);
    var m := After(n, acts);
    hide Inv, After, Runnable, Completions;
    EndAtMostOnce(m);
    if !BeforeOpen(m) && !m.skipped { CountingUnderStop(m); }
  }

  // ---- Aborts ----

  lemma AbortSettles(n: Node, s: Status, d: Deps)
    ensures var m := PartCompleted(n, s, d).0;
      && m.led.shouldAbort == n.led.shouldAbort
      && (m.ph.Ending? && n.led.shouldAbort ==> m.led.status == Aborted)
  {
    var m := SetStatus(n, UpdatedStatus(s));
    if !(n.kind == Sequential && UpdatedStatus(s) != Running) {
      AdvancedLedger(m, d);
      hide Advance, Settle;
    }
  }

  /** An abort was requested, and if the composite has come to its end, it did so as Aborted. */
  ghost predicate AbortHolds(n: Node) {
    n.led.shouldAbort && (n.ph.Ending? ==> n.led.status == Aborted)
  }

  lemma AbortHoldsOn(n: Node, a: Act, d: Deps)
    requires Inv(n) && n.kind != Leaf && Enabled(n, a, d) && AbortHolds(n)
    ensures AbortHolds(Next(n, a, d).0)
  {
    if n.ph.Ending? { EndingIsLeftAlone(n, a, d); }
    hide Inv, PartCompleted, EnqueueElements, StartNode, WithdrawElement;
    match a
    case EndRun => AbortSettles(n.(skipped := true), n.led.status, d);
    case KidEnd(i) =>
      AbortSettles(n.(kids := n.kids[i := n.kids[i].(ph := Ended)]), n.kids[i].led.status, d);
    case _ =>
  }

  lemma EndingIsLeftAlone(n: Node, a: Act, d: Deps)
    requires Inv(n) && n.kind != Leaf && Enabled(n, a, d) && n.ph.Ending?
    ensures Next(n, a, d).0.ph.Ending? && Next(n, a, d).0.led.status == n.led.status
  {
    NoneEnding(n);
    hide Inv, PartCompleted, EnqueueElements, StartNode;
  }

  lemma NoneEnding(n: Node)
    requires Inv(n) && n.kind != Leaf && n.ph.Ending?
    ensures !Sweeping(n) && !n.led.api && forall i :: 0 <= i < |n.kids| ==> !n.kids[i].ph.Ending?
  {
    assert forall i :: 0 <= i < |n.kids| ==> ClassOf(n.kids[i]) == Over || ClassOf(n.kids[i]) == Gone;
  }

  /** A composite that ends after an abort was requested ends as Aborted, whatever its parts and the
      restored status of a stopped Sequence say, over every run. */
  lemma {:induction false} AbortWins(n: Node, acts: seq<TimedAct>)
    requires Inv(n) && n.kind != Leaf && AbortHolds(n) && Runnable(n, acts)
    ensures AbortHolds(After(n, acts))
    decreases |acts|
  {
    hide Inv, AbortHolds;
    if acts != [] {
      StepKeeps(n, acts[0].act, acts[0].deps);
      AbortHoldsOn(n, acts[0].act, acts[0].deps);
      SameKind(n, acts[0].act, acts[0].deps);
      AbortWins(Next(n, acts[0].act, acts[0].deps).0, acts[1..]);
    }
  }

  /** Once an abort was requested and its stop has gone through, no element is ever queued again. */
  lemma {:induction false} AbortIsFinal(n: Node, acts: seq<TimedAct>)
    requires Inv(n) && n.kind != Leaf && n.led.shouldAbort && Count(Waiting, n.kids) == 0 && Runnable(n, acts)
    ensures After(n, acts).led.shouldAbort && Count(Waiting, After(n, acts).kids) == 0
    decreases |acts|
  {
    hide Inv;
    if acts != [] {
      StepKeeps(n, acts[0].act, acts[0].deps);
      NothingQueuedAnew(n, acts[0].act, acts[0].deps);
      SameKind(n, acts[0].act, acts[0].deps);
      AbortIsFinal(Next(n, acts[0].act, acts[0].deps).0, acts[1..]);
    }
  }

  lemma NothingQueuedAnew(n: Node, a: Act, d: Deps)
    requires Inv(n) && n.kind != Leaf && Enabled(n, a, d) && n.led.shouldAbort && Count(Waiting, n.kids) == 0
    ensures Next(n, a, d).0.led.shouldAbort && Count(Waiting, Next(n, a, d).0.kids) == 0
  {
    FlagStays(n, a, d);
    SameNumber(n, a, d);
    CountZero(Waiting, n.kids);
    var m := Next(n, a, d).0;
    forall i | 0 <= i < |m.kids| ensures ClassOf(m.kids[i]) != Waiting {
      if !a.In? {
        ElementAfter(n, a, d, i);
      } else if a.i == i {
        assert Inv(n.kids[i]);
        StaysInFlight(n.kids[i], a.a, d);
      }
    }
    CountZero(Waiting, m.kids);
  }

  lemma SameNumber(n: Node, a: Act, d: Deps)
    requires Enabled(n, a, d)
    ensures |Next(n, a, d).0.kids| == |n.kids|
  {
  }

  lemma FlagStays(n: Node, a: Act, d: Deps)
    requires Enabled(n, a, d) && n.led.shouldAbort
    ensures Next(n, a, d).0.led.shouldAbort
  {
    hide PartCompleted, Free, EnqueueElement, WithdrawElement;
    match a
    case EndRun => AbortSettles(n.(skipped := true), n.led.status, d);
    case KidEnd(i) =>
      AbortSettles(n.(kids := n.kids[i := n.kids[i].(ph := Ended)]), n.kids[i].led.status, d);
    case _ =>
  }

  lemma AdvancedElement(n: Node, i: nat)
    requires i < |n.kids|
    ensures var k := Advance(n).kids[i]; k == n.kids[i] || k == n.kids[i].(blocked := false)
  {
  }

  lemma PartCompletedElement(n: Node, s: Status, d: Deps, i: nat)
    requires i < |n.kids|
    ensures var k := PartCompleted(n, s, d).0.kids[i]; k == n.kids[i] || k == n.kids[i].(blocked := false)
  {
    AdvancedElement(SetStatus(n, UpdatedStatus(s)), i);
    hide Advance, Free;
  }

  /** What a step of the node itself may make of an element. */
  ghost predicate MayBecome(n: Node, a: Act, i: nat, k: Node)
    requires i < |n.kids|
  {
    || k == n.kids[i] || k == n.kids[i].(blocked := false)
    || (!InFlight(k) && (ClassOf(k) != Waiting || (a.EndRun? && !n.led.shouldAbort)))
    || (a == TakeKid(i) && k == StartNode(n.kids[i]))
  }

  lemma EndRunElement(n: Node, d: Deps, i: nat)
    requires n.ph.RunDone? && !Sweeping(n) && i < |n.kids|
    ensures MayBecome(n, EndRun, i, Next(n, EndRun, d).0.kids[i])
  {
    hide PartCompleted, Free;
    if n.kind != Leaf {
      var m := if n.led.shouldAbort then n.(skipped := true) else EnqueueElements(n);
      PartCompletedElement(m, n.led.status, d, i);
    }
  }

  lemma KidEndElement(n: Node, j: nat, d: Deps, i: nat)
    requires Enabled(n, KidEnd(j), d) && i < |n.kids|
    ensures MayBecome(n, KidEnd(j), i, Next(n, KidEnd(j), d).0.kids[i])
  {
    hide PartCompleted, Free;
    PartCompletedElement(n.(kids := n.kids[j := n.kids[j].(ph := Ended)]), n.kids[j].led.status, d, i);
  }

  lemma SweptElement(n: Node, d: Deps, i: nat)
    requires Sweeping(n) && i < |n.kids|
    ensures |SweepOn(n, d).0.kids| == |n.kids| && MayBecome(n, Sweep, i, SweepOn(n, d).0.kids[i])
  {
    hide Free, FinalCleanup;
  }

  lemma ElementAfter(n: Node, a: Act, d: Deps, i: nat)
    requires Enabled(n, a, d) && !a.In? && i < |n.kids| == |Next(n, a, d).0.kids|
    ensures MayBecome(n, a, i, Next(n, a, d).0.kids[i])
  {
    hide PartCompleted, Free, Settle, SweepOn, EnqueueElements, StartNode, ElementStarted;
    match a
    case EndRun => EndRunElement(n, d, i);
    case AfterWindow => AfterWindowElement(n, d, i);
    case KidEnd(j) => KidEndElement(n, j, d, i);
    case Sweep => SweptElement(n, d, i);
    case TakeKid(j) => TakenElement(n, j, d);
    case _ =>
  }

  lemma TakenElement(n: Node, i: nat, d: Deps)
    requires Enabled(n, TakeKid(i), d)
    ensures Next(n, TakeKid(i), d).0.kids == n.kids[i := StartNode(n.kids[i])]
  {
  }

  lemma AfterWindowElement(n: Node, d: Deps, i: nat)
    requires n.ph.StopDone? && !Sweeping(n) && i < |n.kids|
    ensures var k := Next(n, AfterWindow, d).0.kids[i]; k == n.kids[i] || k == n.kids[i].(blocked := false)
  {
    AdvancedElement(SetStatus(n, n.ph.failure), i);
    hide Advance, Free;
  }

  /** When a sweep cleans a composite up, its status is not yet a success, as the cleanup asserts. */
  lemma CleanupAssertionHolds(n: Node)
    requires Inv(n) && n.sweep.Dequeuing? && n.sweep.i == |n.kids| && n.led.jobCounter == 1
    ensures n.led.status == Running || n.led.status.Bad()
  {
  }

  // ---- A stop without interruption ----

  function RoundsLeft(n: Node): nat {
    match n.sweep
    case Still => 0
    case Dequeuing(i, _) => if i <= |n.kids| then 2 * (|n.kids| - i) + 1 else 1
    case Unblocking(i, _) => if i < |n.kids| then 2 * (|n.kids| - i) else 2
  }

  /** The sweep run to its end. */
  function SweepOut(n: Node, d: Deps): (Node, Deps)
    decreases RoundsLeft(n)
  {
    if n.sweep.Still? then (n, d) else
    var (m, e) := SweepOn(n, d);
    SweepOut(m, e)
  }

  /** Both halves of one round. */
  lemma OneRound(n: Node, d: Deps)
    requires n.sweep.Dequeuing? && n.sweep.i < |n.kids|
    ensures var i := n.sweep.i;
      var m := SweepOn(SweepOn(n, d).0, SweepOn(n, d).1).0;
      && SweepOut(n, d) == SweepOut(m, d)
      && m.sweep == Dequeuing(i + 1, n.sweep.own) && m.ph == n.ph && m.kind == n.kind
      && m.kids == n.kids[i := WithdrawElement(n.kids[i]).(blocked := false)]
      && m.led == n.led.(jobCounter := n.led.jobCounter - if n.kids[i].ph.InQueue? then 1 else 0)
  {
  }

  lemma CountFrom(ks: seq<Node>, i: nat)
    requires i < |ks|
    ensures Count(Waiting, ks[i..]) == (if ks[i].ph.InQueue? then 1 else 0) + Count(Waiting, ks[i + 1..])
  {
    assert ks[i..][0] == ks[i] && ks[i..][1..] == ks[i + 1..];
  }

  /** A sweep that nothing interrupts takes every element from its position on out of the queue, which is
      what dequeueElements does to the counters when it is seen as one piece. */
  lemma {:induction false} SweepInOnePiece(n: Node, d: Deps)
    requires n.sweep.Dequeuing? && n.sweep.i <= |n.kids| && n.led.api
    ensures var m := SweepOut(n, d).0;
      && m.led == WithdrawFound(n.led, Count(Waiting, n.kids[n.sweep.i..]))
      && m.sweep == Still && m.kind == n.kind && |m.kids| == |n.kids|
      && m.ph == (if n.sweep.own && n.ph.StopDue? then StopDone(n.ph.failure) else n.ph)
      && forall i :: 0 <= i < |n.kids| ==>
        m.kids[i] == if i < n.sweep.i then n.kids[i] else WithdrawElement(n.kids[i]).(blocked := false)
    decreases |n.kids| - n.sweep.i
  {
    var i := n.sweep.i;
    if i < |n.kids| {
      OneRound(n, d);
      hide SweepOn, SweepOut, Count, WithdrawElement, FinalCleanup;
      var m := SweepOn(SweepOn(n, d).0, SweepOn(n, d).1).0;
      SweepInOnePiece(m, d);
      CountFrom(n.kids, i);
      assert m.kids[i + 1..] == n.kids[i + 1..];
    } else {
      assert n.kids[i..] == [];
      SweepEnds(n, d);
    }
  }

  lemma SweepEnds(n: Node, d: Deps)
    requires n.sweep.Dequeuing? && n.sweep.i == |n.kids| && n.led.api
    ensures var m := SweepOut(n, d).0;
      && m.led == WithdrawFound(n.led, 0)
      && m.sweep == Still && m.kind == n.kind && m.kids == n.kids
      && m.ph == (if n.sweep.own && n.ph.StopDue? then StopDone(n.ph.failure) else n.ph)
  {
  }

  /** Processing a completed part in one piece, as the Collection object does, is what the steps of
      the tree come to when nothing happens inside the stop window. */
  lemma WindowInOnePiece(n: Node, s: Status, d: Deps)
    requires s.Finished() && n.led.isSequence == (n.kind == Sequential) && !Sweeping(n)
    ensures var (led, done) := CountDown(Processed(n.led, s, Count(Waiting, n.kids)));
      var (m, e) := PartCompleted(n, s, d);
      var q := if m.ph.StopDue? then ThroughWindow(m, e) else m;
      q.led == led && (q.ph.Ending? <==> done)
  {
    var m := SetStatus(n, UpdatedStatus(s));
    if n.kind == Sequential && UpdatedStatus(s) != Running {
      var w := m.(ph := StopDue(s));
      StopInOnePiece(w, d);
      var (p, e) := SweepOut(BeginSweep(w, true), d);
      AdvancedLedger(SetStatus(p, s), e);
      hide Count, SweepOut, Advance, Settle;
    } else {
      AdvancedLedger(m, d);
      hide Count, Advance, Settle;
    }
  }

  lemma StopInOnePiece(n: Node, d: Deps)
    requires n.ph.StopDue? && !Sweeping(n)
    ensures var m := SweepOut(BeginSweep(n, true), d).0;
      && m.led == WithdrawFound(n.led, Count(Waiting, n.kids))
      && m.sweep == Still && m.kind == n.kind && m.ph == StopDone(n.ph.failure)
  {
    hide Count, WithdrawElement;
    assert n.kids[0..] == n.kids;
    if n.led.api { SweepInOnePiece(BeginSweep(n, true), d); }
  }

  /** The stop of a Sequence on itself, and what follows. */
  function ThroughWindow(n: Node, d: Deps): Node
    requires n.ph.StopDue? && !Sweeping(n)
  {
    var (m, e) := SweepOut(Next(n, StopInWindow, d).0, d);
    if m.ph.StopDone? && !Sweeping(m) then Next(m, AfterWindow, e).0 else m
  }

  lemma AdvancedLedger(n: Node, d: Deps)
    ensures var r := Settle(Advance(n), d).0;
      var l := if n.kind == Sequential then n.led.(completed := n.led.completed + 1) else n.led;
      r.led == CountDown(l).0 && (r.ph.Ending? <==> CountDown(l).1)
  {
  }

  // ---- The frontier of a Sequence ----

  /** The frontier of a Sequence whose elements are in the queue, over every run and in the middle of
      every sweep: from `completed` on, an element is queued with its blocker, or has left the queue; the
      one before is queued unblocked, in flight or withdrawn; all earlier ones have ended, or were
      withdrawn. */
  lemma FrontierHolds(n: Node, acts: seq<TimedAct>, i: nat)
    requires Inv(n) && Runnable(n, acts)
    requires var m := After(n, acts); m.kind == Sequential && m.ph.Open? && !m.skipped && i < |m.kids|
    ensures var m := After(n, acts);
      if i >= m.led.completed then
        ClassOf(m.kids[i]) == Gone || (ClassOf(m.kids[i]) == Waiting && m.kids[i].blocked)
      else if i == m.led.completed - 1 then
        ClassOf(m.kids[i]) != Over && ClassOf(m.kids[i]) != Unborn && !m.kids[i].blocked
      else
        ClassOf(m.kids[i]) == Over || ClassOf(m.kids[i]) == Gone
  {
    RunKeeps(n, acts);
    hide After, Runnable, Count;
  }

  /** A step that takes the blocker from an element takes it from the next one in line, or from one that
      has left the queue before; a stop does the latter only. */
  lemma BlockerGoesLast(n: Node, a: Act, d: Deps, i: nat)
    requires Inv(n) && n.kind == Sequential && Enabled(n, a, d) && i < |n.kids|
    requires n.kids[i].blocked && |Next(n, a, d).0.kids| == |n.kids| && !Next(n, a, d).0.kids[i].blocked
    ensures i == n.led.completed || n.kids[i].ph.Withdrawn?
    ensures a.Sweep? ==> n.kids[i].ph.Withdrawn?
  {
    match a
    case EndRun => NothingBlockedYet(n);
    case Sweep => SweptIsWithdrawn(n, d, i);
    case AfterWindow => SettledElement(SetStatus(n, n.ph.failure), d, i);
    case KidEnd(j) =>
      assert Inv(n.kids[j]);
      CompletedElement(n.(kids := n.kids[j := n.kids[j].(ph := Ended)]), n.kids[j].led.status, d, i);
    case In(j, b) => StaysInFlight(n.kids[j], b, d);
    case _ =>
  }

  lemma SweptIsWithdrawn(n: Node, d: Deps, i: nat)
    requires Inv(n) && Sweeping(n) && i < |n.kids| && n.kids[i].blocked && |SweepOn(n, d).0.kids| == |n.kids|
    ensures SweepOn(n, d).0.kids[i].blocked || n.kids[i].ph.Withdrawn?
  {
    assert Inv(n.kids[i]);
    hide Local;
    SelfLocal(n);
    BlockedPhases(n.kids[i]);
    if n.sweep.Unblocking? { SweptNotQueued(n); }
  }

  lemma SweptNotQueued(n: Node)
    requires Local(n) && n.sweep.Unblocking?
    ensures n.sweep.i < |n.kids| && !n.kids[n.sweep.i].ph.InQueue?
  {
    assert ClassOf(n.kids[n.sweep.i]) != Waiting;
  }

  lemma BlockedPhases(k: Node)
    requires Inv(k) && k.blocked
    ensures k.ph.InQueue? || k.ph.Withdrawn?
  {
  }

  lemma SettledElement(n: Node, d: Deps, i: nat)
    requires i < |n.kids|
    ensures Settle(Advance(n), d).0.kids[i].blocked == n.kids[i].blocked || i == n.led.completed
  {
  }

  lemma CompletedElement(n: Node, s: Status, d: Deps, i: nat)
    requires i < |n.kids|
    ensures PartCompleted(n, s, d).0.kids[i].blocked == n.kids[i].blocked || i == n.led.completed
  {
    SettledElement(SetStatus(n, UpdatedStatus(s)), d, i);
    hide Settle, Advance;
  }

  lemma NothingBlockedYet(n: Node)
    requires Inv(n) && n.kind != Leaf && n.ph.RunDone?
    ensures NoKidBlocked(n)
  {
  }
}
