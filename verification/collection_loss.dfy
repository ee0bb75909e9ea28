/** When the end of a composite is lost by an abort or a stop: the exact steps, at every depth of the
    tree, and what a lost end means for the composites around it. And when an end that is not lost comes:
    unless a dependency of an element holds it up. */
module CollectionLoss {
  import opened JobStatus
  import opened CollectionLedger
  import opened CollectionTree
  import opened CollectionInvariant
  import opened CollectionForest
  import opened CollectionResults
  import D = DependencyMap

  /** A composite that has started and will never end: an abort kept its elements out of the queue, or
      a stop took away the last of them with none in flight, or an element that is in flight will never
      end itself. */
  ghost predicate EndLost(n: Node) {
    && n.kind != Leaf && InFlight(n) && !n.ph.Ending?
    && (n.skipped || n.stranded || exists i :: 0 <= i < |n.kids| && EndLost(n.kids[i]))
  }

  lemma LostElementFlies(n: Node, j: nat)
    requires Inv(n) && j < |n.kids| && EndLost(n.kids[j])
    ensures n.ph.Open? && !n.skipped && n.kind != Leaf && Count(Flying, n.kids) >= 1 && InFlight(n.kids[j])
    ensures !n.kids[j].blocked && !n.kids[j].ph.InQueue? && !n.kids[j].ph.Ending?
  {
    ParentFlies(n, j);
    CountZero(Flying, n.kids);
    assert Inv(n.kids[j]);
  }

  /** An element that will never end keeps its composite from ending. */
  lemma LostBelowStays(n: Node, a: Act, d: Deps, j: nat)
    requires Inv(n) && Enabled(n, a, d) && !a.In? && j < |n.kids| && EndLost(n.kids[j])
    ensures var m := Next(n, a, d).0;
      && m.kind == n.kind && |m.kids| == |n.kids| && m.kids[j] == n.kids[j] && InFlight(m) && !m.ph.Ending?
  {
    hide EndLost, Inv;
    LostElementFlies(n, j);
    SelfLocal(n);
    if a.KidEnd? {
      OthersFly(n, a.i, j);
      BlockedIsNotFlying(n);
    }
    hide Count, Frontier;
  }

  lemma BlockedIsNotFlying(n: Node)
    requires KidsInv(n)
    ensures forall i :: 0 <= i < |n.kids| && n.kids[i].blocked ==> !InFlight(n.kids[i])
  {
  }

  lemma OthersFly(n: Node, i: nat, j: nat)
    requires Inv(n) && n.ph.Open? && i < |n.kids| && j < |n.kids| && i != j
    requires InFlight(n.kids[i]) && InFlight(n.kids[j]) && !n.skipped
    ensures n.led.jobCounter >= 2
  {
    var k := n.kids[i].(ph := Ended);
    var ks := n.kids[i := k];
    CountUpdate(Flying, n.kids, i, k);
    CountZero(Flying, ks);
    assert ClassOf(ks[j]) == Flying;
  }

  lemma OwnLossStays(n: Node, a: Act, d: Deps)
    requires Inv(n) && Enabled(n, a, d) && !a.In?
    requires n.kind != Leaf && InFlight(n) && !n.ph.Ending? && (n.skipped || n.stranded)
    ensures var m := Next(n, a, d).0;
      m.kind == n.kind && InFlight(m) && !m.ph.Ending? && (m.skipped || m.stranded)
  {
    hide Count;
    CountZero(Waiting, n.kids);
    CountZero(Flying, n.kids);
  }

  /** A lost end never comes. */
  lemma {:induction false} LostStaysLost(n: Node, a: Act, d: Deps)
    requires Inv(n) && EndLost(n) && Enabled(n, a, d)
    ensures EndLost(Next(n, a, d).0)
    decreases a
  {
    var m := Next(n, a, d).0;
    if n.skipped || n.stranded {
      if a.In? { StaysInFlight(n.kids[a.i], a.a, d); } else { OwnLossStays(n, a, d); }
    } else {
      var j :| 0 <= j < |n.kids| && EndLost(n.kids[j]);
      if a.In? {
        if a.i == j { LostStaysLost(n.kids[j], a.a, d); }
        assert EndLost(m.kids[j]);
      } else {
        LostBelowStays(n, a, d, j);
        assert EndLost(m.kids[j]);
      }
    }
  }

  lemma {:induction false} LostForGood(n: Node, acts: seq<TimedAct>)
    requires Inv(n) && EndLost(n) && Runnable(n, acts)
    ensures EndLost(After(n, acts)) && After(n, acts).ends == 0
    decreases |acts|
  {
    if acts != [] {
      StepKeeps(n, acts[0].act, acts[0].deps);
      LostStaysLost(n, acts[0].act, acts[0].deps);
      LostForGood(Next(n, acts[0].act, acts[0].deps).0, acts[1..]);
    }
  }

  /** The steps that lose an end: somewhere in the tree, an own run ends after an abort was requested,
      or a sweep dequeues the last part that counts, with none in flight. */
  predicate LosesEnd(n: Node, a: Act) {
    match a
    case EndRun => n.kind != Leaf && n.led.shouldAbort
    case Sweep =>
      n.ph.Open? && n.led.jobCounter == 1
      && n.sweep.Dequeuing? && n.sweep.i < |n.kids| && n.kids[n.sweep.i].ph.InQueue?
    case In(i, b) => i < |n.kids| && LosesEnd(n.kids[i], b)
    case _ => false
  }

  lemma {:induction false} LosesFromInside(n: Node, a: Act)
    requires LosesEnd(n, a)
    ensures Internal(a)
    decreases a
  {
    if a.In? { LosesFromInside(n.kids[a.i], a.a); }
  }

  lemma StartedIsNotLost(k: Node)
    requires Inv(k) && k.ph.InQueue?
    ensures !EndLost(StartNode(k))
  {
    forall i | 0 <= i < |k.kids| ensures !EndLost(k.kids[i]) {
      if k.kind != Leaf { assert ClassOf(k.kids[i]) == Unborn; }
    }
  }

  /** A step of the node itself loses nothing below. */
  lemma NothingLostBelow(n: Node, a: Act, d: Deps, i: nat)
    requires Inv(n) && Enabled(n, a, d) && !a.In? && i < |n.kids| && !EndLost(n.kids[i])
    ensures |Next(n, a, d).0.kids| == |n.kids| && !EndLost(Next(n, a, d).0.kids[i])
  {
    ElementAfter(n, a, d, i);
    SameNumber(n, a, d);
    hide Next;
    if a == TakeKid(i) {
      assert Inv(n.kids[i]);
      StartedIsNotLost(n.kids[i]);
    }
  }

  lemma OwnLossExactly(n: Node, a: Act, d: Deps)
    requires Inv(n) && Enabled(n, a, d) && !a.In? && n.kind != Leaf && !n.skipped && !n.stranded
    ensures var m := Next(n, a, d).0;
      m.kind == n.kind && (m.skipped || m.stranded <==> LosesEnd(n, a))
  {
    hide Frontier, OpenFrontier, Count, FinalCleanup, Free, WithdrawElement, StartNode, EnqueueElement;
    if a.Sweep? && n.ph.Open? && n.led.jobCounter == 0 { LastOneQueued(n); }
  }

  lemma LastOneQueued(n: Node)
    requires Inv(n) && Sweeping(n) && n.ph.Open? && n.led.jobCounter == 0
    ensures n.stranded || n.skipped
  {
  }

  lemma LossEnds(n: Node, a: Act, d: Deps)
    requires Inv(n) && Enabled(n, a, d) && !a.In? && n.kind != Leaf && LosesEnd(n, a)
    ensures InFlight(Next(n, a, d).0) && !Next(n, a, d).0.ph.Ending?
  {
    hide Frontier;
  }

  lemma NotInFlightNotLost(n: Node, a: Act, d: Deps)
    requires Inv(n) && Enabled(n, a, d) && !InFlight(n)
    ensures !LosesEnd(n, a) && !EndLost(Next(n, a, d).0)
  {
    StaysInFlight(n, a, d);
    if LosesEnd(n, a) {
      LosesFromInside(n, a);
      ActsInFlight(n, a, d);
    }
  }

  /** When an end is lost, at every depth: exactly in those steps. */
  lemma {:induction false} LossHappensExactly(n: Node, a: Act, d: Deps)
    requires Inv(n) && Enabled(n, a, d) && !EndLost(n)
    ensures EndLost(Next(n, a, d).0) <==> LosesEnd(n, a)
    decreases a, 0
  {
    var m := Next(n, a, d).0;
    if !InFlight(n) {
      NotInFlightNotLost(n, a, d);
    } else if a.In? {
      InsideLossExactly(n, a.i, a.a, d);
    } else if n.kind == Leaf {
      LeafStaysLeaf(n, a, d);
    } else if n.ph.Ending? {
      EndingLosesNothing(n, a, d);
    } else {
      OwnLossExactly(n, a, d);
      forall i | 0 <= i < |n.kids| ensures |m.kids| == |n.kids| && !EndLost(m.kids[i]) {
        NothingLostBelow(n, a, d, i);
      }
      SameNumber(n, a, d);
      if LosesEnd(n, a) { LossEnds(n, a, d); }
    }
  }

  lemma LeafStaysLeaf(n: Node, a: Act, d: Deps)
    requires Inv(n) && Enabled(n, a, d) && !a.In? && n.kind == Leaf
    ensures Next(n, a, d).0.kind == Leaf && !LosesEnd(n, a)
  {
  }

  lemma EndingLosesNothing(n: Node, a: Act, d: Deps)
    requires Inv(n) && Enabled(n, a, d) && !a.In? && n.kind != Leaf && n.ph.Ending?
    ensures Next(n, a, d).0.ph.Ending? && !LosesEnd(n, a)
  {
  }

  lemma {:induction false} InsideLossExactly(n: Node, i: nat, b: Act, d: Deps)
    requires Inv(n) && Enabled(n, In(i, b), d) && !EndLost(n) && InFlight(n)
    ensures EndLost(Next(n, In(i, b), d).0) <==> LosesEnd(n.kids[i], b)
    decreases b, 1
  {
    var k := n.kids[i];
    assert Inv(k);
    if InFlight(k) {
      ParentFlies(n, i);
      assert !EndLost(k);
      LossHappensExactly(k, b, d);
      ReplacedLoss(n, i, Next(k, b, d).0);
    } else {
      NotInFlightNotLost(k, b, d);
      StaysInFlight(k, b, d);
      NothingNewLost(n, i, Next(k, b, d).0);
    }
  }

  lemma ReplacedLoss(n: Node, i: nat, k: Node)
    requires n.kind != Leaf && n.ph.Open? && i < |n.kids| && !EndLost(n)
    ensures EndLost(n.(kids := n.kids[i := k])) <==> EndLost(k)
  {
    var m := n.(kids := n.kids[i := k]);
    assert m.kids[i] == k && forall j :: 0 <= j < |n.kids| && j != i ==> m.kids[j] == n.kids[j];
  }

  lemma NothingNewLost(n: Node, i: nat, k: Node)
    requires i < |n.kids| && !EndLost(n) && !EndLost(k)
    ensures !EndLost(n.(kids := n.kids[i := k]))
  {
    var m := n.(kids := n.kids[i := k]);
    assert m.kids[i] == k && forall j :: 0 <= j < |n.kids| && j != i ==> m.kids[j] == n.kids[j];
  }

  // ---- Without a loss the end comes ----

  lemma SomeKidMoves(n: Node) returns (i: nat)
    requires Local(n) && n.ph.Open? && !Sweeping(n) && !n.skipped && !n.stranded && n.kind != Leaf
    ensures i < |n.kids| && (InFlight(n.kids[i]) || (n.kids[i].ph.InQueue? && !n.kids[i].blocked))
  {
    CountZero(Waiting, n.kids);
    CountZero(Flying, n.kids);
    if n.kind == Sequential {
      i := n.led.completed - 1;
    } else {
      i :| i < |n.kids| && (ClassOf(n.kids[i]) == Waiting || ClassOf(n.kids[i]) == Flying);
    }
  }

  /** Queued, and held back by an unresolved dependency alone. */
  predicate WaitsInQueue(n: Node, d: Deps) {
    n.ph.InQueue? && !n.blocked && D.HasUnresolved(d, n.id)
  }

  /** An element, at whatever depth, waits in the queue for its dependencies, and the composites around
      it wait for the element. */
  ghost predicate HeldUp(n: Node, d: Deps) {
    && n.ph.Open?
    && exists i :: 0 <= i < |n.kids| && (WaitsInQueue(n.kids[i], d) || HeldUp(n.kids[i], d))
  }

  lemma {:induction false} NothingToWaitFor(n: Node)
    ensures !HeldUp(n, [])
  {
    forall i | 0 <= i < |n.kids| ensures !HeldUp(n.kids[i], []) { NothingToWaitFor(n.kids[i]); }
  }

  /** A tree that has started, has not ended, has not lost its end and is not held up by a dependency can
      always take a step by itself, whatever stops and aborts it has seen. */
  lemma {:induction false} NeverStuck(n: Node, d: Deps) returns (a: Act)
    requires Inv(n) && InFlight(n) && !n.ph.Ending? && !EndLost(n) && !HeldUp(n, d)
    ensures Internal(a) && Enabled(n, a, d)
    decreases n
  {
    if Sweeping(n) {
      a := Sweep;
    } else {
      match n.ph
      case Executing => a := FinishRun;
      case RunDone => a := EndRun;
      case StopDue(_) => a := StopInWindow;
      case StopDone(_) => a := AfterWindow;
      case Open =>
        var i := SomeKidMoves(n);
        if n.kids[i].ph.InQueue? {
          a := TakeKid(i);
        } else if n.kids[i].ph.Ending? {
          a := KidEnd(i);
        } else {
          assert Inv(n.kids[i]);
          var b := NeverStuck(n.kids[i], d);
          a := In(i, b);
        }
    }
  }

  /** Where nothing is left to happen inside a composite that has started, its end has come exactly if it
      is neither lost nor held up. */
  lemma AtRestExactly(n: Node, d: Deps)
    requires Inv(n) && n.kind != Leaf && Begun(n)
    requires forall a :: Internal(a) ==> !Enabled(n, a, d)
    ensures n.ends == 1 <==> !EndLost(n) && !HeldUp(n, d)
    ensures n.ends <= 1
  {
    EndAtMostOnce(n);
    hide Inv, EndLost, HeldUp;
    if !Finishing(n) && !EndLost(n) && !HeldUp(n, d) {
      var a := NeverStuck(n, d);
    }
    if EndLost(n) { LostHasNotEnded(n); }
    if HeldUp(n, d) { HeldUpIsOpen(n, d); }
  }

  /** The same at the end of every run, with any stops and aborts at any depth, and whatever is in the
      dependency map by then. */
  lemma EndComesExactlyWhen(n: Node, acts: seq<TimedAct>, d: Deps)
    requires Inv(n) && n.kind != Leaf && Runnable(n, acts) && Begun(After(n, acts))
    requires forall a :: Internal(a) ==> !Enabled(After(n, acts), a, d)
    ensures After(n, acts).ends == 1 <==> !EndLost(After(n, acts)) && !HeldUp(After(n, acts), d)
    ensures After(n, acts).ends <= 1
  {
    RunKeeps(n, acts);
    KindStays(n, acts);
    hide Inv, After, Runnable, EndLost, HeldUp;
    AtRestExactly(After(n, acts), d);
  }

  lemma HeldUpIsOpen(n: Node, d: Deps)
    requires HeldUp(n, d)
    ensures n.ph.Open?
  {
  }

  lemma LostHasNotEnded(n: Node)
    requires Inv(n) && EndLost(n)
    ensures n.ends == 0
  {
  }

  // ---- One run for each kind of loss ----

  function Fresh(id: nat, kind: Kind, kids: seq<Node>): Node {
    var led := Ledger(kind == Sequential, New, false, false, 0, 0);
    Node(id, kind, Success, Idle, led, Still, false, 0, 0, 0, false, false, kids)
  }

  /** Enqueued and taken by a thread. */
  function Started(n: Node): Node {
    StartNode(EnqueueElement(n, false))
  }

  /** A Collection of one leaf. */
  function Single(): Node {
    Fresh(1, Plain, [Fresh(2, Leaf, [])])
  }

  /** The runs below start from trees that were never touched before. */
  lemma StartsAreGood()
    ensures Untouched(Single()) && Untouched(Nested())
    ensures Inv(Started(Single())) && Inv(Started(Nested()))
  {
    UntouchedIsGood(Single());
    UntouchedIsGood(Nested());
    EnqueueElementKeeps(Single(), false);
    EnqueueElementKeeps(Nested(), false);
    StartKeeps(EnqueueElement(Single(), false));
    StartKeeps(EnqueueElement(Nested(), false));
  }

  /** A Collection whose only element is a Collection of one leaf. */
  function Nested(): Node {
    Fresh(0, Plain, [Single()])
  }

  function Now(a: Act): TimedAct {
    TimedAct(a, [])
  }

  lemma Then(n: Node, a: Act, m: Node, acts: seq<TimedAct>)
    requires Enabled(n, a, []) && Next(n, a, []).0 == m && Runnable(m, acts)
    ensures Runnable(n, [Now(a)] + acts) && After(n, [Now(a)] + acts) == After(m, acts)
  {
    assert ([Now(a)] + acts)[1..] == acts;
  }

  /** An abort during the own run. */
  lemma LostByAbort()
    ensures var acts := [Now(RaiseFlag)] + ([Now(FinishRun)] + ([Now(EndRun)] + []));
      Runnable(Started(Single()), acts) && EndLost(After(Started(Single()), acts))
  {
    var n := Started(Single());
    var n1 := Next(n, RaiseFlag, []).0;
    var n2 := Next(n1, FinishRun, []).0;
    var n3 := Next(n2, EndRun, []).0;
    assert n3.skipped && n3.ph == Open && n3.kind == Plain;
    hide Next, Enabled;
    assert Enabled(n, RaiseFlag, []) && Enabled(n1, FinishRun, []) && Enabled(n2, EndRun, []);
    Then(n2, EndRun, n3, []);
    Then(n1, FinishRun, n2, [Now(EndRun)] + []);
    Then(n, RaiseFlag, n1, [Now(FinishRun)] + ([Now(EndRun)] + []));
  }

  /** Started, and its elements enqueued. */
  function OpenedUp(n: Node): Node
    requires n.ph.Executing? && !Sweeping(n)
  {
    Next(Next(n, FinishRun, []).0, EndRun, []).0
  }

  lemma OpensInTwo(n: Node, acts: seq<TimedAct>)
    requires n.ph.Executing? && !Sweeping(n) && Runnable(OpenedUp(n), acts)
    ensures var all := [Now(FinishRun)] + ([Now(EndRun)] + acts);
      Runnable(n, all) && After(n, all) == After(OpenedUp(n), acts)
  {
    var m := Next(n, FinishRun, []).0;
    Then(m, EndRun, OpenedUp(n), acts);
    Then(n, FinishRun, m, [Now(EndRun)] + acts);
  }

  lemma SingleOpens()
    ensures var n := OpenedUp(Started(Single()));
      && n.kind == Plain && n.ph == Open && n.led.api && n.sweep == Still && n.led.jobCounter == 1
      && |n.kids| == 1 && n.kids[0].ph == InQueue
  {
  }

  /** A stop that comes when the only element is queued. */
  lemma LostByStop()
    ensures var acts := [Now(FinishRun)] + ([Now(EndRun)] + ([Now(OutsideStop)] + ([Now(Sweep)] + [])));
      Runnable(Started(Single()), acts) && EndLost(After(Started(Single()), acts))
  {
    SingleOpens();
    var n := OpenedUp(Started(Single()));
    var n1 := Next(n, OutsideStop, []).0;
    var n2 := Next(n1, Sweep, []).0;
    assert n2.stranded && n2.ph == Open && n2.kind == Plain;
    Then(n1, Sweep, n2, []);
    Then(n, OutsideStop, n1, [Now(Sweep)] + []);
    OpensInTwo(Started(Single()), [Now(OutsideStop)] + ([Now(Sweep)] + []));
  }

  function Inside(acts: seq<TimedAct>): seq<TimedAct> {
    seq(|acts|, i requires 0 <= i < |acts| => TimedAct(In(0, acts[i].act), acts[i].deps))
  }

  /** What the element can do by itself, it can do inside. */
  lemma {:induction false} RunsInside(n: Node, acts: seq<TimedAct>)
    requires |n.kids| == 1 && Runnable(n.kids[0], acts)
    ensures Runnable(n, Inside(acts)) && After(n, Inside(acts)) == n.(kids := [After(n.kids[0], acts)])
    decreases |acts|
  {
    if acts != [] {
      var m := Next(n, In(0, acts[0].act), acts[0].deps).0;
      assert m == n.(kids := [Next(n.kids[0], acts[0].act, acts[0].deps).0]);
      RunsInside(m, acts[1..]);
      assert Inside(acts)[1..] == Inside(acts[1..]);
    } else {
      assert n.kids == [n.kids[0]];
    }
  }

  lemma NestedOpens()
    ensures var n := OpenedUp(Started(Nested()));
      && n.ph == Open && n.kind == Plain && !n.skipped && !n.stranded
      && |n.kids| == 1 && Enabled(n, TakeKid(0), []) && Next(n, TakeKid(0), []).0.kids == [Started(Single())]
  {
  }

  /** The end is lost, and not by an abort or a stop of the composite itself. */
  ghost predicate LosesBelow(n: Node, acts: seq<TimedAct>) {
    Runnable(n, acts) && var m := After(n, acts); EndLost(m) && !m.skipped && !m.stranded
  }

  /** The outer Collection loses its end when the inner one is stopped, with neither an abort nor a stop
      of its own. */
  lemma LostByElement()
    ensures exists acts :: LosesBelow(Started(Nested()), acts)
  {
    NestedOpens();
    LostByStop();
    NestedStarts();
    hide Started, Single, Nested, Next, OpenedUp, EndLost, Runnable, After;
    var n := OpenedUp(Started(Nested()));
    var inner := [Now(FinishRun)] + ([Now(EndRun)] + ([Now(OutsideStop)] + ([Now(Sweep)] + [])));
    LostInside(n, inner);
    OpensInTwo(Started(Nested()), [Now(TakeKid(0))] + Inside(inner));
    assert LosesBelow(Started(Nested()), [Now(FinishRun)] + ([Now(EndRun)] + ([Now(TakeKid(0))] + Inside(inner))));
  }

  lemma NestedStarts()
    ensures Started(Nested()).ph.Executing? && !Sweeping(Started(Nested()))
  {
  }

  lemma LostInside(n: Node, inner: seq<TimedAct>)
    requires n.ph == Open && n.kind == Plain && !n.skipped && !n.stranded && |n.kids| == 1
    requires Enabled(n, TakeKid(0), []) && Next(n, TakeKid(0), []).0.kids == [Started(Single())]
    requires Runnable(Started(Single()), inner) && EndLost(After(Started(Single()), inner))
    ensures LosesBelow(n, [Now(TakeKid(0))] + Inside(inner))
  {
    var m := Next(n, TakeKid(0), []).0;
    TakenStays(n);
    hide Next, Started, Single, Runnable, After, Enabled;
    RunsInside(m, inner);
    Then(n, TakeKid(0), m, Inside(inner));
    var k := After(Started(Single()), inner);
    assert m.(kids := [k]).kids[0] == k;
  }

  lemma TakenStays(n: Node)
    requires n.ph.Open? && |n.kids| == 1 && Enabled(n, TakeKid(0), [])
    ensures var m := Next(n, TakeKid(0), []).0;
      m.ph == n.ph && m.kind == n.kind && m.skipped == n.skipped && m.stranded == n.stranded
  {
  }
}
