/** Nested Sequences run like one sequential program. The reference is an interpreter that runs
    the parts of a plan one after the other and stops at the first one that does not succeed. */
module SequenceOrder {
  import opened JobStatus
  import opened CollectionLedger
  import opened CollectionTree
  import opened CollectionInvariant
  import opened CollectionForest
  import opened CollectionPlan

  // ---- The reference ----

  /** The status a plan ends with: that of the first part that does not succeed. */
  function RefStatus(p: Plan): Status
    decreases p, 1
  {
    if p.outcome != Success then p.outcome else RefStatusAll(p.parts)
  }

  function RefStatusAll(ps: seq<Plan>): Status
    decreases ps, 0
  {
    if ps == [] then Success
    else if RefStatus(ps[0]) != Success then RefStatus(ps[0])
    else RefStatusAll(ps[1..])
  }

  /** The runs that happen, in order. */
  function RefTrace(p: Plan): seq<nat>
    decreases p, 1
  {
    [p.id] + if p.outcome != Success then [] else RefTraceAll(p.parts)
  }

  function RefTraceAll(ps: seq<Plan>): seq<nat>
    decreases ps, 0
  {
    if ps == [] then []
    else RefTrace(ps[0]) + if RefStatus(ps[0]) != Success then [] else RefTraceAll(ps[1..])
  }

  // ---- What has run so far ----

  function Executed(n: Node): seq<nat>
    decreases n, 1
  {
    if Begun(n) then [n.id] + ExecutedAll(n.kids) else []
  }

  function ExecutedAll(ks: seq<Node>): seq<nat>
    decreases ks, 0
  {
    if ks == [] then [] else Executed(ks[0]) + ExecutedAll(ks[1..])
  }

  function Trace(n: Node, a: Act, d: Deps): seq<nat>
    requires Enabled(n, a, d)
  {
    match a
    case TakeKid(i) => [n.kids[i].id]
    case In(i, b) => Trace(n.kids[i], b, d)
    case _ => []
  }

  ghost predicate SequencesOnly(n: Node) {
    n.kind != Plain && forall i :: 0 <= i < |n.kids| ==> SequencesOnly(n.kids[i])
  }

  predicate EndedWell(k: Node) {
    k.ph.Ended? && k.led.status == Success
  }

  /** Parts before `c - 1` ended well; part `c - 1` (0 being the own run) ended with `s`. */
  ghost predicate FailedAt(n: Node, c: nat, s: Status) {
    && s.Bad() && c <= |n.kids|
    && if c == 0 then n.outcome == s && forall i :: 0 <= i < |n.kids| ==> !Begun(n.kids[i])
       else
         && n.outcome == Success
         && (forall i :: 0 <= i < c - 1 ==> EndedWell(n.kids[i]))
         && n.kids[c - 1].ph.Ended? && n.kids[c - 1].led.status == s
         && forall i :: c <= i < |n.kids| ==> !Begun(n.kids[i])
  }

  /** How far a Sequence has come, phase by phase. */
  ghost predicate Progress(n: Node) {
    var c := n.led.completed;
    if n.kind == Leaf then true
    else if n.ph.Open? then
      && n.outcome == Success && n.led.status == Running
      && 1 <= c <= |n.kids|
      && (forall i :: 0 <= i < c - 1 ==> EndedWell(n.kids[i]))
      && (forall i :: c <= i < |n.kids| ==> n.kids[i].ph.InQueue?)
      && (InFlight(n.kids[c - 1]) || n.kids[c - 1].ph.InQueue?)
    else if InWindow(n) then FailedAt(n, c, n.ph.failure)
    else if Finishing(n) then
      if n.led.status == Success
      then n.outcome == Success && forall i :: 0 <= i < |n.kids| ==> EndedWell(n.kids[i])
      else 1 <= c && FailedAt(n, c - 1, n.led.status)
    else true
  }

  ghost predicate Orderly(n: Node) {
    && Progress(n)
    && forall i :: 0 <= i < |n.kids| ==> Orderly(n.kids[i])
  }

  // ---- Where a run stands against the reference ----

  lemma {:induction false} Compare(ks: seq<Node>, ps: seq<Plan>, k: nat)
    requires |ks| == |ps| && k <= |ks|
    requires forall i :: 0 <= i < k ==> Executed(ks[i]) == RefTrace(ps[i]) && RefStatus(ps[i]) == Success
    requires forall i :: k < i < |ks| ==> Executed(ks[i]) == []
    ensures k == |ks| ==> ExecutedAll(ks) == RefTraceAll(ps) && RefStatusAll(ps) == Success
    ensures k < |ks| && Executed(ks[k]) <= RefTrace(ps[k]) ==> ExecutedAll(ks) <= RefTraceAll(ps)
    ensures k < |ks| && Executed(ks[k]) == RefTrace(ps[k]) && RefStatus(ps[k]) != Success ==>
      ExecutedAll(ks) == RefTraceAll(ps) && RefStatusAll(ps) == RefStatus(ps[k])
  {
    hide Executed, RefTrace, RefStatus;
    if k == 0 {
      if ks != [] { NoneExecuted(ks[1..]); }
    } else {
      assert forall i :: 0 <= i < k - 1 ==> Executed(ks[1..][i]) == RefTrace(ps[1..][i]);
      assert forall i :: k - 1 < i < |ks[1..]| ==> Executed(ks[1..][i]) == [];
      Compare(ks[1..], ps[1..], k - 1);
    }
  }

  lemma {:induction false} NoneExecuted(ks: seq<Node>)
    requires forall i :: 0 <= i < |ks| ==> Executed(ks[i]) == []
    ensures ExecutedAll(ks) == []
  {
    if ks != [] { NoneExecuted(ks[1..]); }
  }

  ghost predicate Sound(n: Node) {
    Inv(n) && Clean(n) && Orderly(n) && SequencesOnly(n)
  }

  lemma SoundKid(n: Node, i: nat)
    requires Sound(n) && i < |n.kids|
    ensures Sound(n.kids[i])
  {
  }

  /** A tree of Sequences that has ended ran exactly what the reference runs, and ended with
      the status of the reference. */
  lemma {:induction false} EndedMatches(n: Node)
    requires Sound(n) && Finishing(n)
    ensures Executed(n) == RefTrace(PlanOf(n)) && n.led.status == RefStatus(PlanOf(n))
    decreases n, 2
  {
    if n.kind == Sequential {
      if n.led.status == Success {
        AllWellMatches(n);
      } else {
        FailedMatches(n, n.led.completed - 1, n.led.status);
      }
    }
  }

  lemma {:induction false} EndedKidMatches(n: Node, i: nat)
    requires Sound(n) && i < |n.kids| && n.kids[i].ph.Ended?
    ensures Executed(n.kids[i]) == RefTrace(PlanOf(n).parts[i])
    ensures n.kids[i].led.status == RefStatus(PlanOf(n).parts[i])
    decreases n, 0
  {
    SoundKid(n, i);
    EndedMatches(n.kids[i]);
  }

  lemma {:induction false} AllWellMatches(n: Node)
    requires Sound(n) && Begun(n) && n.outcome == Success
    requires forall i :: 0 <= i < |n.kids| ==> EndedWell(n.kids[i])
    ensures Executed(n) == RefTrace(PlanOf(n)) && RefStatus(PlanOf(n)) == Success
    decreases n, 1
  {
    hide Sound;
    forall i | 0 <= i < |n.kids|
      ensures Executed(n.kids[i]) == RefTrace(PlanOf(n).parts[i]) && RefStatus(PlanOf(n).parts[i]) == Success
    {
      EndedKidMatches(n, i);
    }
    Compare(n.kids, PlanOf(n).parts, |n.kids|);
  }

  lemma {:induction false} FailedMatches(n: Node, c: nat, s: Status)
    requires Sound(n) && Begun(n) && FailedAt(n, c, s)
    ensures Executed(n) == RefTrace(PlanOf(n)) && RefStatus(PlanOf(n)) == s
    decreases n, 1
  {
    hide Sound;
    if c == 0 {
      NoneExecuted(n.kids);
    } else {
      forall i | 0 <= i < c
        ensures Executed(n.kids[i]) == RefTrace(PlanOf(n).parts[i])
        ensures RefStatus(PlanOf(n).parts[i]) == if i < c - 1 then Success else s
      {
        EndedKidMatches(n, i);
      }
      Compare(n.kids, PlanOf(n).parts, c - 1);
    }
  }

  lemma FreshKids(n: Node)
    requires n.kind != Leaf && Local(n) && BeforeOpen(n)
    ensures ExecutedAll(n.kids) == []
  {
    forall i | 0 <= i < |n.kids| ensures Executed(n.kids[i]) == [] {
      assert ClassOf(n.kids[i]) == Unborn;
    }
    NoneExecuted(n.kids);
  }

  lemma OpenUnfolds(p: Plan)
    ensures RefTrace(p) == [p.id] + if p.outcome != Success then [] else RefTraceAll(p.parts)
  {
  }

  lemma OpenIsPrefix(n: Node)
    requires Sound(n) && Progress(n) && n.kind != Leaf && n.ph.Open?
    requires var k := n.kids[n.led.completed - 1]; Executed(k) <= RefTrace(PlanOf(k))
    ensures Executed(n) <= RefTrace(PlanOf(n))
  {
    hide Inv, Clean, Orderly, SequencesOnly, RefStatus, RefTrace;
    var ps := PlanOf(n).parts;
    var c := n.led.completed;
    forall i | 0 <= i < c - 1 ensures Executed(n.kids[i]) == RefTrace(ps[i]) && RefStatus(ps[i]) == Success {
      SoundKid(n, i);
      EndedMatches(n.kids[i]);
    }
    Compare(n.kids, ps, c - 1);
    OpenUnfolds(PlanOf(n));
  }

  /** At every moment the runs so far are a prefix of the reference. */
  lemma {:induction false} ExecutedIsPrefix(n: Node)
    requires Sound(n)
    ensures Executed(n) <= RefTrace(PlanOf(n))
    decreases n
  {
    if Finishing(n) {
      EndedMatches(n);
    } else if n.kind != Leaf && Begun(n) {
      if BeforeOpen(n) {
        FreshKids(n);
      } else if InWindow(n) {
        FailedMatches(n, n.led.completed, n.ph.failure);
      } else {
        ExecutedIsPrefix(n.kids[n.led.completed - 1]);
        OpenIsPrefix(n);
      }
    }
  }

  // ---- Every step keeps the order ----

  lemma {:induction false} GrowAt(ks: seq<Node>, i: nat, k: Node, more: seq<nat>)
    requires i < |ks| && Executed(k) == Executed(ks[i]) + more
    requires forall j :: i < j < |ks| ==> Executed(ks[j]) == []
    ensures ExecutedAll(ks[i := k]) == ExecutedAll(ks) + more
  {
    if i == 0 {
      assert ks[i := k][1..] == ks[1..];
      NoneExecuted(ks[1..]);
    } else {
      assert ks[i := k][1..] == ks[1..][i - 1 := k];
      GrowAt(ks[1..], i - 1, k, more);
    }
  }

  lemma {:induction false} SameExecuted(ks: seq<Node>, js: seq<Node>)
    requires |ks| == |js| && forall i :: 0 <= i < |ks| ==> Executed(js[i]) == Executed(ks[i])
    ensures ExecutedAll(js) == ExecutedAll(ks)
  {
    if ks != [] { SameExecuted(ks[1..], js[1..]); }
  }

  /** The elements differ at most in queue flags that the order does not look at. */
  ghost predicate KidsInOrder(n: Node, m: Node) {
    && |m.kids| == |n.kids|
    && forall i :: 0 <= i < |n.kids| ==>
      && Executed(m.kids[i]) == Executed(n.kids[i])
      && (Orderly(n.kids[i]) ==> Orderly(m.kids[i]))
      && Begun(m.kids[i]) == Begun(n.kids[i])
      && (Begun(n.kids[i]) ==> m.kids[i].ph == n.kids[i].ph && m.kids[i].led.status == n.kids[i].led.status)
  }

  lemma RelabelInOrder(k: Node, m: Node)
    requires m.kids == k.kids && m.id == k.id && m.kind == k.kind && m.outcome == k.outcome
    requires Begun(m) == Begun(k)
    requires Begun(k) ==> m == k || m == k.(blocked := m.blocked)
    ensures Executed(m) == Executed(k) && (Orderly(k) ==> Orderly(m))
  {
  }

  lemma SweepKidsInOrder(n: Node, d: Deps)
    ensures KidsInOrder(n, SweepOn(n, d).0)
  {
    hide Executed, Orderly;
    if Sweeping(n) && n.sweep.i < |n.kids| {
      var k := n.kids[n.sweep.i];
      WithdrawElementInOrder(k);
      RelabelInOrder(k, k.(blocked := false));
      WithdrawnBegun(k);
    }
    hide WithdrawElement, Begun, Free, FinalCleanup;
  }

  lemma WithdrawnBegun(k: Node)
    ensures Begun(k) ==> WithdrawElement(k) == k
    ensures Begun(k.(blocked := false)) == Begun(k)
  {
  }

  lemma WithdrawElementInOrder(k: Node)
    ensures var m := WithdrawElement(k);
      && Executed(m) == Executed(k) && (Orderly(k) ==> Orderly(m)) && (Begun(m) <==> Begun(k))
  {
    RelabelInOrder(k, WithdrawElement(k));
  }

  lemma EnqueueInOrder(n: Node)
    requires AllKids(n, Unborn)
    ensures KidsInOrder(n, EnqueueElements(n))
  {
  }

  lemma AdvanceInOrder(n: Node)
    ensures KidsInOrder(n, Advance(n))
  {
    if n.kind == Sequential && n.led.completed < |n.kids| {
      var k := n.kids[n.led.completed];
      RelabelInOrder(k, k.(blocked := false));
    }
  }

  lemma InOrderExecuted(n: Node, m: Node)
    requires KidsInOrder(n, m)
    ensures ExecutedAll(m.kids) == ExecutedAll(n.kids)
  {
    SameExecuted(n.kids, m.kids);
  }

  lemma InOrderKeeps(n: Node, m: Node)
    requires Orderly(n) && KidsInOrder(n, m) && m.id == n.id && Progress(m) && Begun(m) && Begun(n)
    ensures Orderly(m) && Executed(m) == Executed(n)
  {
    InOrderExecuted(n, m);
  }

  lemma EndRunKids(n: Node, d: Deps)
    requires Sound(n) && n.ph.RunDone? && !Sweeping(n) && n.kind != Leaf
    ensures KidsInOrder(n, Next(n, EndRun, d).0)
  {
    hide Orderly, Executed, ExecutedAll, Progress, Count, Frontier;
    EnqueueInOrder(n);
    AdvanceInOrder(SetStatus(EnqueueElements(n), UpdatedStatus(n.led.status)));
  }

  lemma EndRunProgress(n: Node, d: Deps)
    requires Sound(n) && n.ph.RunDone? && !Sweeping(n) && n.kind != Leaf
    ensures var m := Next(n, EndRun, d).0; Progress(m) && Begun(m) && m.id == n.id
  {
    hide Executed, ExecutedAll, Count, Frontier;
  }

  lemma EndRunInOrder(n: Node, d: Deps)
    requires Sound(n) && n.ph.RunDone? && !Sweeping(n)
    ensures Orderly(Next(n, EndRun, d).0) && Executed(Next(n, EndRun, d).0) == Executed(n)
  {
    var m := Next(n, EndRun, d).0;
    if n.kind == Leaf {
      assert m.kids == n.kids;
    } else {
      hide Next, KidsInOrder, Progress, Executed, ExecutedAll, Inv, Clean, SequencesOnly, Orderly;
      EndRunKids(n, d);
      EndRunProgress(n, d);
      InOrderKeeps(n, m);
    }
  }

  lemma StopInOrder(n: Node, d: Deps)
    requires Sound(n) && n.ph.StopDue? && !Sweeping(n)
    ensures Orderly(Next(n, StopInWindow, d).0) && Executed(Next(n, StopInWindow, d).0) == Executed(n)
  {
    hide Clean, SequencesOnly, Executed, ExecutedAll, Frontier, Count;
    var m := Next(n, StopInWindow, d).0;
    assert FailedAt(m, n.led.completed, n.ph.failure);
    InOrderKeeps(n, m);
  }

  lemma SweepInOrder(n: Node, d: Deps)
    requires Sound(n) && Sweeping(n)
    ensures Orderly(SweepOn(n, d).0) && Executed(SweepOn(n, d).0) == Executed(n)
  {
    hide SequencesOnly, Executed, ExecutedAll, Frontier, Count, Orderly;
    var m := SweepOn(n, d).0;
    SweepIsOwn(n);
    SweepKidsInOrder(n, d);
    FailureStays(n, d);
    hide Inv, Clean;
    InOrderKeeps(n, m);
  }

  lemma FailureStays(n: Node, d: Deps)
    requires Sound(n) && n.ph.StopDue? && Sweeping(n)
    ensures Progress(SweepOn(n, d).0)
  {
    hide Clean, SequencesOnly, Frontier, Count;
    assert FailedAt(n, n.led.completed, n.ph.failure);
    assert FailedAt(SweepOn(n, d).0, n.led.completed, n.ph.failure);
  }

  lemma AfterWindowProgress(n: Node, d: Deps)
    requires Local(n) && Progress(n) && n.ph.StopDone? && !Sweeping(n) && !n.skipped && !n.led.shouldAbort
    ensures Progress(Next(n, AfterWindow, d).0)
  {
    hide Count, Frontier, OpenFrontier, Free, SweepOk, LocalBefore, Resting, Done;
    var m := Next(n, AfterWindow, d).0;
    assert m.ph.Ending? && m.led.status == n.ph.failure;
  }

  lemma AfterWindowKids(n: Node, d: Deps)
    requires n.ph.StopDone? && !Sweeping(n)
    ensures var m := Next(n, AfterWindow, d).0; KidsInOrder(n, m) && Begun(m) && m.id == n.id
  {
    hide Orderly, Executed, ExecutedAll;
    AdvanceInOrder(SetStatus(n, n.ph.failure));
  }

  lemma AfterWindowInOrder(n: Node, d: Deps)
    requires Sound(n) && n.ph.StopDone? && !Sweeping(n)
    ensures Orderly(Next(n, AfterWindow, d).0) && Executed(Next(n, AfterWindow, d).0) == Executed(n)
  {
    hide Next, Count, Frontier, Executed, ExecutedAll, KidsInOrder, Progress, SequencesOnly;
    AfterWindowKids(n, d);
    AfterWindowProgress(n, d);
    InOrderKeeps(n, Next(n, AfterWindow, d).0);
  }

  lemma ReplaceInOrder(n: Node, i: nat, k: Node, more: seq<nat>)
    requires Sound(n) && n.kind == Sequential && n.ph.Open? && i == n.led.completed - 1
    requires InFlight(k) && Orderly(k) && Executed(k) == Executed(n.kids[i]) + more
    ensures Orderly(n.(kids := n.kids[i := k])) && Executed(n.(kids := n.kids[i := k])) == Executed(n) + more
  {
    var m := n.(kids := n.kids[i := k]);
    GrowAt(n.kids, i, k, more);
    assert Progress(m);
    assert forall j :: 0 <= j < |m.kids| ==> Orderly(m.kids[j]);
    assert [n.id] + (ExecutedAll(n.kids) + more) == [n.id] + ExecutedAll(n.kids) + more;
  }

  lemma StartInOrder(k: Node)
    requires Local(k) && Orderly(k) && k.ph.InQueue?
    ensures Orderly(StartNode(k)) && Executed(k) == [] && Executed(StartNode(k)) == [k.id]
  {
    if k.kind != Leaf { FreshKids(k); }
    assert StartNode(k).kids == k.kids;
  }

  lemma TakeKidInOrder(n: Node, i: nat, d: Deps)
    requires Sound(n) && Enabled(n, TakeKid(i), d)
    ensures Orderly(Next(n, TakeKid(i), d).0)
    ensures Executed(Next(n, TakeKid(i), d).0) == Executed(n) + [n.kids[i].id]
  {
    hide Count, Executed, ExecutedAll;
    var k := n.kids[i];
    assert ClassOf(k) == Waiting && n.ph.Open? && n.kind == Sequential && i == n.led.completed - 1;
    assert Inv(k) && Orderly(k);
    StartInOrder(k);
    ReplaceInOrder(n, i, StartNode(k), [k.id]);
    var m := n.(kids := n.kids[i := StartNode(k)]);
    InOrderKeeps(m, ElementStarted(m));
  }

  /** The counter reaches its last part exactly at the last element. */
  lemma KidEndCounter(n: Node, i: nat)
    requires Local(n) && Progress(n) && n.ph.Open? && n.kind == Sequential && !n.skipped
    requires i < |n.kids| && i == n.led.completed - 1 && n.kids[i].ph.Ending?
    ensures n.led.jobCounter == 1 <==> n.led.completed == |n.kids|
  {
    var c := n.led.completed;
    var k := n.kids[i].(ph := Ended);
    var ks := n.kids[i := k];
    CountUpdate(Waiting, n.kids, i, k);
    CountUpdate(Flying, n.kids, i, k);
    CountZero(Flying, ks);
    CountZero(Waiting, ks);
    assert forall j :: c <= j < |ks| ==> ks[j].ph.InQueue?;
    assert forall j :: 0 <= j < c ==> ClassOf(ks[j]) == Over;
    if c < |ks| { assert ClassOf(ks[c]) == Waiting; }
  }

  lemma GoodKidEndProgress(n: Node, i: nat, d: Deps)
    requires !Sweeping(n)
    requires Local(n) && Progress(n) && n.ph.Open? && n.kind == Sequential && !n.skipped && !n.led.shouldAbort
    requires i < |n.kids| && i == n.led.completed - 1 && n.kids[i].ph.Ending? && n.kids[i].led.status == Success
    ensures Progress(Next(n, KidEnd(i), d).0)
  {
    KidEndCounter(n, i);
  }

  lemma BadKidEndProgress(n: Node, i: nat, d: Deps)
    requires !Sweeping(n)
    requires Progress(n) && n.ph.Open? && n.kind == Sequential
    requires i < |n.kids| && i == n.led.completed - 1 && n.kids[i].ph.Ending? && n.kids[i].led.status.Bad()
    ensures Progress(Next(n, KidEnd(i), d).0)
  {
    var m := Next(n, KidEnd(i), d).0;
    assert FailedAt(m, n.led.completed, n.kids[i].led.status);
  }

  lemma PartCompletedInOrder(n: Node, s: Status, d: Deps)
    ensures KidsInOrder(n, PartCompleted(n, s, d).0)
  {
    hide Orderly, Executed, ExecutedAll;
    var m := SetStatus(n, UpdatedStatus(s));
    AdvanceInOrder(m);
    assert KidsInOrder(n, m);
  }

  lemma EndKidInOrder(n: Node, i: nat, ks: seq<Node>)
    requires i < |n.kids| && n.kids[i].ph.Ending? && ks == n.kids[i := n.kids[i].(ph := Ended)]
    requires forall j :: 0 <= j < |n.kids| ==> Orderly(n.kids[j])
    ensures ExecutedAll(ks) == ExecutedAll(n.kids)
    ensures forall j :: 0 <= j < |ks| ==> Orderly(ks[j])
  {
    EndedInOrder(n.kids[i]);
    hide Executed, ExecutedAll, Orderly;
    SameExecuted(n.kids, ks);
  }

  lemma EndedInOrder(k: Node)
    requires k.ph.Ending?
    ensures Executed(k.(ph := Ended)) == Executed(k) && (Orderly(k) ==> Orderly(k.(ph := Ended)))
  {
    hide ExecutedAll;
  }

  lemma KidEndKids(n: Node, i: nat, d: Deps)
    requires forall j :: 0 <= j < |n.kids| ==> Orderly(n.kids[j])
    requires Enabled(n, KidEnd(i), d)
    ensures ExecutedAll(Next(n, KidEnd(i), d).0.kids) == ExecutedAll(n.kids)
    ensures forall j :: 0 <= j < |n.kids| ==> Orderly(Next(n, KidEnd(i), d).0.kids[j])
  {
    var e := n.(kids := n.kids[i := n.kids[i].(ph := Ended)]);
    EndKidInOrder(n, i, e.kids);
    PartCompletedInOrder(e, n.kids[i].led.status, d);
    InOrderExecuted(e, Next(n, KidEnd(i), d).0);
  }

  lemma KidEndInOrder(n: Node, i: nat, d: Deps)
    requires Sound(n) && Enabled(n, KidEnd(i), d)
    ensures Orderly(Next(n, KidEnd(i), d).0)
    ensures Executed(Next(n, KidEnd(i), d).0) == Executed(n)
  {
    hide Count, Frontier;
    KidEndKeeps(n, i, d);
    FlyingIsCurrent(n, i);
    assert Inv(n.kids[i]);
    if n.kids[i].led.status == Success {
      GoodKidEndProgress(n, i, d);
    } else {
      BadKidEndProgress(n, i, d);
    }
    KidEndKids(n, i, d);
  }

  lemma FlyingIsCurrent(n: Node, i: nat)
    requires Local(n) && i < |n.kids| && InFlight(n.kids[i]) && n.kind != Plain
    ensures n.kind == Sequential && n.ph.Open? && !n.skipped && i == n.led.completed - 1
  {
  }

  /** Every step keeps the order, and extends the runs by exactly the job it takes. */
  lemma {:induction false} StepInOrder(n: Node, a: Act, d: Deps)
    requires Sound(n) && Enabled(n, a, d) && Internal(a)
    ensures Orderly(Next(n, a, d).0)
    ensures Executed(Next(n, a, d).0) == Executed(n) + Trace(n, a, d)
    decreases a
  {
    hide Local, Clean;
    match a
    case FinishRun => assert Next(n, a, d).0.kids == n.kids;
    case EndRun => EndRunInOrder(n, d);
    case StopInWindow => StopInOrder(n, d);
    case AfterWindow => AfterWindowInOrder(n, d);
    case Sweep => SweepInOrder(n, d);
    case TakeKid(i) => TakeKidInOrder(n, i, d);
    case KidEnd(i) => KidEndInOrder(n, i, d);
    case In(i, b) =>
      SoundKid(n, i);
      StepInOrder(n.kids[i], b, d);
      ActsInFlight(n.kids[i], b, d);
      StaysInFlight(n.kids[i], b, d);
      FlyingIsCurrent(n, i);
      ReplaceInOrder(n, i, Next(n.kids[i], b, d).0, Trace(n.kids[i], b, d));
  }

  // ---- Whole runs ----

  /** What the runs of root `i` add at one step of the forest. */
  function TraceOf(f: Forest, g: GlobalAct, i: nat): seq<nat>
    requires CanStep(f, g) && i < |f.roots|
  {
    match g
    case Take(j) => if j == i then [f.roots[i].id] else []
    case Inside(j, a) => if j == i then Trace(f.roots[i], a, f.deps) else []
    case _ => []
  }

  ghost function RunTrace(f: Forest, gs: seq<GlobalAct>, i: nat): seq<nat>
    requires Possible(f, gs) && i < |f.roots|
    decreases |gs|
  {
    if gs == [] then [] else TraceOf(f, gs[0], i) + RunTrace(Step(f, gs[0]), gs[1..], i)
  }

  lemma {:induction false} StepKind(n: Node, m: Node)
    requires SequencesOnly(n) && PlanOf(m) == PlanOf(n)
    ensures SequencesOnly(m)
    decreases n
  {
    assert |m.kids| == |PlanOf(m).parts| == |n.kids|;
    forall i | 0 <= i < |m.kids| ensures SequencesOnly(m.kids[i]) {
      assert PlanOf(m.kids[i]) == PlanOf(m).parts[i] == PlanOf(n.kids[i]);
      StepKind(n.kids[i], m.kids[i]);
    }
  }

  lemma {:induction false} UntouchedIsOrderly(n: Node)
    requires Untouched(n)
    ensures Orderly(n) && Executed(n) == []
    decreases n
  {
    forall i | 0 <= i < |n.kids| ensures Orderly(n.kids[i]) {
      UntouchedIsOrderly(n.kids[i]);
    }
  }

  /** The tree moves on soundly, its runs growing by `more`. */
  ghost predicate MovesOn(n: Node, m: Node, more: seq<nat>) {
    Sound(m) && PlanOf(m) == PlanOf(n) && Executed(m) == Executed(n) + more
  }

  lemma SubmitMovesOn(n: Node)
    requires Sound(n) && n.ph.Idle?
    ensures MovesOn(n, EnqueueElement(n, false), [])
  {
  }

  lemma TakeMovesOn(n: Node)
    requires Sound(n) && n.ph.InQueue? && !n.blocked
    ensures MovesOn(n, StartNode(n), [n.id])
  {
    var m := StartNode(n);
    StartKeeps(n);
    RelabelKid(n, m);
    SamePlan(n, m);
    StepKind(n, m);
    if n.kind != Leaf { FreshKids(n); }
    assert Orderly(m) by { assert m.kids == n.kids; }
  }

  lemma InsideMovesOn(n: Node, a: Act, d: Deps)
    requires Sound(n) && Enabled(n, a, d) && Internal(a)
    ensures MovesOn(n, Next(n, a, d).0, Trace(n, a, d))
  {
    StepKeeps(n, a, d);
    StepHolders(n, a, d);
    StepInOrder(n, a, d);
    StepPlan(n, a, d);
    StepKind(n, Next(n, a, d).0);
  }

  lemma FinishMovesOn(n: Node)
    requires Sound(n) && n.ph.Ending?
    ensures MovesOn(n, n.(ph := Ended), [])
  {
  }

  /** One step of the forest, seen from root `i`. */
  lemma ForestStepInOrder(f: Forest, g: GlobalAct, i: nat)
    requires i < |f.roots| && Sound(f.roots[i]) && CanStep(f, g)
    ensures MovesOn(f.roots[i], Step(f, g).roots[i], TraceOf(f, g, i))
  {
    var n := f.roots[i];
    if !g.ComeBack? && g.i == i {
      match g
      case Submit(_) => SubmitMovesOn(n);
      case Take(_) => TakeMovesOn(n);
      case Inside(_, a) => InsideMovesOn(n, a, f.deps);
      case Finish(_) => FinishMovesOn(n);
    }
  }

  lemma {:induction false} RunInOrder(f: Forest, gs: seq<GlobalAct>, i: nat)
    requires i < |f.roots| && Sound(f.roots[i]) && Possible(f, gs)
    ensures |Reach(f, gs).roots| == |f.roots|
    ensures MovesOn(f.roots[i], Reach(f, gs).roots[i], RunTrace(f, gs, i))
    decreases |gs|
  {
    hide Inv, Clean, Orderly, SequencesOnly;
    if gs != [] {
      ForestStepInOrder(f, gs[0], i);
      RunInOrder(Step(f, gs[0]), gs[1..], i);
    }
  }

  /** Any tree of Sequences, with any number of threads, any interleaving and any other trees and
      dependencies around it: its runs are a prefix of the reference, and once it has ended they
      are the whole reference and its status is that of the reference. */
  lemma SequencesRunInOrder(f: Forest, gs: seq<GlobalAct>, i: nat)
    requires Initial(f) && Possible(f, gs) && i < |f.roots| && SequencesOnly(f.roots[i])
    ensures RunTrace(f, gs, i) <= RefTrace(PlanOf(f.roots[i]))
    ensures |Reach(f, gs).roots| == |f.roots|
    ensures Finishing(Reach(f, gs).roots[i]) ==>
      && RunTrace(f, gs, i) == RefTrace(PlanOf(f.roots[i]))
      && Reach(f, gs).roots[i].led.status == RefStatus(PlanOf(f.roots[i]))
  {
    UntouchedIsGood(f.roots[i]);
    UntouchedIsOrderly(f.roots[i]);
    RunInOrder(f, gs, i);
    var m := Reach(f, gs).roots[i];
    ExecutedIsPrefix(m);
    if Finishing(m) { EndedMatches(m); }
  }

  // ---- The reference and the flattening ----

  ghost predicate AllSucceed(p: Plan) {
    p.outcome == Success && forall i :: 0 <= i < |p.parts| ==> AllSucceed(p.parts[i])
  }

  /** The reference never leaves the flattening; it covers all of it when nothing fails; and its
      status is success exactly when nothing fails. */
  lemma {:induction false} ReferenceFollowsFlattening(p: Plan)
    ensures RefTrace(p) <= Flatten(p)
    ensures RefStatus(p) == Success <==> AllSucceed(p)
    ensures AllSucceed(p) ==> RefTrace(p) == Flatten(p)
    decreases p, 1
  {
    ReferenceFollowsAll(p.parts);
  }

  lemma {:induction false} ReferenceFollowsAll(ps: seq<Plan>)
    ensures RefTraceAll(ps) <= FlattenAll(ps)
    ensures RefStatusAll(ps) == Success <==> forall i :: 0 <= i < |ps| ==> AllSucceed(ps[i])
    ensures RefStatusAll(ps) == Success ==> RefTraceAll(ps) == FlattenAll(ps)
    decreases ps, 0
  {
    if ps != [] {
      ReferenceFollowsFlattening(ps[0]);
      ReferenceFollowsAll(ps[1..]);
      assert forall i :: 1 <= i < |ps| ==> ps[i] == ps[1..][i - 1];
      assert forall i :: 0 <= i < |ps[1..]| ==> ps[1..][i] == ps[i + 1];
    }
  }

  /** The outcomes of the runs, in the order of the flattening. */
  function Outcomes(p: Plan): seq<Status>
    decreases p, 1
  {
    [p.outcome] + OutcomesOfAll(p.parts)
  }

  function OutcomesOfAll(ps: seq<Plan>): seq<Status>
    decreases ps, 0
  {
    if ps == [] then [] else Outcomes(ps[0]) + OutcomesOfAll(ps[1..])
  }

  /** Where the first outcome is that is not a success. */
  function FirstBad(os: seq<Status>): (k: nat)
    ensures k <= |os| && (k < |os| ==> os[k] != Success)
    ensures forall i :: 0 <= i < k ==> os[i] == Success
  {
    if os == [] || os[0] != Success then 0 else 1 + FirstBad(os[1..])
  }

  /** The runs up to that one, and the status it leaves. */
  ghost predicate StopsThere(trace: seq<nat>, status: Status, flat: seq<nat>, os: seq<Status>) {
    var k := FirstBad(os);
    && |flat| == |os|
    && if k < |os| then trace == flat[..k + 1] && status == os[k] else trace == flat && status == Success
  }

  lemma FirstBadIs(os: seq<Status>, k: nat)
    requires k <= |os| && (k < |os| ==> os[k] != Success) && forall i :: 0 <= i < k ==> os[i] == Success
    ensures FirstBad(os) == k
  {
  }

  lemma StopsInBoth(t: seq<nat>, s: Status, f: seq<nat>, os: seq<Status>, t2: seq<nat>, s2: Status, f2: seq<nat>,
      os2: seq<Status>)
    requires StopsThere(t, s, f, os) && StopsThere(t2, s2, f2, os2)
    ensures StopsThere(t + if s != Success then [] else t2, if s != Success then s else s2, f + f2, os + os2)
  {
    var k, k2 := FirstBad(os), FirstBad(os2);
    if k < |os| {
      FirstBadIs(os + os2, k);
      assert (f + f2)[..k + 1] == f[..k + 1] && t + [] == t;
    } else {
      FirstBadIs(os + os2, k + k2);
      if k2 < |os2| { assert (f + f2)[..k + k2 + 1] == f + f2[..k2 + 1]; }
    }
  }

  /** The reference stops exactly at the first run of the flattening that does not succeed, and ends with
      the status of that run; so, once it has ended, does every tree of Sequences. */
  lemma {:induction false} StopsAtFirstFailure(p: Plan)
    ensures StopsThere(RefTrace(p), RefStatus(p), Flatten(p), Outcomes(p))
    decreases p, 1
  {
    hide StopsThere;
    StopsAtFirstOfAll(p.parts);
    OneRun(p.id, p.outcome);
    StopsInBoth([p.id], p.outcome, [p.id], [p.outcome],
                RefTraceAll(p.parts), RefStatusAll(p.parts), FlattenAll(p.parts), OutcomesOfAll(p.parts));
  }

  lemma OneRun(id: nat, s: Status)
    ensures StopsThere([id], s, [id], [s])
  {
    FirstBadIs([s], if s == Success then 1 else 0);
    assert [id][..1] == [id];
  }

  lemma {:induction false} StopsAtFirstOfAll(ps: seq<Plan>)
    ensures StopsThere(RefTraceAll(ps), RefStatusAll(ps), FlattenAll(ps), OutcomesOfAll(ps))
    decreases ps, 0
  {
    if ps != [] {
      hide StopsThere;
      StopsAtFirstFailure(ps[0]);
      StopsAtFirstOfAll(ps[1..]);
      StopsInBoth(RefTrace(ps[0]), RefStatus(ps[0]), Flatten(ps[0]), Outcomes(ps[0]),
                  RefTraceAll(ps[1..]), RefStatusAll(ps[1..]), FlattenAll(ps[1..]), OutcomesOfAll(ps[1..]));
    }
  }
}
