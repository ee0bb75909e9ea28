/** Collections always come to their end: without dependencies to wait for and without stops from
    outside, every run is finite, and it can only stop once every tree has ended. */
module CollectionProgress {
  import opened JobStatus
  import opened CollectionLedger
  import opened CollectionTree
  import opened CollectionInvariant
  import opened CollectionForest
  import opened CollectionBarrier
  import opened CollectionResults
  import opened CollectionLoss
  import D = DependencyMap

  /** An Open composite whose elements an abort kept out of the queue has nothing more to do. */
  function Rank(n: Node): nat {
    match n.ph
    case Idle => 9
    case InQueue => 8
    case Executing => 7
    case RunDone => 6
    case Open => if n.skipped then 2 else 5
    case StopDue(_) => 4
    case StopDone(_) => 3
    case Ending => 2
    case Ended => 1
    case Withdrawn => 0
  }

  /** The rounds of the sweep that is under way, and those of the one that a Sequence may still perform
      on itself. */
  function Rounds(n: Node): nat {
    RoundsLeft(n) + if Rank(n) < 4 || (Sweeping(n) && n.sweep.own) then 0 else 2 * |n.kids| + 2
  }

  /** The steps that can still lie ahead of a tree by itself. */
  function Work(n: Node): nat
    decreases n, 1
  {
    Rank(n) + Rounds(n) + WorkOf(n.kids)
  }

  function WorkOf(ks: seq<Node>): nat
    decreases ks, 0
  {
    if ks == [] then 0 else Work(ks[0]) + WorkOf(ks[1..])
  }

  lemma {:induction false} WorkUpdate(ks: seq<Node>, i: nat, k: Node)
    requires i < |ks|
    ensures WorkOf(ks[i := k]) + Work(ks[i]) == WorkOf(ks) + Work(k)
  {
    if i == 0 {
      assert ks[i := k][1..] == ks[1..];
    } else {
      assert ks[i := k][1..] == ks[1..][i - 1 := k];
      WorkUpdate(ks[1..], i - 1, k);
    }
  }

  lemma {:induction false} LessWork(ks: seq<Node>, js: seq<Node>)
    requires |ks| == |js| && forall i :: 0 <= i < |ks| ==> Work(js[i]) <= Work(ks[i])
    ensures WorkOf(js) <= WorkOf(ks)
  {
    if ks != [] { LessWork(ks[1..], js[1..]); }
  }

  lemma EnqueueWork(n: Node)
    requires AllKids(n, Unborn)
    ensures WorkOf(EnqueueElements(n).kids) <= WorkOf(n.kids)
  {
    assert forall i :: 0 <= i < |n.kids| ==> ClassOf(n.kids[i]) == Unborn;
    LessWork(n.kids, EnqueueElements(n).kids);
  }

  lemma AdvanceWork(n: Node)
    ensures WorkOf(Advance(n).kids) <= WorkOf(n.kids)
  {
    LessWork(n.kids, Advance(n).kids);
  }

  lemma PartCompletedWork(n: Node, s: Status, d: Deps)
    requires !Sweeping(n)
    ensures WorkOf(PartCompleted(n, s, d).0.kids) <= WorkOf(n.kids)
    ensures Rank(PartCompleted(n, s, d).0) <= 5 && Rounds(PartCompleted(n, s, d).0) <= 2 * |n.kids| + 2
  {
    hide Work, WorkOf;
    AdvanceWork(SetStatus(n, UpdatedStatus(s)));
  }

  lemma OwnWork(n: Node)
    ensures Work(n) == Rank(n) + Rounds(n) + WorkOf(n.kids)
  {
  }

  lemma StartWork(k: Node)
    requires k.ph.InQueue?
    ensures Work(StartNode(k)) < Work(k)
  {
    OwnWork(k);
    OwnWork(StartNode(k));
    hide Work, WorkOf;
  }

  lemma EndWork(k: Node)
    requires k.ph.Ending?
    ensures Work(k.(ph := Ended)) < Work(k)
  {
    OwnWork(k);
    OwnWork(k.(ph := Ended));
    hide Work, WorkOf;
  }

  lemma WithdrawWork(k: Node)
    ensures Work(WithdrawElement(k)) <= Work(k)
  {
    OwnWork(k);
    OwnWork(WithdrawElement(k));
    hide Work, WorkOf;
  }

  lemma UnblockWork(k: Node)
    ensures Work(k.(blocked := false)) == Work(k)
  {
    OwnWork(k);
    OwnWork(k.(blocked := false));
    hide Work, WorkOf;
  }

  lemma TakeKidWork(n: Node, i: nat, d: Deps)
    requires Enabled(n, TakeKid(i), d)
    ensures Work(Next(n, TakeKid(i), d).0) < Work(n)
  {
    var k := StartNode(n.kids[i]);
    WorkUpdate(n.kids, i, k);
    StartWork(n.kids[i]);
    var m := n.(kids := n.kids[i := k]);
    hide Work, WorkOf, StartNode;
    StartedWork(n, m);
    StartedWork(n, ElementStarted(m));
  }

  lemma StartedWork(n: Node, m: Node)
    requires m.ph == n.ph && m.skipped == n.skipped && m.sweep == n.sweep && |m.kids| == |n.kids|
    ensures Work(m) - WorkOf(m.kids) == Work(n) - WorkOf(n.kids)
  {
    hide WorkOf;
  }

  lemma KidEndWork(n: Node, i: nat, d: Deps)
    requires Enabled(n, KidEnd(i), d) && n.ph.Open? && !n.skipped
    ensures Work(Next(n, KidEnd(i), d).0) < Work(n)
  {
    var k := n.kids[i].(ph := Ended);
    WorkUpdate(n.kids, i, k);
    EndWork(n.kids[i]);
    hide WorkOf, PartCompleted;
    PartCompletedWork(n.(kids := n.kids[i := k]), n.kids[i].led.status, d);
    OwnWork(n);
    OwnWork(Next(n, KidEnd(i), d).0);
  }

  lemma AfterWindowWork(n: Node, d: Deps)
    requires Inv(n) && n.ph.StopDone? && !Sweeping(n)
    ensures Work(Next(n, AfterWindow, d).0) < Work(n)
  {
    hide Inv, Work, WorkOf, Advance, Next;
    var m := Next(n, AfterWindow, d).0;
    AdvanceWork(SetStatus(n, n.ph.failure));
    WindowClosed(n);
    AfterWindowShape(n, d);
    OwnWork(n);
    OwnWork(m);
  }

  lemma AfterWindowShape(n: Node, d: Deps)
    requires n.ph.StopDone? && !Sweeping(n) && (n.skipped || n.led.jobCounter == 1) && n.kind == Sequential
    ensures var m := Next(n, AfterWindow, d).0;
      && (m.ph.Ending? || (m.ph.Open? && m.skipped)) && !Sweeping(m)
      && m.kids == Advance(SetStatus(n, n.ph.failure)).kids
  {
    hide Free, FinalCleanup;
  }

  lemma WindowClosed(n: Node)
    requires Inv(n) && n.ph.StopDone?
    ensures n.kind == Sequential && (n.skipped || n.led.jobCounter == 1)
  {
    if !n.skipped { NothingFlies(n); }
  }

  lemma EndRunWork(n: Node, d: Deps)
    requires Inv(n) && n.ph.RunDone? && !Sweeping(n)
    ensures Work(Next(n, EndRun, d).0) < Work(n)
  {
    hide WorkOf, Rounds;
    if n.kind != Leaf {
      EnqueueWork(n);
      var m := if n.led.shouldAbort then n.(skipped := true) else EnqueueElements(n);
      PartCompletedWork(m, n.led.status, d);
    }
    RoundsOfRun(n, Next(n, EndRun, d).0);
  }

  lemma RoundsOfRun(n: Node, m: Node)
    requires n.ph.RunDone? && !Sweeping(n) && |m.kids| == |n.kids| && !Sweeping(m)
    ensures Rounds(m) <= Rounds(n)
  {
  }

  lemma SweptKidsWork(n: Node, d: Deps)
    requires Sweeping(n)
    ensures WorkOf(SweepOn(n, d).0.kids) <= WorkOf(n.kids)
  {
    if n.sweep.i < |n.kids| {
      var k := n.kids[n.sweep.i];
      WorkUpdate(n.kids, n.sweep.i, WithdrawElement(k));
      WorkUpdate(n.kids, n.sweep.i, k.(blocked := false));
      WithdrawWork(k);
      UnblockWork(k);
    }
    hide Work, WorkOf, WithdrawElement;
  }

  lemma SweptRounds(n: Node, d: Deps)
    requires Sweeping(n) && Swept(n) <= |n.kids| && (n.sweep.own ==> n.ph.StopDue?)
    ensures Rank(SweepOn(n, d).0) + Rounds(SweepOn(n, d).0) < Rank(n) + Rounds(n)
  {
    hide WithdrawElement, Free, FinalCleanup;
  }

  lemma SweepWork(n: Node, d: Deps)
    requires Inv(n) && Sweeping(n)
    ensures Work(SweepOn(n, d).0) < Work(n)
  {
    SelfLocal(n);
    SweptInRange(n);
    SweepPhases(n);
    SweptKidsWork(n, d);
    SweptRounds(n, d);
    OwnWork(n);
    OwnWork(SweepOn(n, d).0);
    hide Inv, Local, Work, WorkOf, Rank, Rounds, SweepOn;
  }

  lemma SweepPhases(n: Node)
    requires Local(n) && Sweeping(n)
    ensures InFlight(n) && (n.sweep.own ==> n.ph.StopDue?)
  {
  }

  /** Every step inside a tree uses up work, whatever stops and aborts it has seen. */
  lemma {:induction false} StepWork(n: Node, a: Act, d: Deps)
    requires Inv(n) && Enabled(n, a, d) && Internal(a)
    ensures Work(Next(n, a, d).0) < Work(n)
    decreases a
  {
    hide Work, WorkOf, Local;
    match a
    case FinishRun => FinishRunWork(n, d);
    case EndRun => EndRunWork(n, d);
    case StopInWindow => StopInWindowWork(n, d);
    case AfterWindow => AfterWindowWork(n, d);
    case TakeKid(i) => TakeKidWork(n, i, d);
    case KidEnd(i) =>
      assert Inv(n.kids[i]);
      ParentFlies(n, i);
      KidEndWork(n, i, d);
    case Sweep => SweepWork(n, d);
    case In(i, b) =>
      StepWork(n.kids[i], b, d);
      InsideWork(n, i, Next(n.kids[i], b, d).0);
  }

  lemma InsideWork(n: Node, i: nat, k: Node)
    requires i < |n.kids| && Work(k) < Work(n.kids[i])
    ensures Work(n.(kids := n.kids[i := k])) < Work(n)
  {
    WorkUpdate(n.kids, i, k);
    hide WorkOf;
  }

  lemma StopInWindowWork(n: Node, d: Deps)
    requires n.ph.StopDue? && !Sweeping(n)
    ensures Work(Next(n, StopInWindow, d).0) < Work(n)
  {
    hide WorkOf;
  }

  lemma FinishRunWork(n: Node, d: Deps)
    requires n.ph.Executing?
    ensures Work(Next(n, FinishRun, d).0) < Work(n)
  {
  }

  /** A tree to which no more stops and aborts come takes a bounded number of steps by itself. */
  lemma {:induction false} TreeComesToRest(n: Node, acts: seq<TimedAct>)
    requires Inv(n) && Runnable(n, acts) && forall i :: 0 <= i < |acts| ==> Internal(acts[i].act)
    ensures |acts| <= Work(n)
    decreases |acts|
  {
    hide Inv, Work;
    if acts != [] {
      StepKeeps(n, acts[0].act, acts[0].deps);
      StepWork(n, acts[0].act, acts[0].deps);
      assert forall i :: 0 <= i < |acts[1..]| ==> acts[1..][i] == acts[i + 1];
      TreeComesToRest(Next(n, acts[0].act, acts[0].deps).0, acts[1..]);
    }
  }

  // ---- Without stops and aborts nothing is lost ----

  lemma {:induction false} CleanIsNotLost(n: Node)
    requires Clean(n)
    ensures !EndLost(n)
    decreases n
  {
    forall i | 0 <= i < |n.kids| ensures !EndLost(n.kids[i]) { CleanIsNotLost(n.kids[i]); }
  }

  // ---- Whole runs ----

  lemma {:induction false} NoNewDependencies(n: Node, a: Act)
    requires Enabled(n, a, [])
    ensures Next(n, a, []).1 == []
    decreases a
  {
    if a.In? {
      NoNewDependencies(n.kids[a.i], a.a);
    }
  }

  function Effort(f: Forest): int {
    2 * WorkOf(f.roots) + f.active
  }

  lemma EffortIsPositive(f: Forest)
    requires ForestInv(f)
    ensures Effort(f) >= 0
  {
  }

  lemma {:induction false} TakesAtMostOne(a: Act)
    ensures 0 <= TakesOne(a) <= 1
  {
    if a.In? { TakesAtMostOne(a.a); }
  }

  lemma ForestStepWork(f: Forest, g: GlobalAct)
    requires ForestInv(f) && CanStep(f, g)
    ensures Effort(Step(f, g)) < Effort(f) && (f.deps == [] ==> Step(f, g).deps == [])
  {
    hide Inv, Clean, WorkOf, Holders, HoldersOf, Next;
    match g
    case ComeBack =>
    case Submit(i) => WorkUpdate(f.roots, i, EnqueueElement(f.roots[i], false));
    case Take(i) => WorkUpdate(f.roots, i, StartNode(f.roots[i]));
    case Inside(i, a) =>
      StepWork(f.roots[i], a, f.deps);
      WorkUpdate(f.roots, i, Next(f.roots[i], a, f.deps).0);
      TakesAtMostOne(a);
      if f.deps == [] { NoNewDependencies(f.roots[i], a); }
    case Finish(i) => WorkUpdate(f.roots, i, f.roots[i].(ph := Ended));
  }

  lemma {:induction false} RunIsBounded(f: Forest, gs: seq<GlobalAct>)
    requires ForestInv(f) && Possible(f, gs)
    ensures ForestInv(Reach(f, gs)) && (f.deps == [] ==> Reach(f, gs).deps == [])
    ensures |gs| + Effort(Reach(f, gs)) <= Effort(f)
    decreases |gs|
  {
    if gs != [] {
      ForestStepKeeps(f, gs[0]);
      ForestStepWork(f, gs[0]);
      RunIsBounded(Step(f, gs[0]), gs[1..]);
    }
  }

  /** Nothing more can happen. */
  ghost predicate Exhausted(f: Forest) {
    forall g :: !CanStep(f, g)
  }

  lemma ExhaustedRoot(f: Forest, i: nat)
    requires ForestInv(f) && f.deps == [] && Exhausted(f) && i < |f.roots|
    ensures f.roots[i].ph.Ended? && Quiet(f.roots[i]) && Holders(f.roots[i]) == 0
  {
    var n := f.roots[i];
    assert !CanStep(f, Submit(i)) && !CanStep(f, Take(i)) && !CanStep(f, Finish(i)) && !CanStep(f, ComeBack);
    if InFlight(n) {
      CleanIsNotLost(n);
      NothingToWaitFor(n);
      var a := NeverStuck(n, []);
      assert CanStep(f, Inside(i, a));
    }
    RestsWhenNotInFlight(n);
    QuietHoldsNone(n);
  }

  lemma {:induction false} QuietHoldsNone(n: Node)
    requires Quiet(n)
    ensures Holders(n) == 0
    decreases n
  {
    forall i | 0 <= i < |n.kids| ensures Holders(n.kids[i]) == 0 {
      QuietHoldsNone(n.kids[i]);
    }
    NoHolders(n.kids);
  }

  /** Every run is finite, and a run that cannot go on has ended every tree: each composite that
      began has had its end called exactly once, and no thread is still counted active. */
  lemma EveryRunCompletes(f: Forest, gs: seq<GlobalAct>)
    requires Initial(f) && Possible(f, gs) && f.deps == []
    ensures |gs| <= 2 * WorkOf(f.roots)
    ensures Exhausted(Reach(f, gs)) ==>
      && Reach(f, gs).active == 0
      && forall i :: 0 <= i < |Reach(f, gs).roots| ==>
        Reach(f, gs).roots[i].ph.Ended? && Quiet(Reach(f, gs).roots[i])
  {
    InitialIsGood(f);
    RunIsBounded(f, gs);
    var h := Reach(f, gs);
    if Exhausted(h) {
      forall i | 0 <= i < |h.roots| ensures h.roots[i].ph.Ended? && Quiet(h.roots[i]) && Holders(h.roots[i]) == 0 {
        ExhaustedRoot(h, i);
      }
      NoHolders(h.roots);
      assert !CanStep(h, ComeBack);
    }
  }
}
