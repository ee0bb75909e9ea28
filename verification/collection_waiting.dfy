/** Where the run of a forest stops for good, with dependencies and failures of any kind, and which ends are
    missing there. */
module CollectionWaiting {
  import opened JobStatus
  import opened CollectionLedger
  import opened CollectionTree
  import opened CollectionInvariant
  import opened CollectionForest
  import opened CollectionPlan
  import opened CollectionBarrier
  import opened CollectionLoss
  import opened CollectionProgress
  import opened CollectionDependencies
  import D = DependencyMap

  // ---- A forest that cannot go on ----

  lemma SelfInNodes(n: Node)
    ensures n in Nodes(n)
  {
  }

  lemma {:induction false} NodeIsClean(n: Node, x: Node)
    requires Inv(n) && Clean(n) && x in Nodes(n)
    ensures Inv(x) && Clean(x)
    decreases n
  {
    if x != n {
      var i :| 0 <= i < |n.kids| && x in Nodes(n.kids[i]);
      NodeIsClean(n.kids[i], x);
    }
  }

  lemma InForestIsClean(h: Forest, x: Node)
    requires ForestInv(h) && InForest(h, x)
    ensures Inv(x) && Clean(x)
  {
    hide Nodes, Inv, Clean;
    RootOf(h, x);
    var j :| 0 <= j < |h.roots| && x in Nodes(h.roots[j]);
    NodeIsClean(h.roots[j], x);
  }

  /** What holds of a forest even if stops and aborts come from outside. */
  ghost predicate Sturdy(h: Forest) {
    forall i :: 0 <= i < |h.roots| ==> Inv(h.roots[i]) && !h.roots[i].ph.Withdrawn? && !h.roots[i].blocked
  }

  lemma InForestIsGood(h: Forest, x: Node)
    requires Sturdy(h) && InForest(h, x)
    ensures Inv(x)
  {
    hide Nodes, Inv;
    RootOf(h, x);
    var j :| 0 <= j < |h.roots| && x in Nodes(h.roots[j]);
    NodeIsGood(h.roots[j], x);
  }

  /** Where nothing can go on, everything that has begun has ended, but for the composites whose end is lost
      and those that an element holds up, waiting for its dependencies. */
  lemma RestExactly(h: Forest, x: Node)
    requires Sturdy(h) && Exhausted(h) && InForest(h, x) && Begun(x)
    ensures x.ph.Ended? <==> !EndLost(x) && !HeldUp(x, h.deps)
    ensures x.kind != Leaf ==> x.begins == 1 && x.ends == if EndLost(x) || HeldUp(x, h.deps) then 0 else 1
  {
    hide Nodes, Sturdy;
    InForestIsGood(h, x);
    EndIsNoticed(h, x);
    forall a | Internal(a) ensures !Enabled(x, a, h.deps) { StuckInside(h, x, a); }
    if x.kind == Leaf {
      hide Exhausted, HeldUp;
      if HeldUp(x, h.deps) { HeldUpIsOpen(x, h.deps); }
      LeafGoesOn(x, h.deps);
    } else {
      hide Exhausted, EndLost, HeldUp;
      AtRestExactly(x, h.deps);
      EndsAndPhases(x);
    }
  }

  lemma LeafGoesOn(x: Node, d: Deps)
    requires Inv(x) && x.kind == Leaf && Begun(x)
    ensures x.ph.Ended? || x.ph.Ending? || Enabled(x, FinishRun, d) || Enabled(x, EndRun, d)
    ensures !x.ph.Open?
  {
  }

  lemma EndsAndPhases(x: Node)
    requires Inv(x) && x.kind != Leaf && Begun(x)
    ensures x.begins == 1 && (x.ends == 1 <==> Finishing(x)) && x.ends <= 1
  {
  }

  lemma RootWaits(h: Forest, i: nat)
    requires Exhausted(h) && i < |h.roots| && !h.roots[i].blocked && !D.HasUnresolved(h.deps, h.roots[i].id)
    ensures !h.roots[i].ph.Idle? && !h.roots[i].ph.InQueue?
  {
    assert !CanStep(h, Submit(i)) && !CanStep(h, Take(i));
  }

  /** Who has begun waits for nobody. */
  lemma BegunWaitsForNothing(f: Forest, gs: seq<GlobalAct>, x: Node)
    requires Initial(f) && Possible(f, gs) && InForest(Reach(f, gs), x) && Begun(x)
    ensures !D.HasUnresolved(Reach(f, gs).deps, x.id)
  {
    hide Nodes, ForestInv, DoneIds, BegunIds;
    var h := Reach(f, gs);
    InitiallySound(f);
    SoundRun(f, gs);
    InitiallyGated(f);
    GatedRun(f, gs, f.deps);
    RootOf(h, x);
    var j :| 0 <= j < |h.roots| && x in Nodes(h.roots[j]);
    InForestIsClean(h, x);
    RootIsGood(h, j);
    BegunBelow(h.roots[j], x);
    BegunUnfolds(Top(h));
    assert x.id in BegunIds(Top(h));
    forall k | 0 <= k < |h.deps| ensures h.deps[k].0 != x.id { assert h.deps[k] in h.deps; }
  }

  lemma RootIsGood(h: Forest, j: nat)
    requires ForestInv(h) && j < |h.roots|
    ensures Inv(h.roots[j]) && !h.roots[j].blocked && !h.roots[j].ph.Withdrawn?
  {
  }

  /** Where every run of a forest stops, dependencies and failures of any kind included: a tree has begun
      exactly if it waits for nobody; what has begun has ended, once, exactly if it is not held up. */
  lemma WhereRunsStop(f: Forest, gs: seq<GlobalAct>)
    requires Initial(f) && Possible(f, gs) && Exhausted(Reach(f, gs))
    ensures var h := Reach(f, gs);
      && (forall i :: 0 <= i < |h.roots| ==> (Begun(h.roots[i]) <==> !D.HasUnresolved(h.deps, h.roots[i].id)))
      && (forall x :: InForest(h, x) && Begun(x) ==> (x.ph.Ended? <==> !HeldUp(x, h.deps)))
      && (forall x :: InForest(h, x) && Begun(x) && x.kind != Leaf ==>
        x.begins == 1 && x.ends == if HeldUp(x, h.deps) then 0 else 1)
    ensures |gs| <= 2 * WorkOf(f.roots)
  {
    hide Exhausted, HeldUp, EndLost, ForestInv, Nodes, Clean;
    var h := Reach(f, gs);
    InitiallySound(f);
    SoundRun(f, gs);
    RunIsBounded(f, gs);
    UndisturbedIsSturdy(h);
    EffortIsPositive(h);
    forall i | 0 <= i < |h.roots| ensures Begun(h.roots[i]) <==> !D.HasUnresolved(h.deps, h.roots[i].id) {
      RootIsGood(h, i);
      SelfInNodes(h.roots[i]);
      RootInForest(h, i, h.roots[i]);
      if Begun(h.roots[i]) {
        BegunWaitsForNothing(f, gs, h.roots[i]);
      } else if !D.HasUnresolved(h.deps, h.roots[i].id) {
        RootWaits(h, i);
      }
    }
    forall x | InForest(h, x) && Begun(x)
      ensures x.ph.Ended? <==> !HeldUp(x, h.deps)
      ensures x.kind != Leaf ==> x.begins == 1 && x.ends == if HeldUp(x, h.deps) then 0 else 1
    {
      InForestIsClean(h, x);
      CleanIsNotLost(x);
      RestExactly(h, x);
    }
  }

  lemma UndisturbedIsSturdy(h: Forest)
    requires ForestInv(h)
    ensures Sturdy(h)
  {
  }

  // ---- Stops and aborts from outside, together with dependencies ----

  /** A step of the forest by itself, or a stop or abort from outside at any node of a tree. */
  datatype AnyAct = Own(g: GlobalAct) | Outside(i: nat, a: Act)

  predicate CanDo(f: Forest, b: AnyAct) {
    match b
    case Own(g) => CanStep(f, g)
    case Outside(i, a) => i < |f.roots| && !Internal(a) && Enabled(f.roots[i], a, f.deps)
  }

  function Do(f: Forest, b: AnyAct): Forest
    requires CanDo(f, b)
  {
    match b
    case Own(g) => Step(f, g)
    case Outside(i, a) =>
      var (n, d) := Next(f.roots[i], a, f.deps);
      f.(roots := f.roots[i := n], deps := d)
  }

  ghost predicate Doable(f: Forest, bs: seq<AnyAct>)
    decreases |bs|
  {
    bs == [] || (CanDo(f, bs[0]) && Doable(Do(f, bs[0]), bs[1..]))
  }

  ghost function DoAll(f: Forest, bs: seq<AnyAct>): Forest
    requires Doable(f, bs)
    decreases |bs|
  {
    if bs == [] then f else DoAll(Do(f, bs[0]), bs[1..])
  }

  lemma SturdyStep(f: Forest, b: AnyAct)
    requires Sturdy(f) && CanDo(f, b)
    ensures Sturdy(Do(f, b))
  {
    hide Inv, HoldersOf, Next;
    match b
    case Outside(i, a) => StepKeeps(f.roots[i], a, f.deps); StaysInFlight(f.roots[i], a, f.deps);
    case Own(g) =>
      match g
      case ComeBack =>
      case Submit(i) => EnqueueElementKeeps(f.roots[i], false);
      case Take(i) => StartKeeps(f.roots[i]);
      case Inside(i, a) => StepKeeps(f.roots[i], a, f.deps); StaysInFlight(f.roots[i], a, f.deps);
      case Finish(i) => EndKeeps(f.roots[i]);
  }

  lemma {:induction false} SturdyRun(f: Forest, bs: seq<AnyAct>)
    requires Sturdy(f) && Doable(f, bs)
    ensures Sturdy(DoAll(f, bs))
    decreases |bs|
  {
    hide Sturdy;
    if bs != [] {
      SturdyStep(f, bs[0]);
      SturdyRun(Do(f, bs[0]), bs[1..]);
    }
  }

  /** Where a run of a forest stops, with dependencies, failures, stops and aborts of any kind: what has
      begun has ended, once, exactly if its end is neither lost nor held up, and a tree that has not begun
      waits for somebody. */
  lemma EveryEndExactlyWhen(f: Forest, bs: seq<AnyAct>)
    requires Initial(f) && Doable(f, bs) && Exhausted(DoAll(f, bs))
    ensures var h := DoAll(f, bs);
      && (forall i :: 0 <= i < |h.roots| && !Begun(h.roots[i]) ==> D.HasUnresolved(h.deps, h.roots[i].id))
      && (forall x :: InForest(h, x) && Begun(x) ==> (x.ph.Ended? <==> !EndLost(x) && !HeldUp(x, h.deps)))
      && (forall x :: InForest(h, x) && Begun(x) && x.kind != Leaf ==>
        x.begins == 1 && x.ends == if EndLost(x) || HeldUp(x, h.deps) then 0 else 1)
  {
    hide Exhausted, HeldUp, EndLost, Nodes, Inv;
    var h := DoAll(f, bs);
    InitialIsGood(f);
    UndisturbedIsSturdy(f);
    SturdyRun(f, bs);
    forall i | 0 <= i < |h.roots| && !Begun(h.roots[i]) ensures D.HasUnresolved(h.deps, h.roots[i].id) {
      if !D.HasUnresolved(h.deps, h.roots[i].id) { RootWaits(h, i); }
    }
    forall x | InForest(h, x) && Begun(x)
      ensures x.ph.Ended? <==> !EndLost(x) && !HeldUp(x, h.deps)
      ensures x.kind != Leaf ==> x.begins == 1 && x.ends == if EndLost(x) || HeldUp(x, h.deps) then 0 else 1
    {
      RestExactly(h, x);
    }
  }

  // ---- A run that is held up, without any stop or abort ----

  /** A Collection of two jobs, the first of which will fail; the second depends on it. */
  function Pair(ph: Phase, led: Ledger, started: nat, first: Node, second: Node): Node {
    Fresh(1, Plain, [first, second]).(ph := ph, led := led, started := started, begins := if started == 0 then 0 else 1)
  }

  function Job(id: nat, outcome: Status, ph: Phase, status: Status): Node {
    Fresh(id, Leaf, []).(outcome := outcome, ph := ph, led := Ledger(false, status, false, false, 0, 0))
  }

  function First(ph: Phase, status: Status): Node {
    Job(2, Failed, ph, status)
  }

  function Second(ph: Phase, status: Status): Node {
    Job(3, Success, ph, status)
  }

  function Led(status: Status, api: bool, counter: int): Ledger {
    Ledger(false, status, false, api, counter, 0)
  }

  /** The forest after k steps of the run. */
  function Stage(k: nat): Forest
    requires k <= 10
  {
    var n :=
      if k == 0 then Pair(Idle, Led(New, false, 0), 0, First(Idle, New), Second(Idle, New))
      else if k == 1 then Pair(InQueue, Led(Queued, true, 0), 0, First(Idle, New), Second(Idle, New))
      else if k == 2 then Pair(Executing, Led(Running, true, 0), 1, First(Idle, New), Second(Idle, New))
      else if k == 3 then Pair(RunDone, Led(Success, true, 0), 1, First(Idle, New), Second(Idle, New))
      else if k == 4 then Pair(Open, Led(Running, true, 2), 1, First(InQueue, Queued), Second(InQueue, Queued))
      else if k == 5 then Pair(Open, Led(Running, true, 2), 2, First(Executing, Running), Second(InQueue, Queued))
      else if k == 6 then Pair(Open, Led(Running, true, 2), 2, First(RunDone, Failed), Second(InQueue, Queued))
      else if k == 7 then Pair(Open, Led(Running, true, 2), 2, First(Ending, Failed), Second(InQueue, Queued))
      else Pair(Open, Led(Failed, true, 1), 2, First(Ended, Failed), Second(InQueue, Queued));
    Forest([n], [(3, 2)], if k < 2 then 0 else if k < 5 then 1 else if k < 9 then 2 else 10 - k)
  }

  function StageAct(k: nat): GlobalAct
    requires k < 10
  {
    match k
    case 0 => Submit(0)
    case 1 => Take(0)
    case 2 => Inside(0, FinishRun)
    case 3 => Inside(0, EndRun)
    case 4 => Inside(0, TakeKid(0))
    case 5 => Inside(0, In(0, FinishRun))
    case 6 => Inside(0, In(0, EndRun))
    case 7 => Inside(0, KidEnd(0))
    case _ => ComeBack
  }

  lemma WaitsForFirst()
    ensures D.HasUnresolved([(3, 2)], 3)
  {
    var d: Deps := [(3, 2)];
    assert d[0].0 == 3;
  }

  lemma FirstThen(f: Forest, g: GlobalAct, h: Forest, gs: seq<GlobalAct>)
    requires CanStep(f, g) && Step(f, g) == h && Possible(h, gs)
    ensures Possible(f, [g] + gs) && Reach(f, [g] + gs) == Reach(h, gs)
  {
    assert ([g] + gs)[1..] == gs;
  }

  ghost predicate Leads(k: nat)
    requires k < 10
  {
    CanStep(Stage(k), StageAct(k)) && Step(Stage(k), StageAct(k)) == Stage(k + 1)
  }

  lemma StageStarts(k: nat)
    requires k < 3
    ensures Leads(k)
  {
    assert Step(Stage(k), StageAct(k)).roots[0].kids == Stage(k + 1).roots[0].kids;
    assert Step(Stage(k), StageAct(k)).roots == Stage(k + 1).roots;
  }

  lemma StageOpens()
    ensures Leads(3)
  {
    assert EnqueueElements(Stage(3).roots[0]).kids == [First(InQueue, Queued), Second(InQueue, Queued)];
  }

  lemma StageTakes()
    ensures Leads(4)
  {
    var kids := Stage(4).roots[0].kids;
    assert kids[0 := First(Executing, Running)] == [First(Executing, Running), Second(InQueue, Queued)];
  }

  lemma StageRuns(k: nat)
    requires 5 <= k <= 6
    ensures Leads(k)
  {
    var n := Stage(k).roots[0];
    var first := if k == 5 then First(RunDone, Failed) else First(Ending, Failed);
    var b := if k == 5 then FinishRun else EndRun;
    assert Enabled(n.kids[0], b, [(3, 2)]) && Next(n.kids[0], b, [(3, 2)]) == (first, [(3, 2)]);
    hide Next, Enabled;
    InsideStep(n, 0, b, [(3, 2)]);
    assert n.kids[0 := first] == [first, Second(InQueue, Queued)];
  }

  lemma StageCounts()
    ensures Leads(7)
  {
    var n := Stage(7).roots[0];
    var kids := [First(Ended, Failed), Second(InQueue, Queued)];
    assert n.kids[0 := First(Ended, Failed)] == kids;
    FailureCounted();
    hide PartCompleted;
  }

  lemma FailureCounted()
    ensures var m := Stage(7).roots[0].(kids := [First(Ended, Failed), Second(InQueue, Queued)]);
      PartCompleted(m, Failed, [(3, 2)]) == (Stage(8).roots[0], [(3, 2)])
  {
  }

  lemma StageIsFree(k: nat)
    requires 8 <= k <= 10
    ensures HoldersOf(Stage(k).roots) == 0
  {
    NoHolders(Stage(k).roots[0].kids);
    NoHolders(Stage(k).roots);
  }

  lemma {:induction false} StageRun(k: nat)
    requires k <= 10
    ensures exists gs :: Possible(Stage(k), gs) && Reach(Stage(k), gs) == Stage(10)
    decreases 10 - k
  {
    if k == 10 {
      assert Possible(Stage(10), []) && Reach(Stage(10), []) == Stage(10);
    } else {
      StageRun(k + 1);
      var gs :| Possible(Stage(k + 1), gs) && Reach(Stage(k + 1), gs) == Stage(10);
      StageLeads(k);
      FirstThen(Stage(k), StageAct(k), Stage(k + 1), gs);
    }
  }

  lemma StageLeads(k: nat)
    requires k < 10
    ensures Leads(k)
  {
    hide Leads;
    if k < 3 {
      StageStarts(k);
    } else if k == 3 {
      StageOpens();
    } else if k == 4 {
      StageTakes();
    } else if k < 7 {
      StageRuns(k);
    } else if k == 7 {
      StageCounts();
    } else {
      StageComesBack(k);
    }
  }

  lemma StageComesBack(k: nat)
    requires 8 <= k < 10
    ensures Leads(k)
  {
    hide HoldersOf;
    StageIsFree(k);
  }

  lemma StageRests(g: GlobalAct)
    ensures !CanStep(Stage(10), g)
  {
    hide HoldersOf;
    StageIsFree(10);
    if g.Inside? && g.i == 0 && Internal(g.a) { NothingInside(g.a); }
  }

  lemma NothingInside(a: Act)
    requires Internal(a)
    ensures !Enabled(Stage(10).roots[0], a, [(3, 2)])
  {
    WaitsForFirst();
  }

  /** A failed element, another that depends on it, and a plain Collection around them that begins, is never
      stopped and never aborted, has not lost its end, and never comes to it. */
  lemma HeldUpByFailure()
    ensures Initial(Stage(0))
    ensures exists gs :: Possible(Stage(0), gs) && Reach(Stage(0), gs) == Stage(10)
    ensures Exhausted(Stage(10))
    ensures var n := Stage(10).roots[0];
      n.kind == Plain && n.begins == 1 && n.ends == 0 && Clean(n) && !EndLost(n) && HeldUp(n, Stage(10).deps)
  {
    StageRun(0);
    StartIsInitial();
    forall g ensures !CanStep(Stage(10), g) { StageRests(g); }
    StageHeldUp();
    CleanIsNotLost(Stage(10).roots[0]);
    hide EndLost, Initial, HeldUp, Clean;
  }

  lemma StartIsInitial()
    ensures Initial(Stage(0))
  {
  }

  lemma StageHeldUp()
    ensures var n := Stage(10).roots[0];
      n.kind == Plain && n.begins == 1 && n.ends == 0 && Clean(n) && HeldUp(n, Stage(10).deps)
  {
    var n := Stage(10).roots[0];
    WaitsForFirst();
    assert WaitsInQueue(n.kids[1], Stage(10).deps);
    assert Clean(n.kids[0]) && Clean(n.kids[1]);
  }
}
