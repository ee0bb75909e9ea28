/** What every step on a tree of collections keeps, stops and aborts from outside included. */
module CollectionInvariant {
  import opened JobStatus
  import opened CollectionLedger
  import opened CollectionTree

  // ---- Counting ----

  lemma {:induction false} CountUpdate(c: Class, ks: seq<Node>, i: nat, k: Node)
    requires i < |ks|
    ensures Count(c, ks[i := k]) + (if ClassOf(ks[i]) == c then 1 else 0)
         == Count(c, ks) + (if ClassOf(k) == c then 1 else 0)
  {
    if i == 0 {
      assert ks[i := k][1..] == ks[1..];
    } else {
      assert ks[i := k][1..] == ks[1..][i - 1 := k];
      CountUpdate(c, ks[1..], i - 1, k);
    }
  }

  lemma {:induction false} CountZero(c: Class, ks: seq<Node>)
    ensures Count(c, ks) == 0 <==> forall i :: 0 <= i < |ks| ==> ClassOf(ks[i]) != c
  {
    if ks != [] {
      CountZero(c, ks[1..]);
      assert forall i :: 1 <= i < |ks| ==> ks[i] == ks[1..][i - 1];
      assert forall i :: 0 <= i < |ks[1..]| ==> ks[1..][i] == ks[i + 1];
    }
  }

  lemma {:induction false} CountFull(c: Class, ks: seq<Node>)
    requires forall i :: 0 <= i < |ks| ==> ClassOf(ks[i]) == c
    ensures Count(c, ks) == |ks|
  {
    if ks != [] {
      CountFull(c, ks[1..]);
    }
  }

  lemma {:induction false} CountSame(c: Class, ks: seq<Node>, js: seq<Node>)
    requires |ks| == |js|
    requires forall i :: 0 <= i < |ks| ==> (ClassOf(ks[i]) == c <==> ClassOf(js[i]) == c)
    ensures Count(c, ks) == Count(c, js)
  {
    if ks != [] {
      CountSame(c, ks[1..], js[1..]);
    }
  }

  lemma {:induction false} CountPartition(ks: seq<Node>)
    ensures Count(Unborn, ks) + Count(Waiting, ks) + Count(Flying, ks) + Count(Over, ks) + Count(Gone, ks) == |ks|
  {
    if ks != [] {
      CountPartition(ks[1..]);
    }
  }

  // ---- The invariant ----

  ghost predicate AllKids(n: Node, c: Class) {
    forall i :: 0 <= i < |n.kids| ==> ClassOf(n.kids[i]) == c
  }

  ghost predicate NoKid(n: Node, c: Class) {
    forall i :: 0 <= i < |n.kids| ==> ClassOf(n.kids[i]) != c
  }

  /** Before its own run has been settled, a composite has touched none of its elements. */
  ghost predicate LocalBefore(n: Node) {
    && AllKids(n, Unborn)
    && NoKidBlocked(n)
    && n.led.jobCounter == 0 && n.led.completed == 0
    && n.ends == 0 && !n.skipped && !n.stranded
    && (n.led.api <==> n.ph.InQueue? || InFlight(n))
    && n.started == n.begins == (if InFlight(n) then 1 else 0)
  }

  ghost predicate NoKidBlocked(n: Node) {
    forall i :: 0 <= i < |n.kids| ==> !n.kids[i].blocked
  }

  /** The sweep stands between dequeuing element i and lifting its blocker. */
  predicate AtUnblock(n: Node, i: nat) {
    n.sweep.Unblocking? && n.sweep.i == i
  }

  /** A sweep runs under the mutex of a composite in flight that is not yet cleaned up, and what it has
      passed is no longer queued. */
  ghost predicate SweepOk(n: Node) {
    Sweeping(n) ==>
      && n.kind != Leaf && n.led.api && InFlight(n)
      && Swept(n) <= |n.kids| && (n.sweep.own ==> n.ph.StopDue?)
      && forall i :: 0 <= i < Swept(n) ==> ClassOf(n.kids[i]) != Waiting
  }

  /** Elements from `completed` on are queued and carry the blocker, or a sweep took them out of the
      queue: those that the present one has passed, or all of them. An element keeps its blocker until it
      has left the queue. Those before are over. */
  ghost predicate Frontier(n: Node, over: int) {
    var c := n.led.completed;
    && c <= |n.kids|
    && (forall i :: c <= i < |n.kids| ==>
         ClassOf(n.kids[i]) == Gone || (ClassOf(n.kids[i]) == Waiting && n.kids[i].blocked))
    && (forall i :: c <= i < |n.kids| && ClassOf(n.kids[i]) == Gone && n.kids[i].blocked ==> AtUnblock(n, i))
    && (forall i, j :: c <= i < |n.kids| && c <= j < |n.kids| && Swept(n) <= i && ClassOf(n.kids[i]) == Gone ==>
         ClassOf(n.kids[j]) == Gone)
    && (forall i :: 0 <= i < c ==> !n.kids[i].blocked)
    && (forall i :: 0 <= i < over <= |n.kids| ==> ClassOf(n.kids[i]) == Over || ClassOf(n.kids[i]) == Gone)
  }

  /** A part of the composite (itself or an element) has completed and is not yet counted. */
  ghost predicate Pending(n: Node) {
    && n.begins == 1 && n.started >= 1 && n.ends == 0 && !n.stranded
    && if n.skipped then
         n.led.shouldAbort && AllKids(n, Unborn) && NoKidBlocked(n) && n.led.jobCounter == 0
       else
         && NoKid(n, Unborn)
         && n.led.jobCounter == Count(Waiting, n.kids) + Count(Flying, n.kids) + 1
         && (!n.led.api ==> Count(Waiting, n.kids) == 0 && n.led.jobCounter == 1)
         && if n.kind == Sequential then Frontier(n, n.led.completed) else NoKidBlocked(n)
  }

  /** Between parts: the counter is exactly what is queued plus what is in flight. */
  ghost predicate Resting(n: Node) {
    && n.begins == 1 && n.started >= 1 && n.ends == 0
    && if n.skipped then
         n.led.shouldAbort && AllKids(n, Unborn) && NoKidBlocked(n) && n.led.jobCounter == -1 && !n.stranded
       else
         && NoKid(n, Unborn)
         && n.led.jobCounter == Count(Waiting, n.kids) + Count(Flying, n.kids)
         && (n.led.jobCounter == 0 <==> n.stranded)
         && (!n.led.api ==> Count(Waiting, n.kids) == 0 && n.led.jobCounter == 1)
         && (n.led.api ==> n.led.status == Running || n.led.status.Bad())
         && if n.kind == Sequential then OpenFrontier(n) else NoKidBlocked(n)
  }

  /** The frontier looks at the classes and blockers of the elements and at the position of the sweep. */
  lemma SameFrontier(n: Node, m: Node)
    requires |m.kids| == |n.kids| && m.led.completed == n.led.completed && Swept(m) == Swept(n)
    requires forall i :: AtUnblock(m, i) == AtUnblock(n, i)
    requires forall i :: 0 <= i < |n.kids| ==>
      ClassOf(m.kids[i]) == ClassOf(n.kids[i]) && m.kids[i].blocked == n.kids[i].blocked
    ensures Frontier(m, n.led.completed) == Frontier(n, n.led.completed)
    ensures OpenFrontier(m) == OpenFrontier(n)
  {
    assert forall over :: Frontier(m, over) == Frontier(n, over);
    hide Frontier;
  }

  /** Only the element just before the frontier may be queued unblocked or in flight. */
  ghost predicate OpenFrontier(n: Node) {
    var c := n.led.completed;
    && Frontier(n, c - 1) && 1 <= c && ClassOf(n.kids[c - 1]) != Over
    && (ClassOf(n.kids[c - 1]) == Gone && Swept(n) <= c - 1 ==>
         forall i :: c <= i < |n.kids| ==> ClassOf(n.kids[i]) == Gone)
  }

  ghost predicate Done(n: Node) {
    && n.begins == 1 && n.started >= 1 && n.ends == 1 && !n.skipped && !n.stranded
    && n.led.jobCounter == 0 && !n.led.api
    && (forall i :: 0 <= i < |n.kids| ==> ClassOf(n.kids[i]) == Over || ClassOf(n.kids[i]) == Gone)
    && NoKidBlocked(n)
  }

  ghost predicate InStopWindow(n: Node) {
    && n.kind == Sequential && InWindow(n) && n.ph.failure.Bad() && Pending(n)
    && (n.ph.StopDue? ==> n.led.api ==> n.led.status.Bad())
    && (n.ph.StopDone? && !n.skipped ==> !n.led.api)
  }

  ghost predicate LocalComposite(n: Node) {
    if BeforeOpen(n) then LocalBefore(n)
    else if n.ph.Open? then Resting(n)
    else if InWindow(n) then InStopWindow(n)
    else Done(n)
  }

  ghost predicate LocalLeaf(n: Node) {
    && n.kids == [] && !n.led.api && !n.ph.Open? && !InWindow(n)
    && (Finishing(n) ==> n.led.status == n.outcome)
  }

  /** What the status says in each phase. */
  ghost predicate StatusFits(n: Node) {
    && n.outcome.Finished()
    && n.led.isSequence == (n.kind == Sequential)
    && (n.ph.Idle? || n.ph.Withdrawn? ==> n.led.status == New)
    && (n.ph.InQueue? ==> n.led.status == Queued)
    && (n.ph.Executing? ==> n.led.status == Running)
    && (n.ph.RunDone? ==> n.led.status == n.outcome)
    && (Finishing(n) ==> n.led.status.Finished())
    && (n.blocked ==> n.ph.InQueue? || n.ph.Withdrawn?)
  }

  ghost predicate Local(n: Node) {
    StatusFits(n) && SweepOk(n) && if n.kind == Leaf then LocalLeaf(n) else LocalComposite(n)
  }

  ghost predicate Inv(n: Node) {
    Local(n) && forall i :: 0 <= i < |n.kids| ==> Inv(n.kids[i])
  }

  ghost predicate KidsInv(n: Node) {
    forall i :: 0 <= i < |n.kids| ==> Inv(n.kids[i])
  }

  // ---- Every step keeps it ----

  lemma NothingLeft(n: Node)
    requires n.kind != Leaf && NoKid(n, Unborn)
    requires Count(Waiting, n.kids) + Count(Flying, n.kids) == 0
    ensures forall i :: 0 <= i < |n.kids| ==> ClassOf(n.kids[i]) == Over || ClassOf(n.kids[i]) == Gone
  {
    CountZero(Waiting, n.kids);
    CountZero(Flying, n.kids);
    forall i | 0 <= i < |n.kids| ensures ClassOf(n.kids[i]) == Over || ClassOf(n.kids[i]) == Gone {
      assert ClassOf(n.kids[i]) != Unborn;
    }
  }

  lemma UnblockKeeps(k: Node)
    requires Inv(k)
    ensures Inv(k.(blocked := false))
  {
  }

  lemma AdvanceKeepsKids(n: Node)
    requires KidsInv(n)
    ensures KidsInv(Advance(n)) && |Advance(n).kids| == |n.kids|
    ensures forall c :: Count(c, Advance(n).kids) == Count(c, n.kids)
    ensures forall i :: 0 <= i < |n.kids| ==> Advance(n).kids[i].ph == n.kids[i].ph
  {
    var m := Advance(n);
    if n.kind == Sequential && n.led.completed < |n.kids| {
      UnblockKeeps(n.kids[n.led.completed]);
      forall c ensures Count(c, m.kids) == Count(c, n.kids) {
        CountSame(c, m.kids, n.kids);
      }
    }
  }

  lemma SettleToEnd(n: Node, m: Node, d: Deps)
    requires n.kind != Leaf && Pending(n) && KidsInv(n) && StatusFits(n.(ph := Open)) && !Sweeping(n)
    requires n.led.jobCounter == 1
    requires n.led.status == Running || n.led.status.Bad()
    requires m == Settle(Advance(n), d).0
    ensures Local(m)
  {
    hide Count;
    AdvanceKeepsKids(n);
    NothingLeft(Advance(n));
    assert KidsInv(Advance(n));
    forall i | 0 <= i < |m.kids| ensures !m.kids[i].blocked {
      assert Inv(m.kids[i]);
      assert ClassOf(m.kids[i]) == Over || ClassOf(m.kids[i]) == Gone;
    }
    assert Done(m);
  }

  lemma SettleToOpenSequence(n: Node, m: Node, d: Deps)
    requires n.kind == Sequential && Pending(n) && !n.skipped && StatusFits(n.(ph := Open)) && !Sweeping(n)
    requires n.led.jobCounter != 1
    requires n.led.status == Running || n.led.status.Bad()
    requires m == Settle(Advance(n), d).0
    ensures OpenFrontier(m)
  {
    var c := n.led.completed;
    CountZero(Flying, n.kids);
    CountZero(Waiting, n.kids);
    var w :| 0 <= w < |n.kids| && n.kids[w].ph.InQueue?;
  }

  lemma SettleToOpen(n: Node, m: Node, d: Deps)
    requires n.kind != Leaf && Pending(n) && KidsInv(n) && StatusFits(n.(ph := Open)) && !Sweeping(n)
    requires n.led.jobCounter != 1
    requires n.led.status == Running || n.led.status.Bad()
    requires m == Settle(Advance(n), d).0
    ensures Local(m)
  {
    hide Inv, Count, OpenFrontier;
    AdvanceKeepsKids(n);
    if n.kind == Sequential && !n.skipped { SettleToOpenSequence(n, m, d); }
    assert Resting(m);
  }

  lemma SettleKeeps(n: Node, d: Deps)
    requires n.kind != Leaf && Pending(n) && KidsInv(n) && StatusFits(n.(ph := Open)) && !Sweeping(n)
    requires n.led.status == Running || n.led.status.Bad()
    ensures Inv(Settle(Advance(n), d).0)
  {
    hide Local, Pending, StatusFits;
    AdvanceKeepsKids(n);
    var m := Settle(Advance(n), d).0;
    assert KidsInv(m) by { assert KidsInv(Advance(n)); assert m.kids == Advance(n).kids; }
    if n.led.jobCounter == 1 {
      SettleToEnd(n, m, d);
    } else {
      SettleToOpen(n, m, d);
    }
  }

  lemma PartCompletedKeeps(n: Node, s: Status, d: Deps)
    requires n.kind != Leaf && Pending(n) && KidsInv(n) && StatusFits(n.(ph := Open)) && !Sweeping(n) && s.Finished()
    ensures Inv(PartCompleted(n, s, d).0)
  {
    var m := SetStatus(n, UpdatedStatus(s));
    if n.kind == Sequential && s.Bad() {
      var r := PartCompleted(n, s, d).0;
      assert InStopWindow(r);
      assert KidsInv(r);
    } else {
      assert Pending(m) && KidsInv(m);
      SettleKeeps(m, d);
    }
  }

  lemma WithdrawElementKeeps(k: Node)
    requires Inv(k)
    ensures Inv(WithdrawElement(k)) && ClassOf(WithdrawElement(k)) != Waiting
    ensures WithdrawElement(k).blocked == k.blocked
    ensures ClassOf(WithdrawElement(k)) == if ClassOf(k) == Waiting then Gone else ClassOf(k)
  {
  }

  lemma DequeuingFrontier(n: Node, m: Node, over: int)
    requires n.kind == Sequential && Frontier(n, over) && n.sweep.Dequeuing? && n.sweep.i < |n.kids|
    requires forall j :: 0 <= j < Swept(n) ==> ClassOf(n.kids[j]) != Waiting
    requires m.led.completed == n.led.completed && m.sweep == Unblocking(n.sweep.i, n.sweep.own)
    requires m.kids == n.kids[n.sweep.i := WithdrawElement(n.kids[n.sweep.i])]
    ensures Frontier(m, over)
  {
  }

  lemma DequeuingOpenFrontier(n: Node, m: Node)
    requires n.kind == Sequential && OpenFrontier(n) && n.sweep.Dequeuing? && n.sweep.i < |n.kids|
    requires forall j :: 0 <= j < Swept(n) ==> ClassOf(n.kids[j]) != Waiting
    requires m.led.completed == n.led.completed && m.sweep == Unblocking(n.sweep.i, n.sweep.own)
    requires m.kids == n.kids[n.sweep.i := WithdrawElement(n.kids[n.sweep.i])]
    ensures OpenFrontier(m)
  {
    DequeuingFrontier(n, m, n.led.completed - 1);
  }

  lemma DequeuingCounts(n: Node, k: Node)
    requires n.sweep.Dequeuing? && n.sweep.i < |n.kids| && k == WithdrawElement(n.kids[n.sweep.i])
    ensures Count(Waiting, n.kids[n.sweep.i := k])
         == Count(Waiting, n.kids) - if n.kids[n.sweep.i].ph.InQueue? then 1 else 0
    ensures Count(Flying, n.kids[n.sweep.i := k]) == Count(Flying, n.kids)
  {
    CountUpdate(Waiting, n.kids, n.sweep.i, k);
    CountUpdate(Flying, n.kids, n.sweep.i, k);
  }

  lemma DequeuingKeepsLocal(n: Node, d: Deps)
    requires Inv(n) && n.sweep.Dequeuing? && n.sweep.i < |n.kids|
    ensures Local(SweepOn(n, d).0)
  {
    hide Count, Frontier, OpenFrontier, Inv;
    SelfLocal(n);
    var m := SweepOn(n, d).0;
    var i := n.sweep.i;
    var k := WithdrawElement(n.kids[i]);
    WithdrawElementKeeps(n.kids[i]);
    DequeuingCounts(n, k);
    if BeforeOpen(n) || n.skipped {
      assert k == n.kids[i] && m.kids == n.kids;
    } else if n.ph.Open? {
      if n.kind == Sequential { DequeuingOpenFrontier(n, m); }
      assert NoKid(m, Unborn);
      assert Resting(m);
    } else {
      DequeuingFrontier(n, m, n.led.completed);
      assert NoKid(m, Unborn);
      assert Pending(m);
    }
  }

  lemma SelfLocal(n: Node)
    requires Inv(n)
    ensures Local(n) && KidsInv(n)
  {
  }

  lemma UnblockingFrontier(n: Node, m: Node, over: int)
    requires n.kind == Sequential && Frontier(n, over) && n.sweep.Unblocking? && n.sweep.i < |n.kids|
    requires ClassOf(n.kids[n.sweep.i]) != Waiting
    requires m.led.completed == n.led.completed && m.sweep == Dequeuing(n.sweep.i + 1, n.sweep.own)
    requires m.kids == n.kids[n.sweep.i := n.kids[n.sweep.i].(blocked := false)]
    ensures Frontier(m, over)
  {
  }

  lemma UnblockingOpenFrontier(n: Node, m: Node)
    requires n.kind == Sequential && OpenFrontier(n) && n.sweep.Unblocking? && n.sweep.i < |n.kids|
    requires ClassOf(n.kids[n.sweep.i]) != Waiting
    requires m.led.completed == n.led.completed && m.sweep == Dequeuing(n.sweep.i + 1, n.sweep.own)
    requires m.kids == n.kids[n.sweep.i := n.kids[n.sweep.i].(blocked := false)]
    ensures OpenFrontier(m)
  {
    UnblockingFrontier(n, m, n.led.completed - 1);
  }

  lemma UnblockingKeepsLocal(n: Node, d: Deps)
    requires Inv(n) && n.sweep.Unblocking?
    ensures Local(SweepOn(n, d).0)
  {
    hide Count, Frontier, OpenFrontier, Inv;
    SelfLocal(n);
    var m := SweepOn(n, d).0;
    CountSame(Waiting, m.kids, n.kids);
    CountSame(Flying, m.kids, n.kids);
    assert ClassOf(n.kids[n.sweep.i]) != Waiting;
    if BeforeOpen(n) || n.skipped {
      assert m.kids == n.kids;
    } else if n.ph.Open? {
      if n.kind == Sequential { UnblockingOpenFrontier(n, m); }
      assert NoKid(m, Unborn);
      assert Resting(m);
    } else {
      UnblockingFrontier(n, m, n.led.completed);
      assert NoKid(m, Unborn);
      assert Pending(m);
    }
  }

  /** Behind its last round a sweep has left nothing queued. */
  lemma SweptClean(n: Node)
    requires SweepOk(n) && n.sweep.Dequeuing? && n.sweep.i >= |n.kids|
    ensures Count(Waiting, n.kids) == 0
  {
    CountZero(Waiting, n.kids);
  }

  lemma SweptFrontier(n: Node, m: Node)
    requires n.kind == Sequential && SweepOk(n) && n.sweep.Dequeuing? && n.sweep.i == |n.kids|
    requires m.led.completed == n.led.completed && m.sweep == Still && m.kids == n.kids
    ensures Frontier(n, n.led.completed) ==> Frontier(m, n.led.completed)
    ensures OpenFrontier(n) ==> OpenFrontier(m)
  {
  }

  lemma SweepEndKeepsLocal(n: Node, d: Deps)
    requires Inv(n) && n.sweep.Dequeuing? && n.sweep.i >= |n.kids|
    ensures Local(SweepOn(n, d).0)
  {
    hide Count, Frontier, OpenFrontier, Inv;
    SelfLocal(n);
    var m := SweepOn(n, d).0;
    SweptClean(n);
    if n.kind == Sequential { SweptFrontier(n, m); }
    if BeforeOpen(n) {
    } else if n.ph.Open? {
      assert Resting(m);
    } else {
      if !n.skipped { NothingFlies(n); }
      assert Pending(m);
    }
  }

  lemma NothingFlies(n: Node)
    requires InStopWindow(n) && !n.skipped
    ensures Count(Flying, n.kids) == 0
  {
    CountZero(Flying, n.kids);
  }

  lemma SweepKeeps(n: Node, d: Deps)
    requires Inv(n) && Sweeping(n)
    ensures Inv(SweepOn(n, d).0)
  {
    hide Local;
    SelfLocal(n);
    var m := SweepOn(n, d).0;
    if n.sweep.Dequeuing? && n.sweep.i < |n.kids| {
      DequeuingKeepsLocal(n, d);
      WithdrawElementKeeps(n.kids[n.sweep.i]);
    } else if n.sweep.Dequeuing? {
      SweepEndKeepsLocal(n, d);
    } else {
      UnblockingKeepsLocal(n, d);
      SweptInRange(n);
      UnblockKeeps(n.kids[n.sweep.i]);
    }
    assert KidsInv(m);
  }

  lemma SweptInRange(n: Node)
    requires Local(n) && Sweeping(n)
    ensures Swept(n) <= |n.kids|
  {
  }

  lemma BeginSweepKeeps(n: Node, own: bool)
    requires Inv(n) && n.kind != Leaf && InFlight(n) && !Sweeping(n) && (own ==> n.ph.StopDue?)
    ensures Inv(BeginSweep(n, own))
  {
    var m := BeginSweep(n, own);
    assert KidsInv(m);
    SelfLocal(n);
    BeginSweepLocal(n, own);
  }

  lemma BeginSweepLocal(n: Node, own: bool)
    requires Local(n) && n.kind != Leaf && InFlight(n) && !Sweeping(n) && (own ==> n.ph.StopDue?)
    ensures Local(BeginSweep(n, own))
  {
    SameFrontier(n, BeginSweep(n, own));
    hide Count, Frontier, OpenFrontier;
  }

  lemma EnqueueElementKeeps(k: Node, block: bool)
    requires Inv(k) && k.ph.Idle?
    ensures Inv(EnqueueElement(k, block))
  {
  }

  lemma EnqueueKeeps(n: Node)
    requires LocalBefore(n) && KidsInv(n) && n.kind != Leaf
    requires n.ph.RunDone? && n.led.isSequence == (n.kind == Sequential)
    ensures Pending(EnqueueElements(n)) && KidsInv(EnqueueElements(n))
  {
    var m := EnqueueElements(n);
    forall i | 0 <= i < |m.kids| ensures Inv(m.kids[i]) {
      EnqueueElementKeeps(n.kids[i], n.led.isSequence);
    }
    CountFull(Waiting, m.kids);
    CountZero(Flying, m.kids);
  }

  lemma StartKeeps(k: Node)
    requires Inv(k) && k.ph.InQueue? && !k.blocked
    ensures Inv(StartNode(k))
  {
  }

  /** Only the root of a tree may be touched outside its flight, and then only its flag. */
  lemma StepIsInFlight(n: Node, a: Act, d: Deps)
    requires Inv(n) && Enabled(n, a, d) && !a.In? && !a.RaiseFlag?
    ensures InFlight(n)
  {
  }

  lemma StepStays(n: Node, a: Act, d: Deps)
    requires Enabled(n, a, d) && !a.In? && InFlight(n)
    ensures InFlight(Next(n, a, d).0)
    ensures Next(n, a, d).0.blocked == n.blocked && Next(n, a, d).0.id == n.id
  {
  }

  /** A step that an element takes inside itself leaves its class, its blocker and its identity. */
  lemma {:induction false} StaysInFlight(n: Node, a: Act, d: Deps)
    requires Inv(n) && Enabled(n, a, d)
    ensures ClassOf(Next(n, a, d).0) == ClassOf(n)
    ensures Next(n, a, d).0.blocked == n.blocked && Next(n, a, d).0.id == n.id
  {
    if !a.In? && !a.RaiseFlag? {
      StepIsInFlight(n, a, d);
      StepStays(n, a, d);
    }
  }

  /** Whatever acts from inside a tree acts on nodes in flight. */
  lemma {:induction false} ActsInFlight(n: Node, a: Act, d: Deps)
    requires Inv(n) && Enabled(n, a, d) && Internal(a)
    ensures InFlight(n)
    decreases a
  {
    if a.In? {
      ActsInFlight(n.kids[a.i], a.a, d);
      ParentFlies(n, a.i);
    } else {
      StepIsInFlight(n, a, d);
    }
  }

  lemma ParentFlies(n: Node, i: nat)
    requires Inv(n) && i < |n.kids| && InFlight(n.kids[i])
    ensures n.ph.Open? && !n.skipped && n.kind != Leaf
  {
    CountZero(Flying, n.kids);
  }

  /** The local part sees of an element only its class and whether it is blocked. */
  lemma LocalSwap(n: Node, ks: seq<Node>)
    requires Local(n) && |ks| == |n.kids|
    requires forall i :: 0 <= i < |ks| ==> ClassOf(ks[i]) == ClassOf(n.kids[i]) && ks[i].blocked == n.kids[i].blocked
    ensures Local(n.(kids := ks))
  {
    var m := n.(kids := ks);
    SwapPhases(n, m);
    SwapSweep(n, m);
    hide LocalBefore, Resting, InStopWindow, Done, SweepOk;
  }

  lemma SwapSweep(n: Node, m: Node)
    requires m == n.(kids := m.kids) && |m.kids| == |n.kids| && SweepOk(n)
    requires forall i :: 0 <= i < |n.kids| ==> ClassOf(m.kids[i]) == ClassOf(n.kids[i])
    ensures SweepOk(m)
  {
  }

  ghost predicate Alike(n: Node, m: Node) {
    && m == n.(kids := m.kids) && |m.kids| == |n.kids|
    && forall i :: 0 <= i < |n.kids| ==>
      ClassOf(m.kids[i]) == ClassOf(n.kids[i]) && m.kids[i].blocked == n.kids[i].blocked
  }

  lemma SwapPhases(n: Node, m: Node)
    requires Alike(n, m)
    ensures LocalBefore(n) ==> LocalBefore(m)
    ensures Resting(n) ==> Resting(m)
    ensures InStopWindow(n) ==> InStopWindow(m)
    ensures Done(n) ==> Done(m)
  {
    SwapEarly(n, m);
    SwapLate(n, m);
    hide Alike, LocalBefore, Done, Resting, InStopWindow;
  }

  lemma SwapEarly(n: Node, m: Node)
    requires Alike(n, m)
    ensures LocalBefore(n) ==> LocalBefore(m)
    ensures Done(n) ==> Done(m)
  {
    SameClasses(n, m);
    assert InFlight(m) == InFlight(n);
    hide AllKids, NoKidBlocked, InFlight;
  }

  lemma SwapLate(n: Node, m: Node)
    requires Alike(n, m)
    ensures Resting(n) ==> Resting(m)
    ensures InStopWindow(n) ==> InStopWindow(m)
  {
    SameFrontier(n, m);
    CountSame(Waiting, m.kids, n.kids);
    CountSame(Flying, m.kids, n.kids);
    SameClasses(n, m);
    assert InWindow(m) == InWindow(n);
    hide Count, Frontier, OpenFrontier, AllKids, NoKid, NoKidBlocked, InWindow;
  }

  lemma SameClasses(n: Node, m: Node)
    requires |m.kids| == |n.kids|
    requires forall i :: 0 <= i < |n.kids| ==>
      ClassOf(m.kids[i]) == ClassOf(n.kids[i]) && m.kids[i].blocked == n.kids[i].blocked
    ensures AllKids(m, Unborn) == AllKids(n, Unborn) && NoKid(m, Unborn) == NoKid(n, Unborn)
    ensures NoKidBlocked(m) == NoKidBlocked(n)
  {
  }

  lemma FlagKeepsLocal(n: Node)
    requires Local(n)
    ensures Local(n.(led := n.led.(shouldAbort := true)))
  {
    SameFrontier(n, n.(led := n.led.(shouldAbort := true)));
    hide Count, Frontier, OpenFrontier;
  }

  lemma TakeKidFrontier(n: Node, i: nat, k: Node)
    requires OpenFrontier(n) && i < |n.kids| && ClassOf(n.kids[i]) == Waiting && !n.kids[i].blocked
    requires ClassOf(k) == Flying && !k.blocked
    ensures i == n.led.completed - 1 && OpenFrontier(n.(kids := n.kids[i := k]))
  {
  }

  lemma TakeKidLocal(n: Node, i: nat, k: Node, d: Deps)
    requires Local(n) && Enabled(n, TakeKid(i), d) && k == StartNode(n.kids[i])
    ensures Local(Next(n, TakeKid(i), d).0)
  {
    hide Count;
    var m := Next(n, TakeKid(i), d).0;
    assert ClassOf(n.kids[i]) == Waiting && ClassOf(k) == Flying;
    assert n.ph.Open? && !n.skipped;
    CountUpdate(Waiting, n.kids, i, k);
    CountUpdate(Flying, n.kids, i, k);
    if n.kind == Sequential {
      TakeKidFrontier(n, i, k);
    } else {
      assert NoKidBlocked(m);
    }
    assert NoKid(m, Unborn);
    assert Resting(m);
  }

  lemma TakeKidKeeps(n: Node, i: nat, d: Deps)
    requires Inv(n) && Enabled(n, TakeKid(i), d)
    ensures Inv(Next(n, TakeKid(i), d).0)
  {
    StartKeeps(n.kids[i]);
    TakeKidLocal(n, i, StartNode(n.kids[i]), d);
    assert KidsInv(Next(n, TakeKid(i), d).0);
  }

  lemma EndKeeps(k: Node)
    requires Inv(k) && k.ph.Ending?
    ensures Inv(k.(ph := Ended))
  {
  }

  lemma KidEndFrontier(n: Node, i: nat, m: Node)
    requires OpenFrontier(n) && i < |n.kids| && n.kids[i].ph.Ending? && !n.kids[i].blocked
    requires m == n.(kids := n.kids[i := n.kids[i].(ph := Ended)]) && !Sweeping(n)
    ensures i == n.led.completed - 1 && Frontier(m, m.led.completed)
  {
  }

  lemma KidEndPending(n: Node, i: nat, m: Node)
    requires Local(n) && i < |n.kids| && n.kids[i].ph.Ending? && !n.kids[i].blocked && !Sweeping(n)
    requires m == n.(kids := n.kids[i := n.kids[i].(ph := Ended)])
    ensures n.ph.Open? && n.kind != Leaf && Pending(m) && StatusFits(m)
  {
    hide Frontier, OpenFrontier;
    var k := n.kids[i].(ph := Ended);
    assert ClassOf(n.kids[i]) == Flying && ClassOf(k) == Over;
    CountUpdate(Waiting, n.kids, i, k);
    CountUpdate(Flying, n.kids, i, k);
    CountZero(Flying, n.kids);
    InFlightIsOpen(n);
    hide Count;
    if n.kind == Sequential {
      KidEndFrontier(n, i, m);
    } else {
      assert NoKidBlocked(m);
    }
  }

  lemma InFlightIsOpen(n: Node)
    requires Local(n) && Count(Flying, n.kids) > 0
    ensures n.ph.Open? && !n.skipped && n.kind != Leaf
  {
    CountZero(Flying, n.kids);
  }

  lemma KidEndKeeps(n: Node, i: nat, d: Deps)
    requires Inv(n) && Enabled(n, KidEnd(i), d)
    ensures n.ph.Open?
    ensures Inv(Next(n, KidEnd(i), d).0)
  {
    var m := n.(kids := n.kids[i := n.kids[i].(ph := Ended)]);
    assert Local(n.kids[i]);
    KidEndPending(n, i, m);
    EndKeeps(n.kids[i]);
    assert KidsInv(m);
    hide Local, Pending;
    PartCompletedKeeps(m, n.kids[i].led.status, d);
  }

  lemma EndRunKeeps(n: Node, d: Deps)
    requires Inv(n) && n.ph.RunDone? && !Sweeping(n)
    ensures Inv(Next(n, EndRun, d).0)
  {
    if n.kind == Leaf {
      assert KidsInv(Next(n, EndRun, d).0);
    } else if n.led.shouldAbort {
      var m := n.(skipped := true);
      assert Pending(m) && KidsInv(m);
      PartCompletedKeeps(m, n.led.status, d);
    } else {
      EnqueueKeeps(n);
      PartCompletedKeeps(EnqueueElements(n), n.led.status, d);
    }
  }

  lemma InsideKeeps(n: Node, i: nat, k: Node)
    requires Inv(n) && i < |n.kids| && Inv(k)
    requires ClassOf(k) == ClassOf(n.kids[i]) && k.blocked == n.kids[i].blocked
    ensures Inv(n.(kids := n.kids[i := k]))
  {
    LocalSwap(n, n.kids[i := k]);
    assert KidsInv(n.(kids := n.kids[i := k]));
  }

  lemma FinishRunKeeps(n: Node, d: Deps)
    requires Inv(n) && n.ph.Executing?
    ensures Inv(Next(n, FinishRun, d).0)
  {
  }

  lemma RaiseFlagKeeps(n: Node, d: Deps)
    requires Inv(n)
    ensures Inv(Next(n, RaiseFlag, d).0)
  {
    FlagKeepsLocal(n);
    assert KidsInv(Next(n, RaiseFlag, d).0);
  }

  lemma AfterWindowKeeps(n: Node, d: Deps)
    requires Inv(n) && n.ph.StopDone? && !Sweeping(n)
    ensures Inv(Next(n, AfterWindow, d).0)
  {
    var s := SetStatus(n, n.ph.failure);
    assert KidsInv(s) && Pending(s);
    SettleKeeps(s, d);
  }

  lemma WindowIsSequence(n: Node)
    requires Inv(n) && InWindow(n)
    ensures n.kind == Sequential
  {
  }

  lemma RootStepKeeps(n: Node, a: Act, d: Deps)
    requires Inv(n) && Enabled(n, a, d) && !a.In?
    ensures Inv(Next(n, a, d).0)
  {
    hide Inv, Local;
    match a
    case FinishRun => FinishRunKeeps(n, d);
    case EndRun => EndRunKeeps(n, d);
    case StopInWindow =>
      WindowIsSequence(n);
      BeginSweepKeeps(n, true);
    case AfterWindow => AfterWindowKeeps(n, d);
    case TakeKid(i) => TakeKidKeeps(n, i, d);
    case KidEnd(i) => KidEndKeeps(n, i, d);
    case Sweep => SweepKeeps(n, d);
    case OutsideStop => BeginSweepKeeps(n, false);
    case RaiseFlag => RaiseFlagKeeps(n, d);
  }

  /** Every step at any depth keeps the invariant of the whole tree. */
  lemma {:induction false} StepKeeps(n: Node, a: Act, d: Deps)
    requires Inv(n) && Enabled(n, a, d)
    ensures Inv(Next(n, a, d).0)
    decreases a
  {
    if a.In? {
      StepKeeps(n.kids[a.i], a.a, d);
      StaysInFlight(n.kids[a.i], a.a, d);
      InsideKeeps(n, a.i, Next(n.kids[a.i], a.a, d).0);
    } else {
      RootStepKeeps(n, a, d);
    }
  }
}
