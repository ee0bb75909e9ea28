/** A composite job, its elements, and every atomic step that the worker threads and the outside
    world can take on them. A tree of nodes is the whole state; an action names one step and the
    path to the node that takes it. The Weaver appears only as the set of queued nodes: whatever
    its scan order and thread count, it can start any queued node that no policy refuses. */
module CollectionTree {
  import opened JobStatus
  import opened CollectionLedger
  import D = DependencyMap

  type Deps = seq<(nat, nat)>

  datatype Kind = Leaf | Plain | Sequential

  /** Where a node stands. StopDue and StopDone are the two halves of the window in which
      a Sequence gives up its mutex to stop itself after a failure. */
  datatype Phase =
    | Idle
    | InQueue
    | Withdrawn
    | Executing
    | RunDone
    | Open
    | StopDue(failure: Status)
    | StopDone(failure: Status)
    | Ending
    | Ended

  /** The loop in which a stop takes the elements out of the queue, one by one, while it holds the
      composite's mutex: at each position it first dequeues the element and then lifts its blocker.
      `own` marks the stop that a Sequence performs on itself in its window. */
  datatype Sweep =
    | Still
    | Dequeuing(i: nat, own: bool)
    | Unblocking(i: nat, own: bool)

  /** `outcome` is the status the node's own run() leaves. `started`, `begins` and `ends` count
      elementStarted, callBegin and callEnd. `skipped` records that an abort kept the elements
      from being queued, `stranded` that a stop withdrew the last queued elements while none
      was in flight. */
  datatype Node = Node(
    id: nat,
    kind: Kind,
    outcome: Status,
    ph: Phase,
    led: Ledger,
    sweep: Sweep,
    blocked: bool,
    started: nat,
    begins: nat,
    ends: nat,
    skipped: bool,
    stranded: bool,
    kids: seq<Node>)

  datatype Class = Unborn | Waiting | Flying | Over | Gone

  function ClassOf(n: Node): Class {
    match n.ph
    case Idle => Unborn
    case InQueue => Waiting
    case Withdrawn => Gone
    case Ended => Over
    case _ => Flying
  }

  predicate InFlight(n: Node) {
    ClassOf(n) == Flying
  }

  /** A worker thread is inside this node. */
  predicate Held(n: Node) {
    n.ph.Executing? || n.ph.RunDone? || InWindow(n) || n.ph.Ending?
  }

  predicate InWindow(n: Node) {
    n.ph.StopDue? || n.ph.StopDone?
  }

  predicate Sweeping(n: Node) {
    !n.sweep.Still?
  }

  /** The number of elements that the sweep has dequeued. */
  function Swept(n: Node): nat {
    match n.sweep
    case Still => 0
    case Dequeuing(i, _) => i
    case Unblocking(i, _) => i + 1
  }

  predicate Finishing(n: Node) {
    n.ph.Ending? || n.ph.Ended?
  }

  predicate BeforeOpen(n: Node) {
    n.ph.Idle? || n.ph.InQueue? || n.ph.Withdrawn? || n.ph.Executing? || n.ph.RunDone?
  }

  predicate Begun(n: Node) {
    InFlight(n) || n.ph.Ended?
  }

  /** What the steps of a node itself never change. */
  predicate SameFace(n: Node, m: Node) {
    m.id == n.id && m.kind == n.kind && m.outcome == n.outcome && m.blocked == n.blocked
    && |m.kids| == |n.kids| && m.led.isSequence == n.led.isSequence
  }

  function Count(c: Class, ks: seq<Node>): nat {
    if ks == [] then 0 else (if ClassOf(ks[0]) == c then 1 else 0) + Count(c, ks[1..])
  }

  // ---- Steps ----

  function SetStatus(n: Node, s: Status): Node {
    n.(led := n.led.(status := s))
  }

  /** aboutToBeQueued, the insertion and setStatus(Queued) for one element. */
  function EnqueueElement(k: Node, block: bool): Node {
    SetStatus(k.(ph := InQueue, blocked := block, led := k.led.(api := k.kind != Leaf)), Queued)
  }

  function EnqueueElements(n: Node): Node {
    n.(kids := seq(|n.kids|, i requires 0 <= i < |n.kids| => EnqueueElement(n.kids[i], n.led.isSequence)),
       led := Opened(n.led, |n.kids|))
  }

  /** dequeue, called for an element that may be queued or not; a found element is a New job again. */
  function WithdrawElement(k: Node): Node {
    if k.ph.InQueue? then SetStatus(k.(ph := Withdrawn, led := k.led.(api := false)), New) else k
  }

  function Free(d: Deps, id: nat, s: Status): Deps {
    if s == Success then D.Resolved(d, id) else d
  }

  /** stop, up to the beginning of its loop; there is none once the composite has been cleaned up. */
  function BeginSweep(n: Node, own: bool): (r: Node)
    ensures SameFace(n, r)
  {
    if n.led.api then n.(sweep := Dequeuing(0, own))
    else if own && n.ph.StopDue? then n.(ph := StopDone(n.ph.failure))
    else n
  }

  /** One more half round of the loop; behind its last round, the cleanup if one part is left to count,
      which releases the dependents. */
  function SweepOn(n: Node, d: Deps): (r: (Node, Deps))
    ensures SameFace(n, r.0)
  {
    match n.sweep
    case Still => (n, d)
    case Dequeuing(i, own) =>
      if i < |n.kids| then
        var counter := n.led.jobCounter - if n.kids[i].ph.InQueue? then 1 else 0;
        (n.(kids := n.kids[i := WithdrawElement(n.kids[i])],
            led := n.led.(jobCounter := counter),
            stranded := n.stranded || (n.ph.Open? && counter == 0),
            sweep := Unblocking(i, own)), d)
      else
        var led := if n.led.jobCounter == 1 then FinalCleanup(n.led) else n.led;
        (n.(led := led, sweep := Still, ph := if own && n.ph.StopDue? then StopDone(n.ph.failure) else n.ph),
         if n.led.jobCounter == 1 then Free(d, n.id, led.status) else d)
    case Unblocking(i, own) =>
      (n.(kids := if i < |n.kids| then n.kids[i := n.kids[i].(blocked := false)] else n.kids,
          sweep := Dequeuing(i + 1, own)), d)
  }

  /** The tail of elementFinished: count down and, at zero, clean up and call the end. */
  function Settle(n: Node, d: Deps): (r: (Node, Deps))
    ensures SameFace(n, r.0) && (r.0.ph.Open? || r.0.ph.Ending?)
  {
    var (led, done) := CountDown(n.led);
    if done
    then (n.(led := led, ph := Ending, ends := n.ends + 1), Free(d, n.id, led.status))
    else (n.(led := led, ph := Open), d)
  }

  /** A Sequence lifts the blocker from its next element. */
  function Advance(n: Node): (r: Node)
    ensures SameFace(n, r) && r.ph == n.ph
  {
    if n.kind != Sequential then n else
    var c := n.led.completed;
    n.(led := n.led.(completed := c + 1),
       kids := if c < |n.kids| then n.kids[c := n.kids[c].(blocked := false)] else n.kids)
  }

  /** elementFinished from processCompletedElement on, for a part that ended with status `s`. */
  function PartCompleted(n: Node, s: Status, d: Deps): (r: (Node, Deps))
    ensures SameFace(n, r.0) && InFlight(r.0)
  {
    var m := SetStatus(n, UpdatedStatus(s));
    if n.kind == Sequential && UpdatedStatus(s) != Running
    then (m.(ph := StopDue(UpdatedStatus(s))), d)
    else Settle(Advance(m), d)
  }

  function StartNode(n: Node): Node {
    ElementStarted(SetStatus(n.(ph := Executing), Running))
  }

  function ElementStarted(n: Node): Node {
    if n.kind == Leaf then n else
    n.(started := n.started + 1, begins := if n.started == 0 then n.begins + 1 else n.begins)
  }

  /** Sweep goes on with a stop that has begun. RaiseFlag sets shouldAbort, which takes no mutex and may
      happen to any part at any time. A call of requestAbort on a composite is a RaiseFlag and an
      OutsideStop on it, and then the same on its elements one after the other. */
  datatype Act =
    | FinishRun
    | EndRun
    | StopInWindow
    | AfterWindow
    | TakeKid(i: nat)
    | KidEnd(i: nat)
    | Sweep
    | OutsideStop
    | RaiseFlag
    | In(i: nat, a: Act)

  /** No stop or abort comes from outside the tree; one that has come goes on. */
  predicate Internal(a: Act) {
    match a
    case In(_, b) => Internal(b)
    case OutsideStop => false
    case RaiseFlag => false
    case _ => true
  }

  predicate Takeable(n: Node, d: Deps) {
    n.ph.InQueue? && !n.blocked && !D.HasUnresolved(d, n.id)
  }

  /** A step that needs the composite's mutex waits for a sweep, which holds it throughout. */
  predicate Enabled(n: Node, a: Act, d: Deps) {
    match a
    case FinishRun => n.ph.Executing?
    case EndRun => n.ph.RunDone? && !Sweeping(n)
    case StopInWindow => n.ph.StopDue? && !Sweeping(n)
    case AfterWindow => n.ph.StopDone? && !Sweeping(n)
    case TakeKid(i) => i < |n.kids| && Takeable(n.kids[i], d)
    case KidEnd(i) => i < |n.kids| && n.kids[i].ph.Ending? && !Sweeping(n)
    case Sweep => Sweeping(n)
    case OutsideStop => n.kind != Leaf && InFlight(n) && !Sweeping(n)
    case RaiseFlag => true
    case In(i, b) => i < |n.kids| && Enabled(n.kids[i], b, d)
  }

  function Next(n: Node, a: Act, d: Deps): (Node, Deps)
    requires Enabled(n, a, d)
  {
    match a
    case FinishRun => (SetStatus(n.(ph := RunDone), n.outcome), d)
    case EndRun =>
      if n.kind == Leaf then (n.(ph := Ending), Free(d, n.id, n.led.status)) else
      var m := if n.led.shouldAbort then n.(skipped := true) else EnqueueElements(n);
      PartCompleted(m, n.led.status, d)
    case StopInWindow => (BeginSweep(n, true), d)
    case AfterWindow => Settle(Advance(SetStatus(n, n.ph.failure)), d)
    case TakeKid(i) => (ElementStarted(n.(kids := n.kids[i := StartNode(n.kids[i])])), d)
    case KidEnd(i) =>
      PartCompleted(n.(kids := n.kids[i := n.kids[i].(ph := Ended)]), n.kids[i].led.status, d)
    case Sweep => SweepOn(n, d)
    case OutsideStop => (BeginSweep(n, false), d)
    case RaiseFlag => (n.(led := n.led.(shouldAbort := true)), d)
    case In(i, b) =>
      var (k, e) := Next(n.kids[i], b, d);
      (n.(kids := n.kids[i := k]), e)
  }
}
