/** The counters and flags that a Collection keeps about itself, and the arithmetic that
    its critical sections do on them. */
module CollectionLedger {
  import opened JobStatus

  /** `api` says that the pointer to the queue is set; `completed` is used by Sequences only. */
  datatype Ledger = Ledger(
    isSequence: bool,
    status: Status,
    shouldAbort: bool,
    api: bool,
    jobCounter: int,
    completed: nat)

  /** updateStatus: the status a collection takes when one of its parts ends with `part`. */
  function UpdatedStatus(part: Status): Status {
    if part == Success then Running else part
  }

  function FinalCleanup(l: Ledger): Ledger {
    var s := if l.shouldAbort then Aborted
             else if l.status.NotYetFinished() then Success
             else l.status;
    l.(status := s, api := false)
  }

  /** dequeueElements, when `found` elements were still in the queue. */
  function WithdrawFound(l: Ledger, found: nat): Ledger {
    if !l.api then l else
    var m := l.(jobCounter := l.jobCounter - found);
    if m.jobCounter == 1 then FinalCleanup(m) else m
  }

  /** The count-down at the end of elementFinished; the flag says that callEnd follows. */
  function CountDown(l: Ledger): (Ledger, bool) {
    var m := l.(jobCounter := l.jobCounter - 1);
    if m.jobCounter == 0 then (FinalCleanup(m), true) else (m, false)
  }

  /** enqueueElements, for a composite of n elements. */
  function Opened(l: Ledger, n: nat): Ledger {
    l.(jobCounter := n + 1, completed := if l.isSequence then 0 else l.completed)
  }

  /** processCompletedElement in one piece, for a part that ended with `part`: a Sequence that stops
      because of it finds `found` of its elements still queued. */
  function Processed(l: Ledger, part: Status, found: nat): Ledger {
    var m := l.(status := UpdatedStatus(part));
    if !l.isSequence then m else
    (if m.status == Running then m else WithdrawFound(m, found).(status := m.status)).(completed := l.completed + 1)
  }
}
