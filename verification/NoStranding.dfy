/** No event that waits for a retry is forgotten: a message for it is still there.

    This needs what the queue's visibility timeout stands for: a message is received again
    only after its holder has settled it or died. */
module NoStranding {
  import opened Records
  import opened Tables
  import opened Claims
  import opened Coupling
  import opened Services
  import opened Protocol
  import opened Effects
  import opened Ownership
  import opened RetryBudget

  /** The receipts a worker has not settled: the one it works on, then its inbox. */
  function HeldBy(s: Sys, w: int): seq<Receipt> {
    var x := WorkerOf(s, w);
    (if x.job.Queued? || x.job.Settling? then [x.job.receipt] else []) + x.inbox
  }

  ghost predicate Unheld(s: Sys, msg: int) {
    forall w: int, i: nat :: i < |HeldBy(s, w)| ==> HeldBy(s, w)[i].msg != msg
  }

  /** The queue hands out, or moves away, only messages nobody holds. */
  ghost predicate Leased(s: Sys, l: Label) {
    l.Receive? || l.ToDlq? ==> Unheld(s, l.msg)
  }

  ghost predicate LeasedRun(states: seq<Sys>, labels: seq<Label>) {
    IsRun(states, labels) && forall i :: 0 <= i < |labels| ==> Leased(states[i], labels[i])
  }

  // ----- the invariant

  /** No message is held twice. */
  ghost predicate HeldOnce(s: Sys) {
    forall v: int, w: int, i: nat, j: nat ::
      i < |HeldBy(s, v)| && j < |HeldBy(s, w)| && (v != w || i != j) ==> HeldBy(s, v)[i].msg != HeldBy(s, w)[j].msg
  }

  ghost predicate Present(s: Sys, msg: int) {
    msg in s.queue && s.queue[msg].place != Deleted
  }

  ghost predicate HeldPresent(s: Sys) {
    forall w: int, i: nat :: i < |HeldBy(s, w)| ==> Present(s, HeldBy(s, w)[i].msg)
  }

  /** The worker is about to delete the message. */
  predicate Acknowledging(s: Sys, w: int, msg: int) {
    var job := WorkerOf(s, w).job;
    job.Settling? && job.action == Acknowledge && job.receipt.msg == msg
  }

  /** The message is in the queue or the dead-letter queue, and nobody is about to delete it. */
  ghost predicate Safe(s: Sys, msg: int, e: int) {
    && Present(s, msg) && s.queue[msg].event == e
    && forall w: int :: !Acknowledging(s, w, msg)
  }

  ghost predicate Waits(s: Sys, e: int) {
    e in s.db.events && Resumable(s.db.events[e])
  }

  ghost predicate NobodyStranded(s: Sys) {
    forall e: int :: Waits(s, e) ==> exists msg: int :: Safe(s, msg, e)
  }

  ghost predicate LeaseInv(s: Sys) {
    && BudgetInv(s)
    && HeldOnce(s) && HeldPresent(s)
    && NobodyStranded(s)
  }

  // ----- what a step does to what is held

  function HeldAfter(s: Sys, l: Label, w: int): seq<Receipt>
    requires Enabled(s, l)
  {
    if !HasWorker(l) || l.w != w then HeldBy(s, w)
    else if l.Receive? then HeldBy(s, w) + [Receipt(l.msg, s.queue[l.msg].received + 1)]
    else if Finishes(l) && WorkerOf(s, w).job.Queued? && RecordOf(s, l).Raised? then []
    else if l.Settle? then HeldBy(s, w)[1..]
    else if l.Crash? then []
    else HeldBy(s, w)
  }

  lemma StartedHeld(s: Sys, l: Label, v: int)
    requires Starts(l) && Enabled(s, l)
    ensures HeldBy(Next(s, l), v) == HeldBy(s, v)
  {
    match l
    case StartQueued(w, _, _, _) =>
      var inbox := WorkerOf(s, w).inbox;
      assert inbox == [inbox[0]] + inbox[1..];
    case StartBatch(_, _, _, _, _, _) =>
    case StartDirect(_, _, _) =>
  }

  lemma FinishedHeld(s: Sys, w: int, r: Outcome<Store>, action: Action, v: int)
    requires Delivering(WorkerOf(s, w).job)
    ensures HeldBy(Finished(s, w, r, action), v)
            == if v == w && WorkerOf(s, w).job.Queued? && r.Raised? then [] else HeldBy(s, v)
  {
  }

  lemma OtherHeld(s: Sys, l: Label, v: int)
    requires Enabled(s, l) && !Starts(l) && !Finishes(l)
    ensures HeldBy(Next(s, l), v) == HeldAfter(s, l, v)
  {
  }

  lemma NextHeld(s: Sys, l: Label, v: int)
    requires Enabled(s, l)
    ensures HeldBy(Next(s, l), v) == HeldAfter(s, l, v)
  {
    if Starts(l) {
      StartedHeld(s, l, v);
    } else if Finishes(l) {
      var again := l.WeatherFails? && l.retryable && WorkerOf(s, l.w).job.Queued?;
      FinishedHeld(s, l.w, RecordOf(s, l), if again then Retry else Acknowledge, v);
    } else {
      OtherHeld(s, l, v);
    }
  }

  lemma HeldSource(s: Sys, l: Label, w: int, i: nat)
    requires Enabled(s, l) && i < |HeldAfter(s, l, w)|
    ensures if l.Receive? && l.w == w && i == |HeldBy(s, w)| then HeldAfter(s, l, w)[i].msg == l.msg
            else var k := if l.Settle? && l.w == w then i + 1 else i;
                 k < |HeldBy(s, w)| && HeldAfter(s, l, w)[i] == HeldBy(s, w)[k]
  {
  }

  /** A message disappears only when its holder settles it with an acknowledgement. */
  lemma PresentStays(s: Sys, l: Label, msg: int)
    requires Enabled(s, l) && Present(s, msg)
    ensures Present(Next(s, l), msg) || (l.Settle? && Acknowledging(s, l.w, msg))
  {
  }

  lemma FirstIsCurrent(s: Sys, w: int)
    requires WorkerOf(s, w).job.Queued? || WorkerOf(s, w).job.Settling?
    ensures HeldBy(s, w) != [] && HeldBy(s, w)[0] == WorkerOf(s, w).job.receipt
  {
  }

  lemma HeldOnceStep(s: Sys, l: Label)
    requires LeaseInv(s) && Enabled(s, l) && Leased(s, l)
    ensures HeldOnce(Next(s, l))
  {
    forall v: int, w: int, i: nat, j: nat | i < |HeldBy(Next(s, l), v)| && j < |HeldBy(Next(s, l), w)|
        && (v != w || i != j)
      ensures HeldBy(Next(s, l), v)[i].msg != HeldBy(Next(s, l), w)[j].msg
    {
      NextHeld(s, l, v);
      NextHeld(s, l, w);
      HeldSource(s, l, v, i);
      HeldSource(s, l, w, j);
    }
  }

  lemma HeldPresentStep(s: Sys, l: Label)
    requires LeaseInv(s) && Enabled(s, l) && Leased(s, l)
    ensures HeldPresent(Next(s, l))
  {
    forall w: int, i: nat | i < |HeldBy(Next(s, l), w)| ensures Present(Next(s, l), HeldBy(Next(s, l), w)[i].msg) {
      NextHeld(s, l, w);
      HeldSource(s, l, w, i);
      var msg := HeldAfter(s, l, w)[i].msg;
      assert Present(s, msg);
      PresentStays(s, l, msg);
      if l.Settle? {
        FirstIsCurrent(s, l.w);
      }
    }
  }

  // ----- the witness

  lemma StartedAcknowledging(s: Sys, l: Label, w: int, msg: int)
    requires Starts(l) && Enabled(s, l) && Acknowledging(Next(s, l), w, msg)
    ensures Acknowledging(s, w, msg)
            || (l.StartQueued? && l.w == w && WorkerOf(s, w).inbox[0].msg == msg && GrantedBy(s, l) == [])
  {
  }

  lemma FinishedAcknowledging(s: Sys, v: int, r: Outcome<Store>, action: Action, w: int, msg: int)
    requires Delivering(WorkerOf(s, v).job) && Acknowledging(Finished(s, v, r, action), w, msg)
    ensures Acknowledging(s, w, msg)
            || (v == w && action == Acknowledge && WorkerOf(s, w).job.Queued? && WorkerOf(s, w).job.receipt.msg == msg)
  {
  }

  lemma OtherAcknowledging(s: Sys, l: Label, w: int, msg: int)
    requires Enabled(s, l) && !Starts(l) && !Finishes(l) && Acknowledging(Next(s, l), w, msg)
    ensures Acknowledging(s, w, msg)
  {
  }

  /** A worker that is about to delete a message after a step was so before, or the step
      decided it. */
  lemma AcknowledgingSource(s: Sys, l: Label, w: int, msg: int)
    requires Enabled(s, l) && Acknowledging(Next(s, l), w, msg)
    ensures Acknowledging(s, w, msg)
            || (l.StartQueued? && l.w == w && WorkerOf(s, w).inbox[0].msg == msg && GrantedBy(s, l) == [])
            || (Finishes(l) && l.w == w && WorkerOf(s, w).job.Queued? && WorkerOf(s, w).job.receipt.msg == msg
                && !(l.WeatherFails? && l.retryable))
  {
    if Starts(l) {
      StartedAcknowledging(s, l, w, msg);
    } else if Finishes(l) {
      var again := l.WeatherFails? && l.retryable && WorkerOf(s, l.w).job.Queued?;
      FinishedAcknowledging(s, l.w, RecordOf(s, l), if again then Retry else Acknowledge, w, msg);
    } else {
      OtherAcknowledging(s, l, w, msg);
    }
  }

  /** While an event waits for a retry, every message for it leads to a claim, so nobody
      decides to delete one. */
  lemma WaitingIsGranted(s: Sys, l: Label)
    requires OwnInv(s) && l.StartQueued? && Enabled(s, l)
    requires Waits(s, s.queue[WorkerOf(s, l.w).inbox[0].msg].event)
    ensures GrantedBy(s, l) != []
  {
    GrantedExactlyWhen(s.db, s.queue[WorkerOf(s, l.w).inbox[0].msg].event, l.now, l.grace, l.allowReal);
  }

  lemma SafeStays(s: Sys, l: Label, msg: int, e: int)
    requires LeaseInv(s) && Enabled(s, l) && Waits(s, e) && Safe(s, msg, e)
    ensures Safe(Next(s, l), msg, e)
  {
    QueueGrows(s, l);
    PresentStays(s, l, msg);
    forall w: int ensures !Acknowledging(Next(s, l), w, msg) {
      if Acknowledging(Next(s, l), w, msg) {
        AcknowledgingSource(s, l, w, msg);
        if l.StartQueued? {
          WaitingIsGranted(s, l);
        } else {
          HeadIsHeld(s, w);
        }
      }
    }
  }

  /** The message whose receive was just spent is safe: its holder will put it back. */
  lemma SpentMessageIsSafe(s: Sys, l: Label, e: int)
    requires LeaseInv(s) && Enabled(s, l) && Spends(s, l, e)
    ensures Safe(Next(s, l), WorkerOf(s, l.w).job.receipt.msg, e)
  {
    var msg := WorkerOf(s, l.w).job.receipt.msg;
    assert HeldBy(s, l.w)[0].msg == msg;
    QueueGrows(s, l);
    PresentStays(s, l, msg);
    forall w: int ensures !Acknowledging(Next(s, l), w, msg) {
      if WorkerOf(s, w).job.Queued? || WorkerOf(s, w).job.Settling? {
        FirstIsCurrent(s, w);
      }
      if WorkerOf(s, w).inbox != [] {
        assert HeldBy(s, w)[|HeldBy(s, w)| - |WorkerOf(s, w).inbox|] == WorkerOf(s, w).inbox[0];
      }
      if Acknowledging(Next(s, l), w, msg) {
        AcknowledgingSource(s, l, w, msg);
      }
    }
  }

  /** An event starts to wait only when a receipt is spent on it. */
  lemma WaitStarts(s: Sys, l: Label, e: int)
    requires OwnInv(s) && Enabled(s, l) && Waits(Next(s, l), e) && !Waits(s, e)
    ensures Spends(s, l, e)
  {
    NextDb(s, l);
    DbEffect(s, l);
    assert e in s.db.events;
    var x, y := s.db.events[e], DbAfter(s, l).events[e];
    ResumableByEffect(x, y, EndedBy(s, l) == Some(e));
    assert EndedBy(s, l) == Some(e);
    if RecordOf(s, l).Ok? {
      RetryIsSpending(s, l);
    }
  }

  lemma ResumableByEffect(x: Entry, y: Entry, ended: bool)
    requires Coupled(x) && Coupled(y) && Effect(x, y, ended) && Resumable(y)
    ensures Resumable(x) || (ended && EndStep(x, y))
  {
    if SameDelivery(x, y) && x.attempts != [] {
      assert Core(Last(x)) == Core(Last(y));
    }
  }

  lemma NobodyStrandedStep(s: Sys, l: Label)
    requires LeaseInv(s) && Enabled(s, l) && Leased(s, l)
    ensures NobodyStranded(Next(s, l))
  {
    forall e: int | Waits(Next(s, l), e) ensures exists msg: int :: Safe(Next(s, l), msg, e) {
      if Waits(s, e) {
        var msg: int :| Safe(s, msg, e);
        SafeStays(s, l, msg, e);
      } else {
        WaitStarts(s, l, e);
        SpentMessageIsSafe(s, l, e);
      }
    }
  }

  lemma LeaseStep(s: Sys, l: Label)
    requires LeaseInv(s) && Enabled(s, l) && Leased(s, l)
    ensures LeaseInv(Next(s, l))
  {
    BudgetStep(s, l);
    HeldOnceStep(s, l);
    HeldPresentStep(s, l);
    NobodyStrandedStep(s, l);
  }

  lemma LeaseInit(s: Sys)
    requires Init(s)
    ensures LeaseInv(s)
  {
    BudgetInit(s);
    assert forall w :: HeldBy(s, w) == [];
  }

  lemma {:induction false} LeaseRunInv(states: seq<Sys>, labels: seq<Label>, i: nat)
    requires LeasedRun(states, labels) && i <= |labels|
    ensures LeaseInv(states[i])
  {
    if i == 0 {
      LeaseInit(states[0]);
    } else {
      LeaseRunInv(states, labels, i - 1);
      assert StepAt(states, labels, i - 1);
      LeaseStep(states[i - 1], labels[i - 1]);
    }
  }

  /** In every reachable state an event that waits for a retry has a message that is neither
      deleted nor about to be: in the queue, or in the dead-letter queue. */
  lemma NoStrandedRetry(states: seq<Sys>, labels: seq<Label>, i: nat, e: int)
    requires LeasedRun(states, labels) && i <= |labels|
    requires e in states[i].db.events && Resumable(states[i].db.events[e])
    ensures exists msg: int :: msg in states[i].queue && states[i].queue[msg].event == e
                          && (states[i].queue[msg].place == InQueue || states[i].queue[msg].place == InDlq)
  {
    LeaseRunInv(states, labels, i);
    assert Waits(states[i], e);
    var msg: int :| Safe(states[i], msg, e);
    assert states[i].queue[msg].event == e;
  }
}
