/** The delivery protocol as a state machine: any number of queue workers and direct
    dispatchers over one database and one at-least-once queue, with users, staff and
    callbacks in between, and with workers that may die at any point.

    Every label is one transaction, one provider call, or one queue operation. A label
    carries everything the code does not decide: clocks, replies, locked rows. */
module Protocol {
  import opened Records
  import opened Tables
  import opened Ordering
  import opened Claims
  import opened Delivery
  import opened Coupling
  import opened BatchClaims
  import opened Services

  datatype Place = InQueue | InDlq | Deleted

  /** A delivery message: the event it names, and how often it was received. */
  datatype Message = Message(event: int, received: nat, place: Place)

  /** One receive of a message. */
  datatype Receipt = Receipt(msg: int, count: nat)

  /** Where a worker is with the first of its claims. */
  datatype Phase = Fetching | Rendered(message: string) | Entered(message: string)

  datatype Job =
    | Idle
    | Queued(receipt: Receipt, claim: Claim, phase: Phase)
    | Direct(claims: seq<Claim>, phase: Phase)
    | Settling(receipt: Receipt, action: Action)

  datatype Worker = Worker(inbox: seq<Receipt>, job: Job)

  const FREE := Worker([], Idle)

  /** What was handed to a sender, and which of the two senders it was. */
  datatype Sent = Sent(send: Send, zip: string, toMessageSender: bool)

  /** `sent` and `burned` are histories: the calls of `send`, and for every event the
      receipts that were spent on a retryable failure. Nothing reads them. */
  datatype Sys = Sys(
    db: Store,
    workers: map<int, Worker>,
    queue: map<int, Message>,
    maxReceives: int,
    sent: seq<Sent>,
    burned: map<int, seq<Receipt>>)

  datatype Label =
    | Service(op: Op)
    | Publish(msg: int, event: int)
    | Receive(w: int, msg: int)
    | ToDlq(msg: int)
    | StartQueued(w: int, now: int, grace: nat, allowReal: bool)
    | StartBatch(w: int, locked: set<int>, now: int, size: int, grace: nat, includeReal: bool)
    | StartDirect(w: int, event: int, now: int)
    | WeatherArrives(w: int, message: string)
    | WeatherFails(w: int, exc: ClassName, retryable: bool, at: int)
    | SenderMissing(w: int, at: int)
    | SenderEntered(w: int)
    | SenderFails(w: int, exc: ClassName, at: int)
    | SenderReturns(w: int, sid: Option<string>, at: int)
    | Settle(w: int)
    | Crash(w: int)

  function WorkerOf(s: Sys, w: int): Worker {
    if w in s.workers then s.workers[w] else FREE
  }

  function ClaimsIn(job: Job): seq<Claim> {
    match job
    case Queued(_, c, _) => [c]
    case Direct(claims, _) => claims
    case _ => []
  }

  function ClaimsOf(s: Sys, w: int): seq<Claim> {
    ClaimsIn(WorkerOf(s, w).job)
  }

  predicate Delivering(job: Job) {
    job.Queued? || (job.Direct? && job.claims != [])
  }

  function Head(job: Job): Claim
    requires Delivering(job)
  {
    if job.Queued? then job.claim else job.claims[0]
  }

  function BurnedOn(s: Sys, e: int): seq<Receipt> {
    if e in s.burned then s.burned[e] else []
  }

  // ----- the steps

  predicate InPhase(s: Sys, w: int, fetching: bool, rendered: bool, entered: bool) {
    var job := WorkerOf(s, w).job;
    && Delivering(job)
    && ((fetching && job.phase.Fetching?) || (rendered && job.phase.Rendered?) || (entered && job.phase.Entered?))
  }

  predicate Enabled(s: Sys, l: Label) {
    match l
    case Service(op) => OpEnabled(s.db, op)
    case Publish(msg, _) => msg !in s.queue
    case Receive(_, msg) => msg in s.queue && s.queue[msg].place == InQueue
    case ToDlq(msg) => msg in s.queue && s.queue[msg].place == InQueue
    case StartQueued(w, _, _, _) =>
      var x := WorkerOf(s, w);
      x.job.Idle? && x.inbox != [] && x.inbox[0].msg in s.queue
    case StartBatch(w, _, _, _, _, _) => WorkerOf(s, w).job.Idle?
    case StartDirect(w, _, _) => WorkerOf(s, w).job.Idle?
    case WeatherArrives(w, _) => InPhase(s, w, true, false, false)
    case WeatherFails(w, _, _, _) => InPhase(s, w, true, false, false)
    case SenderMissing(w, _) => InPhase(s, w, false, true, false) && !Head(WorkerOf(s, w).job).row.isDemo
    case SenderEntered(w) => InPhase(s, w, false, true, false)
    case SenderFails(w, _, _) => InPhase(s, w, false, false, true)
    case SenderReturns(w, _, _) => InPhase(s, w, false, false, true)
    case Settle(w) => WorkerOf(s, w).job.Settling? && WorkerOf(s, w).job.receipt.msg in s.queue
    case Crash(w) => true
  }

  function WithJob(s: Sys, w: int, job: Job): Sys {
    s.(workers := s.workers[w := WorkerOf(s, w).(job := job)])
  }

  function DirectJob(claims: seq<Claim>): Job {
    if claims == [] then Idle else Direct(claims, Fetching)
  }

  /** A recording transaction ends the delivery. When it raises instead, a queue worker dies
      of the exception and a dispatcher goes on with its next claim. */
  function Finished(s: Sys, w: int, r: Outcome<Store>, action: Action): Sys
    requires Delivering(WorkerOf(s, w).job)
  {
    var job := WorkerOf(s, w).job;
    var t := if r.Ok? then s.(db := r.value) else s;
    match job
    case Queued(receipt, _, _) =>
      if r.Ok? then WithJob(t, w, Settling(receipt, action)) else t.(workers := t.workers[w := FREE])
    case Direct(claims, _) => WithJob(t, w, DirectJob(claims[1..]))
  }

  /** The record of a weather failure: only a queued message that may be received again
      leaves the event to a retry. */
  function WeatherRecord(s: Sys, w: int, exc: ClassName, retryable: bool, at: int): Outcome<Store>
    requires Delivering(WorkerOf(s, w).job)
  {
    var job := WorkerOf(s, w).job;
    var c := Head(job);
    if job.Queued? && retryable && job.receipt.count < s.maxReceives then
      RecordRetryable(s.db, c.event, c.index, exc, at)
    else if job.Queued? && retryable then RecordFailure(s.db, c.event, c.index, RetryExhausted(exc), at)
    else RecordFailure(s.db, c.event, c.index, Plain(exc), at)
  }

  /** The receipt of a retryable failure that may be retried is spent. */
  function Burned(s: Sys, w: int): map<int, seq<Receipt>>
    requires Delivering(WorkerOf(s, w).job)
  {
    var job := WorkerOf(s, w).job;
    var e := Head(job).event;
    if job.Queued? && job.receipt.count < s.maxReceives then s.burned[e := BurnedOn(s, e) + [job.receipt]]
    else s.burned
  }

  function DoReceive(s: Sys, w: int, msg: int): Sys
    requires msg in s.queue
  {
    var m := s.queue[msg];
    var x := WorkerOf(s, w);
    s.(queue := s.queue[msg := m.(received := m.received + 1)],
       workers := s.workers[w := x.(inbox := x.inbox + [Receipt(msg, m.received + 1)])])
  }

  /** The worker takes the first message of its inbox, and the claim transaction decides. */
  function DoStartQueued(s: Sys, w: int, now: int, grace: nat, allowReal: bool): Sys
    requires WorkerOf(s, w).inbox != [] && WorkerOf(s, w).inbox[0].msg in s.queue
  {
    var x := WorkerOf(s, w);
    var receipt := x.inbox[0];
    var q := ClaimQueued(s.db, s.queue[receipt.msg].event, now, grace, allowReal).value;
    var job := match q.decision
               case Decided(action) => Settling(receipt, action)
               case Granted(c) => Job.Queued(receipt, c, Fetching);
    s.(db := q.store, workers := s.workers[w := Worker(x.inbox[1..], job)])
  }

  function DoStartBatch(s: Sys, w: int, locked: set<int>, now: int, size: int, grace: nat, includeReal: bool): Sys {
    var b := ClaimBatch(s.db, locked, now, size, grace, includeReal);
    if b.Raised? then s else WithJob(s.(db := b.value.store), w, DirectJob(b.value.deliveries))
  }

  function DoStartDirect(s: Sys, w: int, event: int, now: int): Sys {
    var d := ClaimDirect(s.db, event, now);
    if d.Raised? || d.value.claim.None? then s
    else WithJob(s.(db := d.value.store), w, DirectJob([d.value.claim.value]))
  }

  /** The sender is entered: from here on nobody can tell whether the provider accepted. */
  function DoSenderEntered(s: Sys, w: int): Sys
    requires InPhase(s, w, false, true, false)
  {
    var job := WorkerOf(s, w).job;
    var c := Head(job);
    WithJob(s, w, job.(phase := Entered(job.phase.message)))
    .(sent := s.sent + [Sent(RequestFor(c, job.phase.message), c.row.zip, !c.row.isDemo)])
  }

  function DoSettle(s: Sys, w: int): Sys
    requires WorkerOf(s, w).job.Settling? && WorkerOf(s, w).job.receipt.msg in s.queue
  {
    var job := WorkerOf(s, w).job;
    var m := s.queue[job.receipt.msg];
    var t := if job.action == Acknowledge then s.(queue := s.queue[job.receipt.msg := m.(place := Deleted)]) else s;
    WithJob(t, w, Idle)
  }

  predicate Finishes(l: Label) {
    l.WeatherFails? || l.SenderMissing? || l.SenderFails? || l.SenderReturns?
  }

  /** The recording transaction a finishing label stands for. */
  function RecordOf(s: Sys, l: Label): Outcome<Store>
    requires Finishes(l) && Enabled(s, l)
  {
    var job := WorkerOf(s, l.w).job;
    var c := Head(job);
    match l
    case WeatherFails(w, exc, retryable, at) => WeatherRecord(s, w, exc, retryable, at)
    case SenderMissing(_, at) => RecordFailure(s.db, c.event, c.index, Plain(NOT_CONFIGURED), at)
    case SenderFails(_, exc, at) => RecordFailure(s.db, c.event, c.index, Plain(exc), at)
    case SenderReturns(_, sid, at) =>
      RecordSuccess(s.db, c.event, c.index, TerminalStatus(c.row), job.phase.message, sid, at)
  }

  /** A delivery ends. Only a retryable weather failure of a queued message asks for the
      message again. */
  function DoFinish(s: Sys, l: Label): Sys
    requires Finishes(l) && Enabled(s, l)
  {
    var again := l.WeatherFails? && l.retryable;
    Finished(s, l.w, RecordOf(s, l), if again && WorkerOf(s, l.w).job.Queued? then Retry else Acknowledge)
    .(burned := if again && RecordOf(s, l).Ok? then Burned(s, l.w) else s.burned)
  }

  function Next(s: Sys, l: Label): Sys
    requires Enabled(s, l)
  {
    match l
    case Service(op) => s.(db := Apply(s.db, op))
    case Publish(msg, event) => s.(queue := s.queue[msg := Message(event, 0, InQueue)])
    case Receive(w, msg) => DoReceive(s, w, msg)
    case ToDlq(msg) => s.(queue := s.queue[msg := s.queue[msg].(place := InDlq)])
    case StartQueued(w, now, grace, allowReal) => DoStartQueued(s, w, now, grace, allowReal)
    case StartBatch(w, locked, now, size, grace, includeReal) =>
      DoStartBatch(s, w, locked, now, size, grace, includeReal)
    case StartDirect(w, event, now) => DoStartDirect(s, w, event, now)
    case WeatherArrives(w, message) => WithJob(s, w, WorkerOf(s, w).job.(phase := Rendered(message)))
    case SenderEntered(w) => DoSenderEntered(s, w)
    case Settle(w) => DoSettle(s, w)
    case Crash(w) => s.(workers := s.workers[w := FREE])
    case _ => DoFinish(s, l)
  }

  // ----- runs

  /** At the start nobody works, nothing was sent, and every event is pending. */
  ghost predicate Init(s: Sys) {
    && s.workers == map[] && s.queue == map[] && s.sent == [] && s.burned == map[]
    && s.maxReceives >= 1
    && StoreOk(s.db)
    && forall e :: e in s.db.events ==> s.db.events[e].row.status == Scheduled
  }

  /** The step number `i` of a run. */
  ghost predicate StepAt(states: seq<Sys>, labels: seq<Label>, i: nat) {
    && i < |labels| && i + 1 < |states|
    && Enabled(states[i], labels[i])
    && states[i + 1] == Next(states[i], labels[i])
  }

  /** The states of a run, one more than its labels. */
  ghost predicate IsRun(states: seq<Sys>, labels: seq<Label>) {
    && |states| == |labels| + 1
    && Init(states[0])
    && forall i :: 0 <= i < |labels| ==> StepAt(states, labels, i)
  }
}
