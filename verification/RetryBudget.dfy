/** How often an event can be retried: every retry spends one receive of one message. */
module RetryBudget {
  import opened Records
  import opened Tables
  import opened Ordering
  import opened Claims
  import opened Delivery
  import opened Coupling
  import opened Services
  import opened Protocol
  import opened Effects
  import opened Ownership

  // ----- the invariant

  /** The receipts a worker may still spend: the one it works on, then its inbox. */
  function LiveOf(s: Sys, w: int): seq<Receipt> {
    var x := WorkerOf(s, w);
    (if x.job.Queued? then [x.job.receipt] else []) + x.inbox
  }

  ghost predicate Known(s: Sys, r: Receipt) {
    r.msg in s.queue && 1 <= r.count <= s.queue[r.msg].received
  }

  ghost predicate AllKnown(s: Sys) {
    forall w: int, i: nat :: i < |LiveOf(s, w)| ==> Known(s, LiveOf(s, w)[i])
  }

  ghost predicate AllDistinct(s: Sys) {
    forall v: int, w: int, i: nat, j: nat ::
      i < |LiveOf(s, v)| && j < |LiveOf(s, w)| && (v != w || i != j) ==> LiveOf(s, v)[i] != LiveOf(s, w)[j]
  }

  /** A spent receipt is a receive below the limit of a message for that event. */
  ghost predicate Spent(s: Sys, e: int, r: Receipt) {
    Known(s, r) && s.queue[r.msg].event == e && r.count < s.maxReceives
  }

  ghost predicate AllSpent(s: Sys) {
    forall e: int, i: nat :: i < |BurnedOn(s, e)| ==> Spent(s, e, BurnedOn(s, e)[i])
  }

  ghost predicate SpentOnce(s: Sys) {
    forall e: int :: Distinct(BurnedOn(s, e))
  }

  /** What is spent is not live. */
  ghost predicate SpentIsGone(s: Sys) {
    forall e: int, i: nat, w: int, j: nat :: i < |BurnedOn(s, e)| && j < |LiveOf(s, w)| ==>
      BurnedOn(s, e)[i] != LiveOf(s, w)[j]
  }

  /** A queue worker works on the event its message names. */
  ghost predicate OnMessage(s: Sys) {
    forall w: int :: WorkerOf(s, w).job.Queued? ==>
      var job := WorkerOf(s, w).job;
      job.receipt.msg in s.queue && s.queue[job.receipt.msg].event == job.claim.event
  }

  /** The retryable failures among the attempts of an event. */
  function Retries(x: Entry): nat {
    if x.attempts == [] then 0
    else if RetryableFailure(Last(x)) then |x.attempts|
    else |x.attempts| - 1
  }

  ghost predicate CountsMatch(s: Sys) {
    forall e: int :: |BurnedOn(s, e)| == if e in s.db.events then Retries(s.db.events[e]) else 0
  }

  ghost predicate BudgetInv(s: Sys) {
    && OwnInv(s)
    && AllKnown(s) && AllDistinct(s)
    && AllSpent(s) && SpentOnce(s) && SpentIsGone(s)
    && OnMessage(s)
    && CountsMatch(s)
  }

  // ----- what a step does to messages and receipts

  /** Messages keep their event, and their receive count never falls. */
  lemma QueueGrows(s: Sys, l: Label)
    requires Enabled(s, l)
    ensures Next(s, l).maxReceives == s.maxReceives
    ensures forall m :: m in s.queue ==>
              m in Next(s, l).queue && Next(s, l).queue[m].event == s.queue[m].event
              && s.queue[m].received <= Next(s, l).queue[m].received
  {
  }

  lemma KnownStays(s: Sys, l: Label, e: int, r: Receipt)
    requires Enabled(s, l)
    ensures Known(s, r) ==> Known(Next(s, l), r)
    ensures Spent(s, e, r) ==> Spent(Next(s, l), e, r)
  {
    QueueGrows(s, l);
  }

  function LiveAfter(s: Sys, l: Label, w: int): seq<Receipt>
    requires Enabled(s, l)
  {
    if !HasWorker(l) || l.w != w then LiveOf(s, w)
    else if l.Receive? then LiveOf(s, w) + [Receipt(l.msg, s.queue[l.msg].received + 1)]
    else if l.StartQueued? && GrantedBy(s, l) == [] then LiveOf(s, w)[1..]
    else if Finishes(l) && WorkerOf(s, w).job.Queued? then (if RecordOf(s, l).Ok? then LiveOf(s, w)[1..] else [])
    else if l.Crash? then []
    else LiveOf(s, w)
  }

  lemma QueuedStartedLive(s: Sys, l: Label, v: int)
    requires l.StartQueued? && Enabled(s, l)
    ensures LiveOf(DoStartQueued(s, l.w, l.now, l.grace, l.allowReal), v) == LiveAfter(s, l, v)
  {
    var inbox := WorkerOf(s, l.w).inbox;
    assert inbox == [inbox[0]] + inbox[1..];
  }

  lemma StartedLive(s: Sys, l: Label, v: int)
    requires Starts(l) && Enabled(s, l)
    ensures LiveOf(Next(s, l), v) == LiveAfter(s, l, v)
  {
    if l.StartQueued? {
      QueuedStartedLive(s, l, v);
    }
  }

  lemma FinishedLive(s: Sys, w: int, r: Outcome<Store>, action: Action, v: int)
    requires Delivering(WorkerOf(s, w).job)
    ensures LiveOf(Finished(s, w, r, action), v)
            == if v != w || !WorkerOf(s, w).job.Queued? then LiveOf(s, v)
               else if r.Ok? then LiveOf(s, v)[1..] else []
  {
  }

  lemma OtherLive(s: Sys, l: Label, v: int)
    requires Enabled(s, l) && !Starts(l) && !Finishes(l)
    ensures LiveOf(Next(s, l), v) == LiveAfter(s, l, v)
  {
  }

  lemma NextLive(s: Sys, l: Label, v: int)
    requires Enabled(s, l)
    ensures LiveOf(Next(s, l), v) == LiveAfter(s, l, v)
  {
    if Starts(l) {
      StartedLive(s, l, v);
    } else if Finishes(l) {
      var again := l.WeatherFails? && l.retryable && WorkerOf(s, l.w).job.Queued?;
      FinishedLive(s, l.w, RecordOf(s, l), if again then Retry else Acknowledge, v);
    } else {
      OtherLive(s, l, v);
    }
  }

  /** How far a worker's receipts move up when it gives up the first one. */
  function Shift(s: Sys, l: Label, w: int): nat
    requires Enabled(s, l)
  {
    if HasWorker(l) && l.w == w
       && ((l.StartQueued? && GrantedBy(s, l) == []) || (Finishes(l) && WorkerOf(s, w).job.Queued?)) then 1 else 0
  }

  /** A live receipt was live before, or was just received. */
  lemma LiveSource(s: Sys, l: Label, w: int, i: nat)
    requires Enabled(s, l) && i < |LiveAfter(s, l, w)|
    ensures if l.Receive? && l.w == w && i == |LiveOf(s, w)| then
              LiveAfter(s, l, w)[i] == Receipt(l.msg, s.queue[l.msg].received + 1)
            else i + Shift(s, l, w) < |LiveOf(s, w)| && LiveAfter(s, l, w)[i] == LiveOf(s, w)[i + Shift(s, l, w)]
  {
  }

  /** The step that spends a receipt, and on which event. */
  predicate Spends(s: Sys, l: Label, e: int)
    requires Enabled(s, l)
  {
    && l.WeatherFails? && l.retryable && RecordOf(s, l).Ok?
    && var job := WorkerOf(s, l.w).job;
       job.Queued? && job.receipt.count < s.maxReceives && job.claim.event == e
  }

  function BurnedAfter(s: Sys, l: Label, e: int): seq<Receipt>
    requires Enabled(s, l)
  {
    if Spends(s, l, e) then BurnedOn(s, e) + [WorkerOf(s, l.w).job.receipt] else BurnedOn(s, e)
  }

  lemma NextBurned(s: Sys, l: Label, e: int)
    requires Enabled(s, l)
    ensures BurnedOn(Next(s, l), e) == BurnedAfter(s, l, e)
  {
  }

  // ----- the steps

  lemma KnownStep(s: Sys, l: Label)
    requires BudgetInv(s) && Enabled(s, l)
    ensures AllKnown(Next(s, l))
  {
    forall w: int, i: nat | i < |LiveOf(Next(s, l), w)| ensures Known(Next(s, l), LiveOf(Next(s, l), w)[i]) {
      NextLive(s, l, w);
      LiveSource(s, l, w, i);
      KnownStays(s, l, 0, LiveAfter(s, l, w)[i]);
    }
  }

  lemma DistinctStep(s: Sys, l: Label)
    requires BudgetInv(s) && Enabled(s, l)
    ensures AllDistinct(Next(s, l))
  {
    forall v: int, w: int, i: nat, j: nat | i < |LiveOf(Next(s, l), v)| && j < |LiveOf(Next(s, l), w)|
        && (v != w || i != j)
      ensures LiveOf(Next(s, l), v)[i] != LiveOf(Next(s, l), w)[j]
    {
      NextLive(s, l, v);
      NextLive(s, l, w);
      LiveSource(s, l, v, i);
      LiveSource(s, l, w, j);
    }
  }

  lemma SpendingReceipt(s: Sys, l: Label, e: int)
    requires BudgetInv(s) && Enabled(s, l) && Spends(s, l, e)
    ensures var r := WorkerOf(s, l.w).job.receipt;
            && LiveOf(s, l.w) != [] && LiveOf(s, l.w)[0] == r
            && Spent(s, e, r)
            && r !in BurnedOn(s, e)
            && LiveAfter(s, l, l.w) == LiveOf(s, l.w)[1..]
  {
    var r := WorkerOf(s, l.w).job.receipt;
    assert LiveOf(s, l.w)[0] == r;
    assert Known(s, r);
  }

  lemma SpentStep(s: Sys, l: Label)
    requires BudgetInv(s) && Enabled(s, l)
    ensures AllSpent(Next(s, l)) && SpentOnce(Next(s, l))
  {
    forall e: int ensures Distinct(BurnedOn(Next(s, l), e)) {
      NextBurned(s, l, e);
      assert Distinct(BurnedOn(s, e));
      if Spends(s, l, e) {
        SpendingReceipt(s, l, e);
      }
    }
    forall e: int, i: nat | i < |BurnedOn(Next(s, l), e)| ensures Spent(Next(s, l), e, BurnedOn(Next(s, l), e)[i]) {
      NextBurned(s, l, e);
      if Spends(s, l, e) {
        SpendingReceipt(s, l, e);
      }
      KnownStays(s, l, e, BurnedAfter(s, l, e)[i]);
    }
  }

  lemma GoneStep(s: Sys, l: Label, e: int, i: nat, w: int, j: nat)
    requires BudgetInv(s) && Enabled(s, l)
    requires i < |BurnedAfter(s, l, e)| && j < |LiveAfter(s, l, w)|
    ensures BurnedAfter(s, l, e)[i] != LiveAfter(s, l, w)[j]
  {
    LiveSource(s, l, w, j);
    if i < |BurnedOn(s, e)| {
      assert Spent(s, e, BurnedOn(s, e)[i]);
    } else {
      SpendingReceipt(s, l, e);
      assert LiveOf(s, l.w)[0] == BurnedAfter(s, l, e)[i];
    }
  }

  lemma SpentIsGoneStep(s: Sys, l: Label)
    requires BudgetInv(s) && Enabled(s, l)
    ensures SpentIsGone(Next(s, l))
  {
    forall e: int, i: nat, w: int, j: nat | i < |BurnedOn(Next(s, l), e)| && j < |LiveOf(Next(s, l), w)|
      ensures BurnedOn(Next(s, l), e)[i] != LiveOf(Next(s, l), w)[j]
    {
      NextLive(s, l, w);
      NextBurned(s, l, e);
      GoneStep(s, l, e, i, w, j);
    }
  }

  lemma StartedOnMessage(s: Sys, w: int, now: int, grace: nat, allowReal: bool)
    requires OwnInv(s) && WorkerOf(s, w).inbox != [] && WorkerOf(s, w).inbox[0].msg in s.queue
    ensures var job := WorkerOf(DoStartQueued(s, w, now, grace, allowReal), w).job;
            job.Queued? ==> job.receipt.msg in s.queue && s.queue[job.receipt.msg].event == job.claim.event
  {
    ClaimQueuedStep(s.db, s.queue[WorkerOf(s, w).inbox[0].msg].event, now, grace, allowReal);
  }

  /** The worker has the queued job it had. */
  ghost predicate SameQueuedJob(x: Worker, y: Worker) {
    x.job.Queued? && y.job.Queued? && x.job.receipt == y.job.receipt && x.job.claim == y.job.claim
  }

  lemma FinishedJob(s: Sys, w: int, r: Outcome<Store>, action: Action, v: int)
    requires Delivering(WorkerOf(s, w).job)
    ensures WorkerOf(Finished(s, w, r, action), v).job.Queued? ==>
              SameQueuedJob(WorkerOf(s, v), WorkerOf(Finished(s, w, r, action), v))
  {
  }

  lemma StartedJob(s: Sys, l: Label, v: int)
    requires Starts(l) && Enabled(s, l) && WorkerOf(Next(s, l), v).job.Queued?
    ensures (l.StartQueued? && l.w == v) || SameQueuedJob(WorkerOf(s, v), WorkerOf(Next(s, l), v))
  {
  }

  lemma OtherJob(s: Sys, l: Label, v: int)
    requires Enabled(s, l) && !Starts(l) && !Finishes(l) && WorkerOf(Next(s, l), v).job.Queued?
    ensures SameQueuedJob(WorkerOf(s, v), WorkerOf(Next(s, l), v))
  {
  }

  /** A worker with a queued job after the step had it before, unless the step started it. */
  lemma JobSource(s: Sys, l: Label, w: int)
    requires Enabled(s, l) && WorkerOf(Next(s, l), w).job.Queued?
    ensures (l.StartQueued? && l.w == w) || SameQueuedJob(WorkerOf(s, w), WorkerOf(Next(s, l), w))
  {
    if Starts(l) {
      StartedJob(s, l, w);
    } else if Finishes(l) {
      var again := l.WeatherFails? && l.retryable && WorkerOf(s, l.w).job.Queued?;
      FinishedJob(s, l.w, RecordOf(s, l), if again then Retry else Acknowledge, w);
    } else {
      OtherJob(s, l, w);
    }
  }

  lemma OnMessageStep(s: Sys, l: Label)
    requires BudgetInv(s) && Enabled(s, l)
    ensures OnMessage(Next(s, l))
  {
    QueueGrows(s, l);
    forall w: int | WorkerOf(Next(s, l), w).job.Queued?
      ensures var job := WorkerOf(Next(s, l), w).job;
              job.receipt.msg in Next(s, l).queue && Next(s, l).queue[job.receipt.msg].event == job.claim.event
    {
      JobSource(s, l, w);
      if l.StartQueued? && l.w == w {
        StartedOnMessage(s, w, l.now, l.grace, l.allowReal);
      }
    }
  }

  /** A delivery ends in a retry exactly when a receipt is spent on it. */
  lemma RetryIsSpending(s: Sys, l: Label)
    requires OwnInv(s) && Enabled(s, l) && Finishes(l) && RecordOf(s, l).Ok?
    ensures var e := Head(WorkerOf(s, l.w).job).event;
            && e in s.db.events && e in RecordOf(s, l).value.events
            && EndStep(s.db.events[e], RecordOf(s, l).value.events[e])
            && (Resumable(RecordOf(s, l).value.events[e]) <==> Spends(s, l, e))
  {
    HeadIsHeld(s, l.w);
    FinishIsRecording(s, l);
    var job := WorkerOf(s, l.w).job;
    var c := Head(job);
    if l.WeatherFails? {
      if job.Queued? && l.retryable && job.receipt.count < s.maxReceives {
        RecordRetryableStep(s.db, c.event, c.index, l.exc, l.at);
      } else {
        var code := if job.Queued? && l.retryable then RetryExhausted(l.exc) else Plain(l.exc);
        RecordFailureStep(s.db, c.event, c.index, code, l.at);
      }
    } else if l.SenderMissing? {
      RecordFailureStep(s.db, c.event, c.index, Plain(NOT_CONFIGURED), l.at);
    } else if l.SenderFails? {
      RecordFailureStep(s.db, c.event, c.index, Plain(l.exc), l.at);
    } else {
      RecordSuccessStep(s.db, c.event, c.index, TerminalStatus(c.row), job.phase.message, l.sid, l.at);
    }
  }

  lemma RetriesByEffect(x: Entry, y: Entry, ended: bool)
    requires Coupled(x) && Coupled(y) && Effect(x, y, ended)
    ensures EndStep(x, y) || Retries(y) == Retries(x)
    ensures EndStep(x, y) ==> Retries(y) == Retries(x) + (if Resumable(y) then 1 else 0)
  {
    if SameDelivery(x, y) && x.attempts != [] {
      assert Core(Last(x)) == Core(Last(y));
    }
  }

  /** A delivery that ends counts as a retry exactly when it spends a receipt. */
  lemma EndedCount(s: Sys, l: Label)
    requires OwnInv(s) && Enabled(s, l) && Finishes(l) && RecordOf(s, l).Ok?
    ensures var e := Head(WorkerOf(s, l.w).job).event;
            && e in s.db.events && e in DbAfter(s, l).events
            && Retries(DbAfter(s, l).events[e]) == Retries(s.db.events[e]) + (if Spends(s, l, e) then 1 else 0)
  {
    RetryIsSpending(s, l);
    var e := Head(WorkerOf(s, l.w).job).event;
    DbEffect(s, l);
    RetriesByEffect(s.db.events[e], DbAfter(s, l).events[e], true);
  }

  lemma UnendedCountIn(s: Store, t: Store, ended: Option<int>, e: int)
    requires StoreOk(s) && StoreEffect(s, t, ended) && e in s.events && ended != Some(e)
    ensures e in t.events && Retries(t.events[e]) == Retries(s.events[e])
  {
    RetriesByEffect(s.events[e], t.events[e], false);
  }

  lemma UnendedCount(s: Sys, l: Label, e: int)
    requires OwnInv(s) && Enabled(s, l) && e in s.db.events && EndedBy(s, l) != Some(e)
    ensures e in DbAfter(s, l).events && Retries(DbAfter(s, l).events[e]) == Retries(s.db.events[e])
  {
    DbEffect(s, l);
    UnendedCountIn(s.db, DbAfter(s, l), EndedBy(s, l), e);
  }

  lemma CountStep(s: Sys, l: Label, e: int)
    requires BudgetInv(s) && Enabled(s, l)
    ensures |BurnedAfter(s, l, e)| == if e in DbAfter(s, l).events then Retries(DbAfter(s, l).events[e]) else 0
  {
    assert |BurnedOn(s, e)| == if e in s.db.events then Retries(s.db.events[e]) else 0;
    if e in s.db.events {
      if EndedBy(s, l) == Some(e) && RecordOf(s, l).Ok? {
        EndedCount(s, l);
      } else if EndedBy(s, l) != Some(e) {
        UnendedCount(s, l, e);
      }
    } else {
      DbEffect(s, l);
      if Finishes(l) {
        HeadIsHeld(s, l.w);
      }
    }
  }

  lemma CountsStep(s: Sys, l: Label)
    requires BudgetInv(s) && Enabled(s, l)
    ensures CountsMatch(Next(s, l))
  {
    NextDb(s, l);
    forall e: int
      ensures |BurnedOn(Next(s, l), e)| == if e in Next(s, l).db.events then Retries(Next(s, l).db.events[e]) else 0
    {
      NextBurned(s, l, e);
      CountStep(s, l, e);
    }
  }

  lemma BudgetStep(s: Sys, l: Label)
    requires BudgetInv(s) && Enabled(s, l)
    ensures BudgetInv(Next(s, l))
  {
    OwnStep(s, l);
    KnownStep(s, l);
    DistinctStep(s, l);
    SpentStep(s, l);
    SpentIsGoneStep(s, l);
    OnMessageStep(s, l);
    CountsStep(s, l);
  }

  lemma BudgetInit(s: Sys)
    requires Init(s)
    ensures BudgetInv(s)
  {
    OwnInit(s);
    assert forall w :: LiveOf(s, w) == [];
    assert forall e :: BurnedOn(s, e) == [];
  }

  lemma {:induction false} BudgetRun(states: seq<Sys>, labels: seq<Label>, i: nat)
    requires IsRun(states, labels) && i <= |labels|
    ensures BudgetInv(states[i])
  {
    if i == 0 {
      BudgetInit(states[0]);
    } else {
      BudgetRun(states, labels, i - 1);
      assert StepAt(states, labels, i - 1);
      BudgetStep(states[i - 1], labels[i - 1]);
    }
  }

  // ----- the bound

  /** Every message ever published for an event, deleted ones included. */
  function MessagesFor(s: Sys, e: int): set<int> {
    set m | m in s.queue && s.queue[m].event == e
  }

  /** The receives of some messages below a limit. */
  function Receives(msgs: set<int>, limit: nat): set<Receipt> {
    set m, c | m in msgs && 1 <= c < limit :: Receipt(m, c)
  }

  lemma {:induction false} ReceivesOfOne(m: int, limit: nat)
    ensures |Receives({m}, limit)| == if limit <= 1 then 0 else limit - 1
    decreases limit
  {
    if limit <= 1 {
      assert Receives({m}, limit) == {};
    } else {
      ReceivesOfOne(m, limit - 1);
      assert Receives({m}, limit) == Receives({m}, limit - 1) + {Receipt(m, limit - 1)};
    }
  }

  lemma ReceivesSplit(msgs: set<int>, m: int, limit: nat)
    requires m in msgs
    ensures |Receives(msgs, limit)| == |Receives(msgs - {m}, limit)| + |Receives({m}, limit)|
  {
    var rest := msgs - {m};
    assert Receives(msgs, limit) == Receives(rest, limit) + Receives({m}, limit);
    assert Receives(rest, limit) !! Receives({m}, limit);
  }

  lemma OneRowMore(n: nat, k: nat)
    ensures (n + 1) * k == n * k + k
  {
  }

  lemma {:induction false} ReceivesSize(msgs: set<int>, limit: nat)
    requires limit >= 1
    ensures |Receives(msgs, limit)| == |msgs| * (limit - 1)
    decreases |msgs|
  {
    if msgs == {} {
      assert Receives(msgs, limit) == {};
    } else {
      var m := AnElement(msgs);
      ReceivesSize(msgs - {m}, limit);
      ReceivesOfOne(m, limit);
      ReceivesSplit(msgs, m, limit);
      OneRowMore(|msgs - {m}|, limit - 1);
    }
  }

  lemma {:induction false} DistinctFits(rs: seq<Receipt>, all: set<Receipt>)
    requires Distinct(rs) && forall i :: 0 <= i < |rs| ==> rs[i] in all
    ensures |rs| <= |all|
    decreases |rs|
  {
    if rs == [] {
    } else {
      var last := rs[|rs| - 1];
      DistinctFits(rs[..|rs| - 1], all - {last});
    }
  }

  /** No more receipts are spent on an event than its messages allow. */
  lemma SpentFits(s: Sys, e: int)
    requires BudgetInv(s) && s.maxReceives >= 1
    ensures |BurnedOn(s, e)| <= |MessagesFor(s, e)| * (s.maxReceives - 1)
  {
    var all := Receives(MessagesFor(s, e), s.maxReceives);
    forall i | 0 <= i < |BurnedOn(s, e)| ensures BurnedOn(s, e)[i] in all {
      var r := BurnedOn(s, e)[i];
      assert Spent(s, e, r);
      assert r == Receipt(r.msg, r.count);
    }
    assert Distinct(BurnedOn(s, e));
    DistinctFits(BurnedOn(s, e), all);
    ReceivesSize(MessagesFor(s, e), s.maxReceives);
  }

  /** With k messages ever published for an event, it is attempted at most
      k * (maxReceives - 1) + 1 times. */
  lemma AttemptsAreBounded(states: seq<Sys>, labels: seq<Label>, n: nat, e: int)
    requires IsRun(states, labels) && n <= |labels| && e in states[n].db.events
    ensures states[n].maxReceives >= 1
    ensures |states[n].db.events[e].attempts| <= |MessagesFor(states[n], e)| * (states[n].maxReceives - 1) + 1
  {
    BudgetRun(states, labels, n);
    MaxIsFixed(states, labels, n);
    SpentFits(states[n], e);
  }

  lemma {:induction false} MaxIsFixed(states: seq<Sys>, labels: seq<Label>, n: nat)
    requires IsRun(states, labels) && n <= |labels|
    ensures states[n].maxReceives == states[0].maxReceives >= 1
  {
    if n == 0 {
    } else {
      MaxIsFixed(states, labels, n - 1);
      assert StepAt(states, labels, n - 1);
      QueueGrows(states[n - 1], labels[n - 1]);
    }
  }

  /** The receives that are left to spend on an event. */
  function Remaining(s: Sys, e: int): int {
    |MessagesFor(s, e)| * (s.maxReceives - 1) - |BurnedOn(s, e)|
  }

  lemma ReceivesAreLeft(states: seq<Sys>, labels: seq<Label>, n: nat, e: int)
    requires IsRun(states, labels) && n <= |labels|
    ensures Remaining(states[n], e) >= 0
  {
    BudgetRun(states, labels, n);
    MaxIsFixed(states, labels, n);
    SpentFits(states[n], e);
  }

  /** The receives left are a measure: they never go below zero, a retryable failure takes one,
      and only a publication adds any. */
  lemma RetriesSpendReceives(states: seq<Sys>, labels: seq<Label>, n: nat, e: int)
    requires IsRun(states, labels) && n < |labels| && !labels[n].Publish?
    ensures Enabled(states[n], labels[n])
    ensures 0 <= Remaining(states[n + 1], e)
            == Remaining(states[n], e) - (if Spends(states[n], labels[n], e) then 1 else 0)
  {
    assert StepAt(states, labels, n);
    ReceivesAreLeft(states, labels, n + 1, e);
    NextBurned(states[n], labels[n], e);
    QueueGrows(states[n], labels[n]);
    SameMessages(states[n], labels[n], e);
  }

  lemma SameMessages(s: Sys, l: Label, e: int)
    requires Enabled(s, l) && !l.Publish?
    ensures MessagesFor(Next(s, l), e) == MessagesFor(s, e)
  {
    QueueGrows(s, l);
    assert Next(s, l).queue.Keys == s.queue.Keys;
  }
}
