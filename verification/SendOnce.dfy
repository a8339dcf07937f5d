/** At most one send per event, in every interleaving. */
module SendOnce {
  import opened Records
  import opened Tables
  import opened Claims
  import opened Delivery
  import opened Coupling
  import opened Services
  import opened Protocol
  import opened Effects
  import opened Ownership

  // ----- the invariant

  /** The announcement of a worker that is inside the sender. */
  function EnteredMessage(s: Sys, w: int): Option<string> {
    var job := WorkerOf(s, w).job;
    if Delivering(job) && job.phase.Entered? then Some(job.phase.message) else None
  }

  ghost predicate WasSent(s: Sys, e: int) {
    exists k :: 0 <= k < |s.sent| && s.sent[k].send.event == e
  }

  /** No event was handed to a sender twice. */
  ghost predicate SentOnce(s: Sys) {
    forall i, j :: 0 <= i < j < |s.sent| ==> s.sent[i].send.event != s.sent[j].send.event
  }

  /** What was sent is the event as its row has it, through the sender its demo flag selects,
      for its last attempt; and the event is in flight or done. */
  ghost predicate SentOk(r: Sent, db: Store) {
    var e := r.send.event;
    && e in db.events
    && var x := db.events[e];
       && (InFlight(x) || Delivered(x)) && x.attempts != []
       && r.send.channel == x.row.channel && r.zip == x.row.zip
       && r.toMessageSender == !x.row.isDemo
       && r.send.number == |x.attempts|
       && (x.row.status == Failed ==> !Last(x).error.RetryExhausted?)
  }

  ghost predicate AllSentOk(s: Sys) {
    forall k :: 0 <= k < |s.sent| ==> SentOk(s.sent[k], s.db)
  }

  /** The claim is before the sender: it waits its turn, or its worker has not entered. */
  ghost predicate BeforeSender(s: Sys, w: int, i: nat) {
    i < |ClaimsOf(s, w)| && (i > 0 || EnteredMessage(s, w).None?)
  }

  ghost predicate UnsentBefore(s: Sys) {
    forall w: int, i: nat :: BeforeSender(s, w, i) ==> !WasSent(s, ClaimsOf(s, w)[i].event)
  }

  /** A worker inside the sender has its call on record. */
  ghost predicate EnteredRecorded(s: Sys) {
    forall w: int :: EnteredMessage(s, w).Some? ==>
      SentMessage(s, Head(WorkerOf(s, w).job).event, EnteredMessage(s, w).value)
  }

  ghost predicate SentMessage(s: Sys, e: int, message: string) {
    exists k :: 0 <= k < |s.sent| && s.sent[k].send.event == e && s.sent[k].send.message == message
  }

  /** A success on record was sent, with the announcement on record. */
  ghost predicate SuccessWasSent(s: Sys) {
    forall e ::
      e in s.db.events && s.db.events[e].row.status in {Submitted, Suppressed} && s.db.events[e].attempts != [] ==>
        SentMessage(s, e, Last(s.db.events[e]).message)
  }

  ghost predicate SendInv(s: Sys) {
    && OwnInv(s)
    && SentOnce(s)
    && AllSentOk(s)
    && UnsentBefore(s)
    && EnteredRecorded(s)
    && SuccessWasSent(s)
  }

  // ----- what a step does to the history

  function SentAfter(s: Sys, l: Label): seq<Sent>
    requires Enabled(s, l)
  {
    if l.SenderEntered? then
      var job := WorkerOf(s, l.w).job;
      s.sent + [Sent(RequestFor(Head(job), job.phase.message), Head(job).row.zip, !Head(job).row.isDemo)]
    else s.sent
  }

  lemma NextSent(s: Sys, l: Label)
    requires Enabled(s, l)
    ensures Next(s, l).sent == SentAfter(s, l)
  {
  }

  lemma FinishedEntered(s: Sys, w: int, r: Outcome<Store>, action: Action, v: int)
    requires Delivering(WorkerOf(s, w).job)
    ensures EnteredMessage(Finished(s, w, r, action), v) == if v == w then None else EnteredMessage(s, v)
  {
  }

  lemma StartedEntered(s: Sys, l: Label, v: int)
    requires Starts(l) && Enabled(s, l)
    ensures EnteredMessage(Next(s, l), v) == if v == l.w then None else EnteredMessage(s, v)
  {
    match l
    case StartQueued(_, _, _, _) =>
    case StartBatch(_, _, _, _, _, _) =>
    case StartDirect(_, _, _) =>
  }

  lemma OtherEntered(s: Sys, l: Label, w: int)
    requires Enabled(s, l) && !Starts(l) && !Finishes(l)
    ensures EnteredMessage(Next(s, l), w)
            == if !HasWorker(l) || l.w != w || l.Receive? then EnteredMessage(s, w)
               else if l.SenderEntered? then Some(WorkerOf(s, w).job.phase.message)
               else None
  {
  }

  /** A worker is inside the sender exactly from its entry to its next own step. */
  lemma NextEntered(s: Sys, l: Label, w: int)
    requires Enabled(s, l)
    ensures EnteredMessage(Next(s, l), w)
            == if !HasWorker(l) || l.w != w || l.Receive? then EnteredMessage(s, w)
               else if l.SenderEntered? then Some(WorkerOf(s, w).job.phase.message)
               else None
  {
    if Starts(l) {
      StartedEntered(s, l, w);
    } else if Finishes(l) {
      var again := l.WeatherFails? && l.retryable && WorkerOf(s, l.w).job.Queued?;
      FinishedEntered(s, l.w, RecordOf(s, l), if again then Retry else Acknowledge, w);
    } else {
      OtherEntered(s, l, w);
    }
  }

  /** A worker that stays inside the sender stays with the same claim. */
  lemma EnteredHeadStays(s: Sys, l: Label, w: int)
    requires Enabled(s, l) && EnteredMessage(Next(s, l), w).Some?
    ensures Delivering(WorkerOf(s, w).job) && Delivering(WorkerOf(Next(s, l), w).job)
    ensures Head(WorkerOf(Next(s, l), w).job) == Head(WorkerOf(s, w).job)
  {
    NextEntered(s, l, w);
    NextClaims(s, l, w);
    assert ClaimsOf(Next(s, l), w)[0] == Head(WorkerOf(Next(s, l), w).job);
  }

  // ----- the steps

  /** Once an event was sent, only the worker that sent it ends it, and never retryably. */
  lemma EndAfterSend(s: Sys, l: Label)
    requires SendInv(s) && Enabled(s, l) && Finishes(l) && RecordOf(s, l).Ok?
    requires WasSent(s, Head(WorkerOf(s, l.w).job).event)
    ensures var e := Head(WorkerOf(s, l.w).job).event;
            && e in RecordOf(s, l).value.events
            && Delivered(RecordOf(s, l).value.events[e])
            && (RecordOf(s, l).value.events[e].row.status == Failed ==>
                  !Last(RecordOf(s, l).value.events[e]).error.RetryExhausted?)
  {
    HeadIsHeld(s, l.w);
    assert !BeforeSender(s, l.w, 0);
    var c := Head(WorkerOf(s, l.w).job);
    if l.SenderFails? {
      RecordFailureStep(s.db, c.event, c.index, Plain(l.exc), l.at);
    } else {
      RecordSuccessStep(s.db, c.event, c.index, TerminalStatus(c.row), WorkerOf(s, l.w).job.phase.message, l.sid, l.at);
    }
  }

  /** A delivery ends as a success only when the sender returned. */
  lemma SuccessIsReturned(s: Sys, l: Label)
    requires OwnInv(s) && Enabled(s, l) && Finishes(l) && RecordOf(s, l).Ok?
    requires var e := Head(WorkerOf(s, l.w).job).event;
             e in RecordOf(s, l).value.events && RecordOf(s, l).value.events[e].row.status in {Submitted, Suppressed}
    ensures l.SenderReturns?
    ensures var e := Head(WorkerOf(s, l.w).job).event;
            var y := RecordOf(s, l).value.events[e];
            y.attempts != [] && Last(y).message == WorkerOf(s, l.w).job.phase.message
  {
    HeadIsHeld(s, l.w);
    var c := Head(WorkerOf(s, l.w).job);
    if l.SenderReturns? {
      RecordSuccessStep(s.db, c.event, c.index, TerminalStatus(c.row), WorkerOf(s, l.w).job.phase.message, l.sid, l.at);
    }
  }

  lemma SentStaysOk(s: Sys, l: Label, k: nat)
    requires SendInv(s) && Enabled(s, l) && k < |s.sent|
    ensures SentOk(s.sent[k], DbAfter(s, l))
  {
    var e := s.sent[k].send.event;
    assert SentOk(s.sent[k], s.db) && WasSent(s, e);
    DbEffect(s, l);
    DoneByEffect(s.db.events[e], DbAfter(s, l).events[e], EndedBy(s, l) == Some(e));
    if EndedBy(s, l) == Some(e) && RecordOf(s, l).Ok? {
      EndAfterSend(s, l);
    }
  }

  lemma AllSentOkStep(s: Sys, l: Label)
    requires SendInv(s) && Enabled(s, l)
    ensures AllSentOk(Next(s, l))
  {
    NextSent(s, l);
    NextDb(s, l);
    forall k | 0 <= k < |SentAfter(s, l)| ensures SentOk(SentAfter(s, l)[k], DbAfter(s, l)) {
      if k < |s.sent| {
        SentStaysOk(s, l, k);
      } else {
        HeadIsHeld(s, l.w);
      }
    }
  }

  /** Before the sender means unsent: so entering the sender is the first send. */
  lemma SentOnceStep(s: Sys, l: Label)
    requires SendInv(s) && Enabled(s, l)
    ensures SentOnce(Next(s, l))
  {
    NextSent(s, l);
    if l.SenderEntered? {
      HeadIsHeld(s, l.w);
      assert BeforeSender(s, l.w, 0);
    }
  }

  /** A granted claim is on an event that was never sent. */
  lemma GrantedIsUnsent(s: Sys, l: Label, i: nat)
    requires SendInv(s) && Enabled(s, l) && Starts(l) && i < |GrantedBy(s, l)|
    ensures !WasSent(s, GrantedBy(s, l)[i].event)
  {
    GrantEffect(s, l);
    forall k | 0 <= k < |s.sent| ensures s.sent[k].send.event != GrantedBy(s, l)[i].event {
      assert SentOk(s.sent[k], s.db);
    }
  }

  /** Entering the sender sends no event of another claim. */
  lemma OthersStayUnsent(s: Sys, l: Label, w: int, k: nat)
    requires SendInv(s) && Enabled(s, l) && BeforeSender(s, w, k)
    requires l.SenderEntered? ==> l.w != w || k > 0
    ensures forall j :: 0 <= j < |SentAfter(s, l)| ==> SentAfter(s, l)[j].send.event != ClaimsOf(s, w)[k].event
  {
    if l.SenderEntered? {
      HeadIsHeld(s, l.w);
      assert ClaimsOf(s, l.w)[0].event != ClaimsOf(s, w)[k].event;
    }
  }

  lemma UnsentStays(s: Sys, l: Label, w: int, i: nat)
    requires SendInv(s) && Enabled(s, l) && i < |ClaimsAfter(s, l, w)|
    requires i > 0 || EnteredMessage(Next(s, l), w).None?
    ensures forall k :: 0 <= k < |SentAfter(s, l)| ==> SentAfter(s, l)[k].send.event != ClaimsAfter(s, l, w)[i].event
  {
    if HasWorker(l) && l.w == w && Starts(l) {
      GrantedIsUnsent(s, l, i);
    } else {
      ClaimSource(s, l, w, i);
      NextEntered(s, l, w);
      OthersStayUnsent(s, l, w, if HasWorker(l) && l.w == w && Finishes(l) then i + 1 else i);
    }
  }

  lemma UnsentBeforeStep(s: Sys, l: Label)
    requires SendInv(s) && Enabled(s, l)
    ensures UnsentBefore(Next(s, l))
  {
    NextSent(s, l);
    forall w: int, i: nat | BeforeSender(Next(s, l), w, i)
      ensures !WasSent(Next(s, l), ClaimsOf(Next(s, l), w)[i].event)
    {
      NextClaims(s, l, w);
      UnsentStays(s, l, w, i);
    }
  }

  lemma EnteredRecordedStep(s: Sys, l: Label)
    requires SendInv(s) && Enabled(s, l)
    ensures EnteredRecorded(Next(s, l))
  {
    var t := Next(s, l);
    NextSent(s, l);
    forall w: int | EnteredMessage(t, w).Some?
      ensures SentMessage(t, Head(WorkerOf(t, w).job).event, EnteredMessage(t, w).value)
    {
      NextEntered(s, l, w);
      EnteredHeadStays(s, l, w);
      var e, message := Head(WorkerOf(t, w).job).event, EnteredMessage(t, w).value;
      if l.SenderEntered? && l.w == w {
        var k := |s.sent|;
        assert t.sent[k].send.event == e && t.sent[k].send.message == message;
      } else {
        SentMessageStays(s, l, e, message);
      }
    }
  }

  lemma SentMessageStays(s: Sys, l: Label, e: int, message: string)
    requires Enabled(s, l) && SentMessage(s, e, message)
    ensures SentMessage(Next(s, l), e, message)
  {
    NextSent(s, l);
    var k :| 0 <= k < |s.sent| && s.sent[k].send.event == e && s.sent[k].send.message == message;
    assert Next(s, l).sent[k] == s.sent[k];
  }

  /** How an entry can come to hold a success, or to keep what was sent. */
  lemma DoneByEffect(x: Entry, y: Entry, ended: bool)
    requires Effect(x, y, ended) && Coupled(x) && Coupled(y)
    requires y.row.status in {Submitted, Suppressed} || InFlight(x) || Delivered(x)
    ensures y.attempts != []
    ensures (x.attempts != [] && SameDelivery(x, y) && Last(x).message == Last(y).message
             && Last(x).error == Last(y).error)
            || (ended && EndStep(x, y))
  {
    if SameDelivery(x, y) && x.attempts != [] {
      assert Core(Last(x)) == Core(Last(y));
    }
  }

  lemma SuccessStep(s: Sys, l: Label, e: int)
    requires SendInv(s) && Enabled(s, l)
    requires e in DbAfter(s, l).events && DbAfter(s, l).events[e].row.status in {Submitted, Suppressed}
             && DbAfter(s, l).events[e].attempts != []
    ensures SentMessage(s, e, Last(DbAfter(s, l).events[e]).message)
  {
    DbEffect(s, l);
    assert e in s.db.events;
    DoneByEffect(s.db.events[e], DbAfter(s, l).events[e], EndedBy(s, l) == Some(e));
    if EndedBy(s, l) == Some(e) && RecordOf(s, l).Ok? {
      SuccessIsReturned(s, l);
      assert EnteredMessage(s, l.w).Some?;
    }
  }

  lemma SuccessWasSentStep(s: Sys, l: Label)
    requires SendInv(s) && Enabled(s, l)
    ensures SuccessWasSent(Next(s, l))
  {
    var t := Next(s, l);
    NextDb(s, l);
    forall e | e in t.db.events && t.db.events[e].row.status in {Submitted, Suppressed} && t.db.events[e].attempts != []
      ensures SentMessage(t, e, Last(t.db.events[e]).message)
    {
      SuccessStep(s, l, e);
      SentMessageStays(s, l, e, Last(t.db.events[e]).message);
    }
  }

  /** Every step keeps the invariant. */
  lemma SendStep(s: Sys, l: Label)
    requires SendInv(s) && Enabled(s, l)
    ensures SendInv(Next(s, l))
  {
    OwnStep(s, l);
    AllSentOkStep(s, l);
    SentOnceStep(s, l);
    UnsentBeforeStep(s, l);
    EnteredRecordedStep(s, l);
    SuccessWasSentStep(s, l);
  }

  lemma SendInit(s: Sys)
    requires Init(s)
    ensures SendInv(s)
  {
    assert forall w :: ClaimsOf(s, w) == [];
  }

  lemma {:induction false} SendRun(states: seq<Sys>, labels: seq<Label>, i: nat)
    requires IsRun(states, labels) && i <= |labels|
    ensures SendInv(states[i])
  {
    if i == 0 {
      SendInit(states[0]);
    } else {
      SendRun(states, labels, i - 1);
      assert StepAt(states, labels, i - 1);
      SendStep(states[i - 1], labels[i - 1]);
    }
  }

  // ----- the theorems

  /** In every run, whoever works, dies, retries or edits, `send` is entered at most once for
      an event. */
  lemma AtMostOnce(states: seq<Sys>, labels: seq<Label>, n: nat, i: nat, j: nat)
    requires IsRun(states, labels) && n <= |labels|
    requires i < |states[n].sent| && j < |states[n].sent|
    requires states[n].sent[i].send.event == states[n].sent[j].send.event
    ensures i == j
  {
    SendRun(states, labels, n);
  }

  /** What went to a sender is what the authoritative row still says, a demo event never
      reached the message sender, and an event is suppressed only as a demo and submitted
      only as a real event, each after exactly the send on record. */
  lemma SentIsTheRow(states: seq<Sys>, labels: seq<Label>, n: nat, k: nat)
    requires IsRun(states, labels) && n <= |labels| && k < |states[n].sent|
    ensures var r := states[n].sent[k];
            var e := r.send.event;
            && e in states[n].db.events
            && var row := states[n].db.events[e].row;
               && r.send.channel == row.channel && r.zip == row.zip
               && (r.toMessageSender <==> !row.isDemo)
               && (row.status == Submitted ==> r.toMessageSender)
               && (row.status == Suppressed ==> !r.toMessageSender)
  {
    SendRun(states, labels, n);
    var r := states[n].sent[k];
    assert SentOk(r, states[n].db);
    assert Coupled(states[n].db.events[r.send.event]);
  }

  lemma RecordedWasSent(states: seq<Sys>, labels: seq<Label>, n: nat, e: int)
    requires IsRun(states, labels) && n <= |labels|
    requires e in states[n].db.events && states[n].db.events[e].row.status in {Submitted, Suppressed}
    ensures states[n].db.events[e].attempts != []
    ensures SentMessage(states[n], e, Last(states[n].db.events[e]).message)
  {
    SendRun(states, labels, n);
    assert Coupled(states[n].db.events[e]);
  }

  /** An event that is pending, cancelled, waiting for a retry, or out of retries was never
      handed to a sender. */
  lemma NeverSentYet(states: seq<Sys>, labels: seq<Label>, n: nat, e: int)
    requires IsRun(states, labels) && n <= |labels| && e in states[n].db.events
    requires var x := states[n].db.events[e];
             x.row.status in {Scheduled, Cancelled} || Resumable(x)
             || (x.row.status == Failed && x.attempts != [] && Last(x).error.RetryExhausted?)
    ensures !WasSent(states[n], e)
  {
    SendRun(states, labels, n);
    forall k | 0 <= k < |states[n].sent| ensures states[n].sent[k].send.event != e {
      assert SentOk(states[n].sent[k], states[n].db);
    }
  }

  // ----- where it was sent

  /** Step `i` of the run granted the claim. */
  ghost predicate GrantedAt(states: seq<Sys>, labels: seq<Label>, i: nat, c: Claim) {
    && i < |labels| && i < |states| && Starts(labels[i]) && Enabled(states[i], labels[i])
    && c in GrantedBy(states[i], labels[i])
  }

  /** Every claim a worker holds was granted by a step of the run. */
  lemma {:induction false} ClaimWasGranted(states: seq<Sys>, labels: seq<Label>, n: nat, w: int, k: nat)
    requires IsRun(states, labels) && n <= |labels| && k < |ClaimsOf(states[n], w)|
    ensures exists i: nat :: i < n && GrantedAt(states, labels, i, ClaimsOf(states[n], w)[k])
    decreases n
  {
    if n == 0 {
    } else {
      var s, l := states[n - 1], labels[n - 1];
      assert StepAt(states, labels, n - 1);
      OwnRun(states, labels, n - 1);
      NextClaims(s, l, w);
      ClaimSource(s, l, w, k);
      if HasWorker(l) && l.w == w && Starts(l) {
        assert GrantedAt(states, labels, n - 1, ClaimsOf(states[n], w)[k]);
      } else {
        var m := if HasWorker(l) && l.w == w && Finishes(l) then k + 1 else k;
        ClaimWasGranted(states, labels, n - 1, w, m);
      }
    }
  }

  /** The request is the one of the claim. */
  ghost predicate SentFor(r: Sent, c: Claim) {
    r == Sent(RequestFor(c, r.send.message), c.row.zip, !c.row.isDemo)
  }

  lemma {:induction false} SentWasClaimed(states: seq<Sys>, labels: seq<Label>, n: nat, k: nat)
    requires IsRun(states, labels) && n <= |labels| && k < |states[n].sent|
    ensures exists i: nat, c: Claim :: i < n && GrantedAt(states, labels, i, c) && SentFor(states[n].sent[k], c)
    decreases n
  {
    if n == 0 {
    } else {
      var s, l := states[n - 1], labels[n - 1];
      assert StepAt(states, labels, n - 1);
      NextSent(s, l);
      if k < |s.sent| {
        SentWasClaimed(states, labels, n - 1, k);
      } else {
        ClaimWasGranted(states, labels, n - 1, l.w, 0);
        assert SentFor(states[n].sent[k], ClaimsOf(s, l.w)[0]);
      }
    }
  }

  /** What was sent went to the number, and by the channel, the authoritative rows held when the
      event was claimed. */
  ghost predicate SentAsOf(db: Store, r: Sent) {
    && r.send.event in db.events
    && var row := db.events[r.send.event].row;
       && (row.phone in db.phones ==> r.send.to == db.phones[row.phone].number)
       && r.send.channel == row.channel && r.zip == row.zip
  }

  lemma SentWhereClaimed(states: seq<Sys>, labels: seq<Label>, n: nat, k: nat)
    requires IsRun(states, labels) && n <= |labels| && k < |states[n].sent|
    ensures exists i: nat, c: Claim ::
              i < n && GrantedAt(states, labels, i, c) && c.event == states[n].sent[k].send.event
              && SentAsOf(states[i].db, states[n].sent[k])
  {
    SentWasClaimed(states, labels, n, k);
    var i: nat, c: Claim :| i < n && GrantedAt(states, labels, i, c) && SentFor(states[n].sent[k], c);
    var s, l := states[i], labels[i];
    OwnRun(states, labels, i);
    GrantEffect(s, l);
    DbEffect(s, l);
    var x, y := s.db.events[c.event], DbAfter(s, l).events[c.event];
    GrantKeepsRow(x, y, c, EndedBy(s, l) == Some(c.event));
    assert SentAsOf(s.db, states[n].sent[k]);
  }

  lemma GrantKeepsRow(x: Entry, y: Entry, c: Claim, ended: bool)
    requires Effect(x, y, ended) && !ended && Holds(y, c) && !InFlight(x)
    ensures x.row.channel == c.row.channel && x.row.zip == c.row.zip
  {
  }
}
