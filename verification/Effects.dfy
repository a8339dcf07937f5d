/** What a step of the protocol does, seen from the database and from one worker's claims. */
module Effects {
  import opened Records
  import opened Tables
  import opened Claims
  import opened Delivery
  import opened Coupling
  import opened BatchClaims
  import opened Services
  import opened Protocol

  // ----- ownership of claims

  /** Every claim a worker holds matches an event that is in flight. */
  ghost predicate AllHeld(s: Sys) {
    forall w: int, i: nat :: i < |ClaimsOf(s, w)| ==>
      var c := ClaimsOf(s, w)[i];
      c.event in s.db.events && Holds(s.db.events[c.event], c)
  }

  /** No two claims are on the same event. */
  ghost predicate AllDisjoint(s: Sys) {
    forall v: int, w: int, i: nat, j: nat ::
      i < |ClaimsOf(s, v)| && j < |ClaimsOf(s, w)| && (v != w || i != j)
      ==> ClaimsOf(s, v)[i].event != ClaimsOf(s, w)[j].event
  }

  ghost predicate OwnInv(s: Sys) {
    && StoreOk(s.db)
    && AllHeld(s)
    && AllDisjoint(s)
  }

  /** The claim a worker works on is held. */
  lemma HeadIsHeld(s: Sys, w: int)
    requires AllHeld(s) && Delivering(WorkerOf(s, w).job)
    ensures var c := Head(WorkerOf(s, w).job);
            ClaimsOf(s, w) != [] && ClaimsOf(s, w)[0] == c
            && c.event in s.db.events && Holds(s.db.events[c.event], c)
  {
    assert ClaimsOf(s, w)[0] == Head(WorkerOf(s, w).job);
  }

  // ----- the database after a step

  predicate Starts(l: Label) {
    l.StartQueued? || l.StartBatch? || l.StartDirect?
  }

  predicate HasWorker(l: Label) {
    !l.Service? && !l.Publish? && !l.ToDlq?
  }

  function DbAfter(s: Sys, l: Label): Store
    requires Enabled(s, l)
  {
    match l
    case Service(op) => Apply(s.db, op)
    case StartQueued(w, now, grace, allowReal) =>
      ClaimQueued(s.db, s.queue[WorkerOf(s, w).inbox[0].msg].event, now, grace, allowReal).value.store
    case StartBatch(_, locked, now, size, grace, includeReal) =>
      var b := ClaimBatch(s.db, locked, now, size, grace, includeReal);
      if b.Raised? then s.db else b.value.store
    case StartDirect(_, event, now) =>
      var d := ClaimDirect(s.db, event, now);
      if d.Raised? || d.value.claim.None? then s.db else d.value.store
    case _ => if Finishes(l) && RecordOf(s, l).Ok? then RecordOf(s, l).value else s.db
  }

  /** The claims a starting label grants. */
  function GrantedBy(s: Sys, l: Label): seq<Claim>
    requires Starts(l) && Enabled(s, l)
  {
    match l
    case StartQueued(w, now, grace, allowReal) =>
      var q := ClaimQueued(s.db, s.queue[WorkerOf(s, w).inbox[0].msg].event, now, grace, allowReal).value;
      if q.decision.Granted? then [q.decision.claim] else []
    case StartBatch(_, locked, now, size, grace, includeReal) =>
      var b := ClaimBatch(s.db, locked, now, size, grace, includeReal);
      if b.Raised? then [] else b.value.deliveries
    case StartDirect(_, event, now) =>
      var d := ClaimDirect(s.db, event, now);
      if d.Raised? || d.value.claim.None? then [] else [d.value.claim.value]
  }

  function ClaimsAfter(s: Sys, l: Label, w: int): seq<Claim>
    requires Enabled(s, l)
  {
    if !HasWorker(l) || l.w != w then ClaimsOf(s, w)
    else if Starts(l) then GrantedBy(s, l)
    else if Finishes(l) then (assert ClaimsOf(s, w) != []; ClaimsOf(s, w)[1..])
    else if l.Crash? then []
    else ClaimsOf(s, w)
  }

  lemma NextDb(s: Sys, l: Label)
    requires Enabled(s, l)
    ensures Next(s, l).db == DbAfter(s, l)
  {
  }

  lemma FinishedClaims(s: Sys, w: int, r: Outcome<Store>, action: Action, v: int)
    requires Delivering(WorkerOf(s, w).job)
    ensures ClaimsOf(Finished(s, w, r, action), v) == if v == w then ClaimsOf(s, w)[1..] else ClaimsOf(s, v)
  {
  }

  lemma StartedClaims(s: Sys, l: Label, v: int)
    requires Starts(l) && Enabled(s, l)
    ensures ClaimsOf(Next(s, l), v) == if v == l.w then GrantedBy(s, l) else ClaimsOf(s, v)
  {
    match l
    case StartQueued(_, _, _, _) =>
    case StartBatch(_, _, _, _, _, _) =>
    case StartDirect(_, _, _) =>
  }

  lemma NextClaims(s: Sys, l: Label, w: int)
    requires Enabled(s, l)
    ensures ClaimsOf(Next(s, l), w) == ClaimsAfter(s, l, w)
  {
    if Starts(l) {
      StartedClaims(s, l, w);
    } else if Finishes(l) {
      var again := l.WeatherFails? && l.retryable && WorkerOf(s, l.w).job.Queued?;
      FinishedClaims(s, l.w, RecordOf(s, l), if again then Retry else Acknowledge, w);
    } else {
      OtherClaims(s, l, w);
    }
  }

  lemma OtherClaims(s: Sys, l: Label, w: int)
    requires Enabled(s, l) && !Starts(l) && !Finishes(l)
    ensures ClaimsOf(Next(s, l), w) == if l.Crash? && l.w == w then [] else ClaimsOf(s, w)
  {
  }

  // ----- recordings

  /** A recording transaction changes nothing but the event it is about. */
  ghost predicate Recording(s: Store, e: int, r: Outcome<Store>) {
    r.Ok? ==>
      && StoreOk(r.value) && e in s.events && e in r.value.events
      && r.value == WithEntry(s, e, r.value.events[e])
      && EndStep(s.events[e], r.value.events[e])
  }

  /** What a claim holder records is a recording of its own event, and it succeeds: only a
      provider SID that is already in use can make it raise. */
  lemma HolderRecords(s: Store, c: Claim, message: string, sid: Option<string>, exc: ClassName, code: ErrorCode,
                      at: int)
    requires StoreOk(s) && c.event in s.events && Holds(s.events[c.event], c)
    requires code.Plain? || code.RetryExhausted?
    ensures RecordFailure(s, c.event, c.index, code, at).Ok?
    ensures Recording(s, c.event, RecordFailure(s, c.event, c.index, code, at))
    ensures RecordRetryable(s, c.event, c.index, exc, at).Ok?
    ensures Recording(s, c.event, RecordRetryable(s, c.event, c.index, exc, at))
    ensures Recording(s, c.event, RecordSuccess(s, c.event, c.index, TerminalStatus(c.row), message, sid, at))
    ensures RecordSuccess(s, c.event, c.index, TerminalStatus(c.row), message, sid, at).Ok?
            <==> (sid.Some? ==> !SidTaken(s, sid.value, c.event, c.index))
  {
    RecordExactlyWhen(s, c.event, c.index, TerminalStatus(c.row), message, sid, exc, code, at);
    RecordFailureStep(s, c.event, c.index, code, at);
    RecordRetryableStep(s, c.event, c.index, exc, at);
    if RecordSuccess(s, c.event, c.index, TerminalStatus(c.row), message, sid, at).Ok? {
      RecordSuccessStep(s, c.event, c.index, TerminalStatus(c.row), message, sid, at);
    }
  }

  lemma SuccessIsRecording(s: Sys, l: Label)
    requires OwnInv(s) && l.SenderReturns? && Enabled(s, l)
    ensures Recording(s.db, Head(WorkerOf(s, l.w).job).event, RecordOf(s, l))
    ensures RecordOf(s, l).Raised? ==> l.sid.Some? && RecordOf(s, l).error == IntegrityError
  {
    var job := WorkerOf(s, l.w).job;
    HeadIsHeld(s, l.w);
    HolderRecords(s.db, Head(job), job.phase.message, l.sid, "Error", Plain("Error"), l.at);
  }

  /** While a worker holds a claim, recording its end never raises: only the provider SID of
      a success can be refused. */
  lemma FinishIsRecording(s: Sys, l: Label)
    requires OwnInv(s) && Finishes(l) && Enabled(s, l)
    ensures Recording(s.db, Head(WorkerOf(s, l.w).job).event, RecordOf(s, l))
    ensures RecordOf(s, l).Raised? ==>
              l.SenderReturns? && l.sid.Some? && RecordOf(s, l).error == IntegrityError
  {
    var job := WorkerOf(s, l.w).job;
    HeadIsHeld(s, l.w);
    if l.SenderReturns? {
      SuccessIsRecording(s, l);
    } else {
      var exc := if l.SenderMissing? then "Error" else l.exc;
      var code := if l.SenderMissing? then Plain(NOT_CONFIGURED)
                  else if l.WeatherFails? && l.retryable && job.Queued? then RetryExhausted(exc)
                  else Plain(exc);
      HolderRecords(s.db, Head(job), "", None, exc, code, l.at);
    }
  }

  // ----- the effects

  /** The ways a step can change one event. */
  ghost predicate Effect(x: Entry, y: Entry, ended: bool) {
    || EntryStep(x, y)
    || ClaimStep(x, y)
    || MissStep(x, y)
    || (ended && EndStep(x, y))
  }

  /** The event whose delivery a label ends. */
  function EndedBy(s: Sys, l: Label): Option<int>
    requires Enabled(s, l)
  {
    if Finishes(l) then Some(Head(WorkerOf(s, l.w).job).event) else None
  }

  /** Every event changes in one of the five ways, and an added event was never claimed. */
  ghost predicate StoreEffect(s: Store, t: Store, ended: Option<int>) {
    && StoreOk(t)
    && (forall e :: e in s.events ==> e in t.events && Effect(s.events[e], t.events[e], ended == Some(e)))
    && (forall e :: e in t.events && e !in s.events ==> Unclaimed(t.events[e]))
  }

  lemma UnchangedEffect(s: Store, ended: Option<int>)
    requires StoreOk(s)
    ensures StoreEffect(s, s, ended)
  {
  }

  lemma ServiceEffect(s: Store, op: Op)
    requires StoreOk(s) && OpEnabled(s, op)
    ensures StoreEffect(s, Apply(s, op), None)
  {
    OpStep(s, op);
  }

  lemma QueuedEffect(s: Store, id: int, now: int, grace: nat, allowReal: bool)
    requires StoreOk(s)
    ensures StoreEffect(s, ClaimQueued(s, id, now, grace, allowReal).value.store, None)
  {
    UnchangedEffect(s, None);
    ClaimQueuedStep(s, id, now, grace, allowReal);
  }

  lemma BatchEffect(s: Store, locked: set<int>, now: int, size: int, grace: nat, includeReal: bool)
    requires StoreOk(s) && ClaimBatch(s, locked, now, size, grace, includeReal).Ok?
    ensures StoreEffect(s, ClaimBatch(s, locked, now, size, grace, includeReal).value.store, None)
  {
    UnchangedEffect(s, None);
    BatchKeeps(s, locked, now, size, grace, includeReal);
  }

  lemma DirectEffect(s: Store, id: int, now: int)
    requires StoreOk(s) && ClaimDirect(s, id, now).Ok?
    ensures StoreEffect(s, ClaimDirect(s, id, now).value.store, None)
  {
    UnchangedEffect(s, None);
    ClaimDirectStep(s, id, now);
  }

  lemma RecordingEffect(s: Store, e: int, r: Outcome<Store>)
    requires StoreOk(s) && Recording(s, e, r) && r.Ok?
    ensures StoreEffect(s, r.value, Some(e))
  {
    UnchangedEffect(s, None);
  }

  /** Every step changes every event in one of five ways: not at all but for callback
      columns, an edit of a pending event, a claim, a miss, or its holder's record. */
  lemma DbEffect(s: Sys, l: Label)
    requires OwnInv(s) && Enabled(s, l)
    ensures StoreEffect(s.db, DbAfter(s, l), EndedBy(s, l))
  {
    UnchangedEffect(s.db, EndedBy(s, l));
    if l.Service? {
      ServiceEffect(s.db, l.op);
    } else if l.StartQueued? {
      QueuedEffect(s.db, s.queue[WorkerOf(s, l.w).inbox[0].msg].event, l.now, l.grace, l.allowReal);
    } else if l.StartBatch? {
      if ClaimBatch(s.db, l.locked, l.now, l.size, l.grace, l.includeReal).Ok? {
        BatchEffect(s.db, l.locked, l.now, l.size, l.grace, l.includeReal);
      }
    } else if l.StartDirect? {
      if ClaimDirect(s.db, l.event, l.now).Ok? {
        DirectEffect(s.db, l.event, l.now);
      }
    } else if Finishes(l) {
      FinishIsRecording(s, l);
      if RecordOf(s, l).Ok? {
        RecordingEffect(s.db, Head(WorkerOf(s, l.w).job).event, RecordOf(s, l));
      }
    }
  }

  /** A granted claim is on an event that was pending or waiting for a retry, it holds that
      event afterwards, and no two granted claims are on the same event. */
  lemma GrantEffect(s: Sys, l: Label)
    requires OwnInv(s) && Starts(l) && Enabled(s, l)
    ensures var granted := GrantedBy(s, l);
            && (forall i: nat :: i < |granted| ==>
                  var c := granted[i];
                  && c.event in s.db.events && c.event in DbAfter(s, l).events
                  && (s.db.events[c.event].row.status == Scheduled || Resumable(s.db.events[c.event]))
                  && Holds(DbAfter(s, l).events[c.event], c)
                  && (s.db.events[c.event].row.phone in s.db.phones ==>
                        c.to == s.db.phones[s.db.events[c.event].row.phone].number))
            && (forall i: nat, j: nat :: i < j < |granted| ==> granted[i].event != granted[j].event)
  {
    match l
    case StartQueued(w, now, grace, allowReal) =>
      ClaimQueuedStep(s.db, s.queue[WorkerOf(s, w).inbox[0].msg].event, now, grace, allowReal);
    case StartBatch(w, locked, now, size, grace, includeReal) =>
      if ClaimBatch(s.db, locked, now, size, grace, includeReal).Ok? {
        BatchHolds(s.db, locked, now, size, grace, includeReal);
      }
    case StartDirect(w, event, now) => ClaimDirectStep(s.db, event, now);
  }
}
