/** Claiming events for delivery, and recording how a claimed delivery ended.

    Every function is the effect of one transaction of `apps/delivery/services.py`; the
    methods carry the transactions out on the database and equal those functions. */
module Claims {
  import opened Records
  import opened Tables
  import opened Ordering

  const MAX_BATCH_SIZE := 100

  /** A claimed delivery is frozen: it holds copies of the row and of the attempt's key. */
  datatype Claim = Claim(event: int, index: nat, number: nat, row: Event, to: string)

  datatype Action = Acknowledge | Retry

  /** What the claim transaction of a queued message decides. */
  datatype QueuedClaim = Decided(action: Action) | Granted(claim: Claim)

  datatype QueuedResult = QueuedResult(store: Store, decision: QueuedClaim)

  // ----- claiming

  function NumberOf(s: Store, phone: int): string {
    if phone in s.phones then s.phones[phone].number else ""
  }

  /** `_create_attempt_locked`. */
  function Opened(attempts: seq<Attempt>): seq<Attempt> {
    attempts + [NewAttempt(|attempts| + 1)]
  }

  /** The entry after `_claim_locked_event`. */
  function ClaimedEntry(x: Entry, now: int): Entry {
    Entry(Moved(x.row, Processing, now), Opened(x.attempts))
  }

  /** The entry when the claim finds the event outside its grace window. */
  function MissedEntry(x: Entry, now: int): Entry {
    var y := ClaimedEntry(x, now);
    var k := |x.attempts|;
    Entry(Moved(y.row, Failed, now), y.attempts[k := Ended(y.attempts[k], AttemptFailed, now).(error := MISSED)])
  }

  /** The claim on the last attempt of an event. */
  function ClaimOn(s: Store, id: int): Claim
    requires id in s.events && s.events[id].attempts != []
  {
    var x := s.events[id];
    var k := |x.attempts| - 1;
    Claim(id, k, x.attempts[k].number, x.row, NumberOf(s, x.row.phone))
  }

  predicate Due(row: Event, now: int, allowReal: bool) {
    row.scheduledFor <= now && (row.isDemo || allowReal)
  }

  /** `_claim_queued_event`. */
  function ClaimQueued(s: Store, id: int, now: int, grace: int, allowReal: bool): Outcome<QueuedResult>
  {
    if grace < 0 then Raised(ValueError)
    else if id !in s.events then Ok(QueuedResult(s, Decided(Acknowledge)))
    else
      var x := s.events[id];
      var last := Latest(x.attempts);
      match x.row.status
      case Failed =>
        Ok(QueuedResult(s, Decided(
                          if last.Some? && last.value.error.RetryExhausted? then Retry else Acknowledge)))
      case Submitted => Ok(QueuedResult(s, Decided(Acknowledge)))
      case Suppressed => Ok(QueuedResult(s, Decided(Acknowledge)))
      case Cancelled => Ok(QueuedResult(s, Decided(Acknowledge)))
      case Processing =>
        if last.Some? && RetryableFailure(last.value) then
          var t := WithEntry(s, id, x.(attempts := Opened(x.attempts)));
          Ok(QueuedResult(t, Granted(ClaimOn(t, id))))
        else
          Ok(QueuedResult(s, Decided(Retry)))
      case Scheduled =>
        if !Due(x.row, now, allowReal) then Ok(QueuedResult(s, Decided(Acknowledge)))
        else if x.row.scheduledFor < now - grace then
          Ok(QueuedResult(WithEntry(s, id, MissedEntry(x, now)), Decided(Acknowledge)))
        else
          var t := WithEntry(s, id, ClaimedEntry(x, now));
          Ok(QueuedResult(t, Granted(ClaimOn(t, id))))
  }

  datatype DirectResult = DirectResult(store: Store, claim: Option<Claim>)

  /** `_claim_event`. */
  function ClaimDirect(s: Store, id: int, now: int): Outcome<DirectResult> {
    if id !in s.events then Raised(DoesNotExist)
    else
      var x := s.events[id];
      if x.row.status in {Submitted, Failed, Suppressed} then Ok(DirectResult(s, None))
      else if x.row.status != Scheduled then Raised(ValidationError)
      else if x.row.scheduledFor > now then Raised(EventNotDue)
      else
        var t := WithEntry(s, id, ClaimedEntry(x, now));
        Ok(DirectResult(t, Some(ClaimOn(t, id))))
  }

  /** The ids a tick or a dispatcher may take. */
  function DueIds(s: Store, now: int, includeReal: bool): set<int> {
    set id | id in s.events && s.events[id].row.status == Scheduled && Due(s.events[id].row, now, includeReal)
  }

  /** The ids a batch or a tick selects: the oldest due events whose rows are not locked. */
  function OldestDue(s: Store, locked: set<int>, now: int, size: nat, includeReal: bool): seq<int> {
    OldestFirst(s.events, DueIds(s, now, includeReal) - locked, size)
  }

  datatype Batch = Batch(store: Store, deliveries: seq<Claim>, missed: seq<int>)

  /** One turn of the loop of `claim_due_delivery_batch`. */
  function ClaimNext(b: Batch, id: int, now: int, grace: int): Batch
    requires id in b.store.events
  {
    var x := b.store.events[id];
    if x.row.scheduledFor < now - grace then
      Batch(WithEntry(b.store, id, MissedEntry(x, now)), b.deliveries, b.missed + [id])
    else
      var t := WithEntry(b.store, id, ClaimedEntry(x, now));
      Batch(t, b.deliveries + [ClaimOn(t, id)], b.missed)
  }

  /** The loop over the locked rows. */
  function ClaimEach(s: Store, ids: seq<int>, now: int, grace: int): (b: Batch)
    requires forall k :: 0 <= k < |ids| ==> ids[k] in s.events
    ensures b.store.events.Keys == s.events.Keys
  {
    if ids == [] then Batch(s, [], [])
    else
      var n := |ids| - 1;
      ClaimNext(ClaimEach(s, ids[..n], now, grace), ids[n], now, grace)
  }

  /** `claim_due_delivery_batch`; `locked` are the rows `SKIP LOCKED` passes over. */
  function ClaimBatch(s: Store, locked: set<int>, now: int, size: int, grace: int, includeReal: bool): Outcome<Batch> {
    if !(1 <= size <= MAX_BATCH_SIZE) then Raised(ValueError)
    else if grace < 0 then Raised(ValueError)
    else Ok(ClaimEach(s, OldestDue(s, locked, now, size, includeReal), now, grace))
  }

  // ----- recording the end of a delivery

  function EventStatusOf(status: AttemptStatus): EventStatus {
    match status
    case AttemptProcessing => Processing
    case AttemptSubmitted => Submitted
    case AttemptFailed => Failed
    case AttemptSuppressed => Suppressed
  }

  predicate HasAttempt(s: Store, id: int, k: nat) {
    id in s.events && k < |s.events[id].attempts|
  }

  /** `_record_success`. */
  function RecordSuccess(s: Store, id: int, k: nat, status: AttemptStatus, message: string, sid: Option<string>,
                         at: int): Outcome<Store>
  {
    if !HasAttempt(s, id, k) then Raised(DoesNotExist)
    else
      var x := s.events[id];
      var a := x.attempts[k];
      if a.status != AttemptProcessing || status == AttemptProcessing then Raised(ValidationError)
      else if sid.Some? && SidTaken(s, sid.value, id, k) then Raised(IntegrityError)
      else if EventStatusOf(status) !in Allowed(x.row.status) then Raised(ValidationError)
      else
        Ok(WithEntry(s, id, Entry(
                       Moved(x.row, EventStatusOf(status), at),
                       x.attempts[k := Ended(a, status, at).(message := message, sid := sid)])))
  }

  /** `_record_retryable_failure`: the event stays in processing. */
  function RecordRetryable(s: Store, id: int, k: nat, exc: ClassName, at: int): Outcome<Store> {
    if !HasAttempt(s, id, k) then Raised(DoesNotExist)
    else
      var x := s.events[id];
      var a := x.attempts[k];
      if a.status != AttemptProcessing then Raised(ValidationError)
      else Ok(WithAttempt(s, id, k, Ended(a, AttemptFailed, at).(error := QueueRetryable(exc))))
  }

  /** `_record_failure`. */
  function RecordFailure(s: Store, id: int, k: nat, code: ErrorCode, at: int): Outcome<Store> {
    if !HasAttempt(s, id, k) then Raised(DoesNotExist)
    else
      var x := s.events[id];
      var a := x.attempts[k];
      if a.status != AttemptProcessing || Failed !in Allowed(x.row.status) then Raised(ValidationError)
      else
        Ok(WithEntry(s, id, Entry(
                       Moved(x.row, Failed, at),
                       x.attempts[k := Ended(a, AttemptFailed, at).(error := code)])))
  }

  // ----- the transactions

  method CreateAttemptLocked(db: Database, event: ScheduledEvent) returns (a: DeliveryAttempt)
    requires event.id in db.store.events
    modifies db
    ensures var x := old(db.store).events[event.id];
            && db.store == WithEntry(old(db.store), event.id, x.(attempts := Opened(x.attempts)))
            && fresh(a) && a.event == event.id && a.index == |x.attempts| && a.Row() == NewAttempt(|x.attempts| + 1)
  {
    var previousAttempts := |db.store.events[event.id].attempts|;
    a := db.InsertAttempt(event.id, previousAttempts + 1);
  }

  /** `event` was loaded under the row lock in the same transaction. */
  method ClaimLockedEvent(db: Database, event: ScheduledEvent, now: int) returns (r: Outcome<DeliveryAttempt>)
    requires event.id in db.store.events && event.Row() == db.store.events[event.id].row
    modifies db, event
    ensures r.Ok? == (old(event.status) == Scheduled)
    ensures r.Raised? ==> db.store == old(db.store)
    ensures r.Ok? ==>
              var x := old(db.store).events[event.id];
              && db.store == WithEntry(old(db.store), event.id, ClaimedEntry(x, now))
              && event.Row() == db.store.events[event.id].row
              && fresh(r.value) && r.value.event == event.id && r.value.index == |x.attempts|
              && r.value.Row() == NewAttempt(|x.attempts| + 1)
  {
    var moved := event.TransitionTo(Processing, now);
    if moved.Raised? {
      return Raised(ValidationError);
    }
    db.SaveEvent(event, {StatusColumn, StartedAtColumn});
    var attempt := CreateAttemptLocked(db, event);
    return Ok(attempt);
  }

  /** The last two statements of every recording service: the event completes. */
  method CompleteEvent(db: Database, event: ScheduledEvent, status: EventStatus, at: int) returns (r: Outcome<()>)
    requires event.id in db.store.events && event.Row() == db.store.events[event.id].row
    requires status != Processing && status != Scheduled
    modifies db, event
    ensures r == if status in Allowed(old(event.status)) then Ok(()) else Raised(ValidationError)
    ensures db.store == if r.Ok? then WithRow(old(db.store), event.id, Moved(old(event.Row()), status, at))
            else old(db.store)
  {
    var moved := event.TransitionTo(status, at);
    if moved.Raised? {
      return moved;
    }
    db.SaveEvent(event, {StatusColumn, CompletedAtColumn});
    return Ok(());
  }

  method RecordMissedLocked(db: Database, event: ScheduledEvent, attempt: DeliveryAttempt, failedAt: int)
    requires event.id in db.store.events && event.Row() == db.store.events[event.id].row
    requires attempt.event == event.id && attempt.index < |db.store.events[event.id].attempts|
    requires attempt.Row() == db.store.events[event.id].attempts[attempt.index]
    requires event.status == Processing && attempt.status == AttemptProcessing
    modifies db, event, attempt
    ensures var x := old(db.store).events[event.id];
            var a := Ended(x.attempts[attempt.index], AttemptFailed, failedAt).(error := MISSED);
            db.store == WithEntry(old(db.store), event.id,
                                  Entry(Moved(x.row, Failed, failedAt), x.attempts[attempt.index := a]))
  {
    var ended := attempt.TransitionTo(AttemptFailed, failedAt);
    assert ended.Ok?;
    attempt.error := MISSED;
    var saved := db.SaveAttempt(attempt, {AttemptStatusColumn, ErrorCodeColumn, AttemptCompletedAtColumn});
    var moved := CompleteEvent(db, event, Failed, failedAt);
    assert moved.Ok?;
  }

  method ClaimQueuedEvent(db: Database, id: int, now: int, grace: int, allowReal: bool)
    returns (r: Outcome<QueuedClaim>)
    modifies db
    ensures var spec := ClaimQueued(old(db.store), id, now, grace, allowReal);
            if spec.Ok? then r == Ok(spec.value.decision) && db.store == spec.value.store
            else r == Raised(spec.error) && db.store == old(db.store)
  {
    if grace < 0 {
      return Raised(ValueError);
    }
    var event := db.GetEvent(id);
    if event == null {
      return Ok(Decided(Acknowledge));
    }
    var to := NumberOf(db.store, event.phone);
    var latestAttempt := Latest(db.store.events[id].attempts);
    if event.status == Failed {
      if latestAttempt.Some? && latestAttempt.value.error.RetryExhausted? {
        return Ok(Decided(Retry));
      }
      return Ok(Decided(Acknowledge));
    }
    if event.status in {Submitted, Suppressed, Cancelled} {
      return Ok(Decided(Acknowledge));
    }
    if event.status == Processing {
      if latestAttempt.Some? && latestAttempt.value.status == AttemptFailed
          && latestAttempt.value.error.QueueRetryable? {
        var resumed := CreateAttemptLocked(db, event);
        return Ok(Granted(Claim(id, resumed.index, resumed.number, event.Row(), to)));
      }
      return Ok(Decided(Retry));
    }
    if event.scheduledFor > now || (!event.isDemo && !allowReal) {
      return Ok(Decided(Acknowledge));
    }
    var claimed := ClaimLockedEvent(db, event, now);
    assert claimed.Ok?;
    var attempt := claimed.value;
    if event.scheduledFor < now - grace {
      RecordMissedLocked(db, event, attempt, now);
      return Ok(Decided(Acknowledge));
    }
    return Ok(Granted(Claim(id, attempt.index, attempt.number, event.Row(), to)));
  }

  method ClaimEvent(db: Database, id: int, now: int) returns (r: Outcome<Option<Claim>>)
    modifies db
    ensures var spec := ClaimDirect(old(db.store), id, now);
            if spec.Ok? then r == Ok(spec.value.claim) && db.store == spec.value.store
            else r == Raised(spec.error) && db.store == old(db.store)
  {
    var event := db.GetEvent(id);
    if event == null {
      return Raised(DoesNotExist);
    }
    if event.status in {Submitted, Failed, Suppressed} {
      return Ok(None);
    }
    if event.status != Scheduled {
      return Raised(ValidationError);
    }
    if event.scheduledFor > now {
      return Raised(EventNotDue);
    }
    var to := NumberOf(db.store, event.phone);
    var claimed := ClaimLockedEvent(db, event, now);
    assert claimed.Ok?;
    return Ok(Some(Claim(id, claimed.value.index, claimed.value.number, event.Row(), to)));
  }

  method ClaimDueDeliveryBatch(db: Database, locked: set<int>, now: int, size: int, grace: int, includeReal: bool)
    returns (r: Outcome<Batch>)
    modifies db
    ensures r == ClaimBatch(old(db.store), locked, now, size, grace, includeReal)
    ensures db.store == if r.Ok? then r.value.store else old(db.store)
  {
    if !(1 <= size <= MAX_BATCH_SIZE) {
      return Raised(ValueError);
    }
    if grace < 0 {
      return Raised(ValueError);
    }
    var ids := OldestDue(db.store, locked, now, size, includeReal);
    OldestFirstIsPrefix(db.store.events, DueIds(db.store, now, includeReal) - locked, size);
    var batch := ClaimLockedRows(db, ids, now, grace);
    return Ok(batch);
  }

  /** The loop over the rows the query locked. */
  method ClaimLockedRows(db: Database, ids: seq<int>, now: int, grace: int) returns (b: Batch)
    requires Distinct(ids)
    requires forall k :: 0 <= k < |ids| ==> ids[k] in db.store.events && db.store.events[ids[k]].row.status == Scheduled
    modifies db
    ensures b == ClaimEach(old(db.store), ids, now, grace) && db.store == b.store
  {
    b := Batch(db.store, [], []);
    for i := 0 to |ids|
      invariant b == ClaimEach(old(db.store), ids[..i], now, grace) && db.store == b.store
      invariant forall k :: i <= k < |ids| ==>
                  ids[k] in b.store.events && b.store.events[ids[k]].row.status == Scheduled
    {
      assert ids[..i + 1][..i] == ids[..i];
      b := ClaimOne(db, b, ids[i], now, grace);
    }
    assert ids[..|ids|] == ids;
  }

  /** The body of the loop: the claim joins the deliveries, or the attempt the missed ones. */
  method ClaimOne(db: Database, b: Batch, id: int, now: int, grace: int) returns (r: Batch)
    requires b.store == db.store
    requires id in db.store.events && db.store.events[id].row.status == Scheduled
    modifies db
    ensures r == ClaimNext(b, id, now, grace) && db.store == r.store
    ensures forall e :: e in b.store.events && e != id ==> e in r.store.events && r.store.events[e] == b.store.events[e]
  {
    var event := db.GetEvent(id);
    var to := NumberOf(db.store, event.phone);
    var claimed := ClaimLockedEvent(db, event, now);
    assert claimed.Ok?;
    var attempt := claimed.value;
    if event.scheduledFor < now - grace {
      RecordMissedLocked(db, event, attempt, now);
      return Batch(db.store, b.deliveries, b.missed + [id]);
    }
    return Batch(db.store, b.deliveries + [Claim(id, attempt.index, attempt.number, event.Row(), to)], b.missed);
  }

  method RecordSuccessOf(db: Database, id: int, k: nat, status: AttemptStatus, message: string, sid: Option<string>,
                         at: int)
    returns (r: Outcome<()>)
    modifies db
    ensures var spec := RecordSuccess(old(db.store), id, k, status, message, sid, at);
            if spec.Ok? then r == Ok(()) && db.store == spec.value
                else r == Raised(spec.error) && db.store == old(db.store)
  {
    var event := db.GetEvent(id);
    var attempt := db.GetAttempt(id, k);
    if event == null || attempt == null {
      return Raised(DoesNotExist);
    }
    var before := db.store;
    var ended := attempt.TransitionTo(status, at);
    if ended.Raised? {
      return Raised(ValidationError);
    }
    attempt.message := message;
    attempt.sid := sid;
    var saved := db.SaveAttempt(attempt, {AttemptStatusColumn, MessageColumn, SidColumn, AttemptCompletedAtColumn});
    if saved.Raised? {
      return Raised(IntegrityError);
    }
    var moved := CompleteEvent(db, event, EventStatusOf(status), at);
    if moved.Raised? {
      db.store := before; // the transaction rolls back
      return Raised(ValidationError);
    }
    return Ok(());
  }

  method RecordRetryableFailure(db: Database, id: int, k: nat, exc: ClassName, at: int) returns (r: Outcome<()>)
    modifies db
    ensures var spec := RecordRetryable(old(db.store), id, k, exc, at);
            if spec.Ok? then r == Ok(()) && db.store == spec.value
                else r == Raised(spec.error) && db.store == old(db.store)
  {
    var event := db.GetEvent(id);
    var attempt := db.GetAttempt(id, k);
    if event == null || attempt == null {
      return Raised(DoesNotExist);
    }
    var ended := attempt.TransitionTo(AttemptFailed, at);
    if ended.Raised? {
      return Raised(ValidationError);
    }
    attempt.error := QueueRetryable(exc);
    var saved := db.SaveAttempt(attempt, {AttemptStatusColumn, ErrorCodeColumn, AttemptCompletedAtColumn});
    return Ok(());
  }

  method RecordFailureOf(db: Database, id: int, k: nat, code: ErrorCode, at: int) returns (r: Outcome<()>)
    modifies db
    ensures var spec := RecordFailure(old(db.store), id, k, code, at);
            if spec.Ok? then r == Ok(()) && db.store == spec.value
                else r == Raised(spec.error) && db.store == old(db.store)
  {
    var event := db.GetEvent(id);
    var attempt := db.GetAttempt(id, k);
    if event == null || attempt == null {
      return Raised(DoesNotExist);
    }
    var before := db.store;
    var ended := attempt.TransitionTo(AttemptFailed, at);
    if ended.Raised? {
      return Raised(ValidationError);
    }
    attempt.error := code;
    var saved := db.SaveAttempt(attempt, {AttemptStatusColumn, ErrorCodeColumn, AttemptCompletedAtColumn});
    var moved := CompleteEvent(db, event, Failed, at);
    if moved.Raised? {
      db.store := before; // the transaction rolls back
      return Raised(ValidationError);
    }
    return Ok(());
  }
}
