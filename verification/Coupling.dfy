/** The coupling between an event and its attempts, and what each transaction does to it. */
module Coupling {
  import opened Records
  import opened Tables
  import opened Ordering
  import opened Claims
  import opened Scheduling

  // ----- the invariant of one entry

  ghost predicate Numbered(attempts: seq<Attempt>) {
    forall i :: 0 <= i < |attempts| ==> attempts[i].number == i + 1
  }

  ghost predicate AttemptOk(a: Attempt) {
    && (a.completedAt.Some? <==> a.status != AttemptProcessing)
    && (a.error != NoCode <==> a.status == AttemptFailed)
    && (a.sid.Some? ==> a.status == AttemptSubmitted || a.status == AttemptSuppressed)
    && (a.callbacks != NO_CALLBACKS ==> a.status == AttemptSubmitted)
  }

  function Last(x: Entry): Attempt
    requires x.attempts != []
  {
    x.attempts[|x.attempts| - 1]
  }

  /** A worker holds the event: its last attempt is unfinished. */
  ghost predicate InFlight(x: Entry) {
    x.row.status == Processing && x.attempts != [] && Last(x).status == AttemptProcessing
  }

  /** The event waits for the queue to retry it. */
  ghost predicate Resumable(x: Entry) {
    x.row.status == Processing && x.attempts != [] && RetryableFailure(Last(x))
  }

  ghost predicate Delivered(x: Entry) {
    x.row.status in {Submitted, Failed, Suppressed}
  }

  /** Attempts are numbered 1..n, all but the last are retryable failures, and the status of
      the event says what its last attempt is. */
  ghost predicate Coupled(x: Entry) {
    && Numbered(x.attempts)
    && (forall i :: 0 <= i < |x.attempts| ==> AttemptOk(x.attempts[i]))
    && (forall i :: 0 <= i < |x.attempts| - 1 ==> RetryableFailure(x.attempts[i]))
    && (x.row.startedAt.Some? <==> x.attempts != [])
    && (x.row.completedAt.Some? <==> x.row.status != Scheduled && x.row.status != Processing)
    && match x.row.status
       case Scheduled => x.attempts == []
       case Cancelled => x.attempts == []
       case Processing => InFlight(x) || Resumable(x)
       case Submitted => x.attempts != [] && Last(x).status == AttemptSubmitted && !x.row.isDemo
       case Suppressed => x.attempts != [] && Last(x).status == AttemptSuppressed && x.row.isDemo
       case Failed => x.attempts != [] && Last(x).status == AttemptFailed && !Last(x).error.QueueRetryable?
  }

  ghost predicate StoreOk(s: Store) {
    forall e :: e in s.events ==> Coupled(s.events[e])
  }

  /** At most one attempt of an event is unfinished, and then the event is in processing. */
  lemma OneAttemptInProcessing(x: Entry, i: nat, j: nat)
    requires Coupled(x) && i < |x.attempts| && j < |x.attempts|
    requires x.attempts[i].status == AttemptProcessing && x.attempts[j].status == AttemptProcessing
    ensures i == j == |x.attempts| - 1 && InFlight(x)
  {
  }

  /** With attempts numbered 1..n the highest number is the last one inserted, and the next
      number is free. */
  lemma {:induction false} LatestIsLast(attempts: seq<Attempt>)
    requires Numbered(attempts)
    ensures Latest(attempts) == if attempts == [] then None else Some(attempts[|attempts| - 1])
    ensures forall i :: 0 <= i < |attempts| ==> attempts[i].number != |attempts| + 1
    ensures Numbered(Opened(attempts))
  {
    if attempts == [] {
    } else {
      LatestIsLast(attempts[..|attempts| - 1]);
    }
  }

  // ----- what a transaction may do to one entry

  /** What a delivery uses of a row: fixed once the event has left `scheduled`. */
  ghost predicate Frozen(x: Event, y: Event) {
    && x.user == y.user && x.phone == y.phone && x.zip == y.zip
    && x.scheduledFor == y.scheduledFor && x.channel == y.channel && x.isDemo == y.isDemo
  }

  /** The same delivery: only callback columns may differ. */
  ghost predicate SameDelivery(x: Entry, y: Entry) {
    && x.row == y.row
    && |x.attempts| == |y.attempts|
    && forall i :: 0 <= i < |x.attempts| ==> Core(x.attempts[i]) == Core(y.attempts[i])
  }

  /** A claim: a new unfinished attempt on an event that was pending or waiting for a retry. */
  ghost predicate ClaimStep(x: Entry, y: Entry) {
    && (x.row.status == Scheduled || Resumable(x))
    && InFlight(y) && Coupled(y)
    && |y.attempts| == |x.attempts| + 1
    && y.attempts[..|x.attempts|] == x.attempts
    && Frozen(x.row, y.row)
  }

  /** A claim that finds the event too late. */
  ghost predicate MissStep(x: Entry, y: Entry) {
    && x.row.status == Scheduled
    && y.row.status == Failed && Coupled(y)
    && |y.attempts| == 1 && Last(y).error == MISSED
    && Frozen(x.row, y.row)
  }

  /** The end of a delivery: only the unfinished attempt and the status change. */
  ghost predicate EndStep(x: Entry, y: Entry) {
    && InFlight(x)
    && (Delivered(y) || Resumable(y)) && Coupled(y)
    && |y.attempts| == |x.attempts|
    && (forall i :: 0 <= i < |x.attempts| - 1 ==> y.attempts[i] == x.attempts[i])
    && Frozen(x.row, y.row)
  }

  lemma ClaimedEntryIsClaim(x: Entry, now: int)
    requires Coupled(x) && x.row.status == Scheduled
    ensures ClaimStep(x, ClaimedEntry(x, now))
    ensures MissStep(x, MissedEntry(x, now))
  {
    LatestIsLast(x.attempts);
  }

  lemma ResumedEntryIsClaim(x: Entry)
    requires Coupled(x) && Resumable(x)
    ensures ClaimStep(x, x.(attempts := Opened(x.attempts)))
  {
    LatestIsLast(x.attempts);
    var y := x.(attempts := Opened(x.attempts));
    assert y.attempts[..|x.attempts|] == x.attempts;
  }

  /** A claim matches the entry it was made on: the attempt is the unfinished last one and
      the copied row is the authoritative one. */
  ghost predicate Holds(x: Entry, c: Claim) {
    && InFlight(x)
    && c.index == |x.attempts| - 1 && c.number == |x.attempts|
    && Frozen(c.row, x.row)
  }

  // ----- the claim of a queued message

  /** A queued message is granted a claim exactly when its event is pending, due, within its
      grace window and let through by the gate, or when the event waits for a retry; a
      resumed claim looks at none of the three. */
  lemma GrantedExactlyWhen(s: Store, id: int, now: int, grace: nat, allowReal: bool)
    requires StoreOk(s)
    ensures var r := ClaimQueued(s, id, now, grace, allowReal);
            && r.Ok?
            && (r.value.decision.Granted? <==>
                  && id in s.events
                  && var x := s.events[id];
                     || Resumable(x)
                     || (x.row.status == Scheduled && now - grace <= x.row.scheduledFor <= now
                         && (x.row.isDemo || allowReal)))
  {
    if id in s.events {
      LatestIsLast(s.events[id].attempts);
    }
  }

  lemma KeepsStoreOk(s: Store, id: int, y: Entry)
    requires StoreOk(s) && Coupled(y)
    ensures StoreOk(WithEntry(s, id, y))
  {
  }

  /** The claim changed event `id` from `s` to `t` and holds it now. */
  ghost predicate GrantStep(s: Store, t: Store, id: int, c: Claim) {
    && id in s.events && id in t.events
    && t == WithEntry(s, id, t.events[id])
    && ClaimStep(s.events[id], t.events[id])
    && c.event == id && Holds(t.events[id], c)
    && (s.events[id].row.phone in s.phones ==> c.to == s.phones[s.events[id].row.phone].number)
  }

  ghost predicate MissedStep(s: Store, t: Store, id: int) {
    && id in s.events && id in t.events
    && t == WithEntry(s, id, t.events[id])
    && MissStep(s.events[id], t.events[id])
  }

  lemma ScheduledClaimStep(s: Store, id: int, now: int)
    requires StoreOk(s) && id in s.events && s.events[id].row.status == Scheduled
    ensures var t := WithEntry(s, id, ClaimedEntry(s.events[id], now));
            StoreOk(t) && GrantStep(s, t, id, ClaimOn(t, id))
    ensures var t := WithEntry(s, id, MissedEntry(s.events[id], now));
            StoreOk(t) && MissedStep(s, t, id)
  {
    var x := s.events[id];
    ClaimedEntryIsClaim(x, now);
    KeepsStoreOk(s, id, ClaimedEntry(x, now));
    KeepsStoreOk(s, id, MissedEntry(x, now));
  }

  lemma ResumedClaimStep(s: Store, id: int)
    requires StoreOk(s) && id in s.events && Resumable(s.events[id])
    ensures var t := WithEntry(s, id, s.events[id].(attempts := Opened(s.events[id].attempts)));
            StoreOk(t) && GrantStep(s, t, id, ClaimOn(t, id))
  {
    var x := s.events[id];
    ResumedEntryIsClaim(x);
    KeepsStoreOk(s, id, x.(attempts := Opened(x.attempts)));
  }

  /** The message was decided, and the store is as it was. */
  ghost predicate OnlyDecided(s: Store, q: QueuedResult) {
    q.store == s && q.decision.Decided?
  }

  lemma OtherQueuedStep(s: Store, id: int, now: int, grace: nat, allowReal: bool)
    requires StoreOk(s)
    requires id in s.events ==> s.events[id].row.status != Scheduled && !Resumable(s.events[id])
    ensures OnlyDecided(s, ClaimQueued(s, id, now, grace, allowReal).value)
  {
    if id in s.events {
      LatestIsLast(s.events[id].attempts);
    }
  }

  lemma ResumedQueuedStep(s: Store, id: int, now: int, grace: nat, allowReal: bool)
    requires StoreOk(s) && id in s.events && Resumable(s.events[id])
    ensures var q := ClaimQueued(s, id, now, grace, allowReal).value;
            StoreOk(q.store) && q.decision.Granted? && GrantStep(s, q.store, id, q.decision.claim)
  {
    LatestIsLast(s.events[id].attempts);
    ResumedClaimStep(s, id);
  }

  /** What the claim of a queued message does to the store: nothing, a claim, or a miss, and
      never to another event. */
  lemma ClaimQueuedStep(s: Store, id: int, now: int, grace: int, allowReal: bool)
    requires StoreOk(s) && ClaimQueued(s, id, now, grace, allowReal).Ok?
    ensures var q := ClaimQueued(s, id, now, grace, allowReal).value;
            && StoreOk(q.store)
            && match q.decision
               case Granted(c) => GrantStep(s, q.store, id, c)
               case Decided(action) => q.store == s || (action == Acknowledge && MissedStep(s, q.store, id))
  {
    if id in s.events && s.events[id].row.status == Scheduled {
      ScheduledClaimStep(s, id, now);
    } else if id in s.events && Resumable(s.events[id]) {
      ResumedQueuedStep(s, id, now, grace, allowReal);
    } else {
      OtherQueuedStep(s, id, now, grace, allowReal);
    }
  }

  lemma ClaimDirectStep(s: Store, id: int, now: int)
    requires StoreOk(s)
    ensures var r := ClaimDirect(s, id, now);
            && (r.Ok? && r.value.claim.Some? <==>
                  id in s.events && s.events[id].row.status == Scheduled && s.events[id].row.scheduledFor <= now)
            && (r.Ok? && r.value.claim.None? ==> r.value.store == s && id in s.events && Delivered(s.events[id]))
            && (r.Ok? && r.value.claim.Some? ==>
                  StoreOk(r.value.store) && GrantStep(s, r.value.store, id, r.value.claim.value))
  {
    if id in s.events && s.events[id].row.status == Scheduled {
      ClaimedEntryIsClaim(s.events[id], now);
    }
  }

  // ----- recording the end of a delivery

  /** A recording transaction succeeds exactly on the unfinished last attempt of an event in
      processing; a success also needs its provider SID to be new. */
  lemma RecordExactlyWhen(s: Store, id: int, k: nat, status: AttemptStatus, message: string, sid: Option<string>,
                          exc: ClassName, code: ErrorCode, at: int)
    requires StoreOk(s) && status != AttemptProcessing
    ensures var holds := id in s.events && InFlight(s.events[id]) && k == |s.events[id].attempts| - 1;
            && (RecordSuccess(s, id, k, status, message, sid, at).Ok? <==>
                  holds && (sid.Some? ==> !SidTaken(s, sid.value, id, k)))
            && (RecordRetryable(s, id, k, exc, at).Ok? <==> holds)
            && (RecordFailure(s, id, k, code, at).Ok? <==> holds)
  {
  }

  lemma RecordSuccessStep(s: Store, id: int, k: nat, status: AttemptStatus, message: string, sid: Option<string>,
                          at: int)
    requires StoreOk(s) && RecordSuccess(s, id, k, status, message, sid, at).Ok?
    requires status == if s.events[id].row.isDemo then AttemptSuppressed else AttemptSubmitted
    ensures var t := RecordSuccess(s, id, k, status, message, sid, at).value;
            && id in s.events && t == WithEntry(s, id, t.events[id])
            && EndStep(s.events[id], t.events[id]) && StoreOk(t)
            && t.events[id].row.status == EventStatusOf(status)
            && Last(t.events[id]).message == message && Last(t.events[id]).sid == sid
  {
    RecordExactlyWhen(s, id, k, status, message, sid, "Error", NoCode, at);
  }

  lemma RecordRetryableStep(s: Store, id: int, k: nat, exc: ClassName, at: int)
    requires StoreOk(s) && RecordRetryable(s, id, k, exc, at).Ok?
    ensures var t := RecordRetryable(s, id, k, exc, at).value;
            && id in s.events && t == WithEntry(s, id, t.events[id])
            && EndStep(s.events[id], t.events[id]) && StoreOk(t)
            && Resumable(t.events[id])
  {
    RecordExactlyWhen(s, id, k, AttemptFailed, "", None, exc, NoCode, at);
  }

  lemma RecordFailureStep(s: Store, id: int, k: nat, code: ErrorCode, at: int)
    requires StoreOk(s) && RecordFailure(s, id, k, code, at).Ok?
    requires code.Plain? || code.RetryExhausted?
    ensures var t := RecordFailure(s, id, k, code, at).value;
            && id in s.events && t == WithEntry(s, id, t.events[id])
            && EndStep(s.events[id], t.events[id]) && StoreOk(t)
            && t.events[id].row.status == Failed && Last(t.events[id]).error == code
  {
    RecordExactlyWhen(s, id, k, AttemptFailed, "", None, "Error", code, at);
  }
}
