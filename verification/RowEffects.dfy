/** What the delivery services do to the rows, as one table a page long.

    The table is written on the rows alone: it names no transaction, no claim and no step of
    the services, and the services are proved equal to it for every input. */
module RowEffects {
  import opened Records
  import opened Ordering
  import opened Claims
  import opened Delivery
  import opened Coupling
  import opened BatchClaims

  // ----- the table

  /** How the providers answered for one attempt: the announcement was accepted, or something
      failed on the way. */
  datatype Answer = Delivered(message: string, sid: Option<string>) | Failure(exc: ClassName, retryable: bool)

  datatype Conversation = Conversation(calls: Calls, answer: Answer)

  /** The number the event is to be announced to. */
  ghost function AddressOf(s: Store, row: Event): string {
    if row.phone in s.phones then s.phones[row.phone].number else ""
  }

  ghost function Heard(reply: SendReply, message: string): Answer {
    match reply
    case Accepted(sid) => Delivered(message, sid)
    case SendError(exc) => Failure(exc, false)
  }

  /** Weather for the ZIP code of the row first. Then a demo event goes to the demo sender, which
      accepts when none is given, and a real one to the message sender, without which it fails. */
  ghost function Converse(s: Store, id: int, weather: WeatherProvider, senders: Senders): Conversation
    requires id in s.events
  {
    var row, number := s.events[id].row, |s.events[id].attempts| + 1;
    match weather(Query(row.zip, id, number))
    case WeatherError(exc, retryable) => Conversation(Calls([], []), Failure(exc, retryable))
    case Weather(message) =>
      var request := Send(id, number, row.channel, AddressOf(s, row), message);
      if row.isDemo then
        var reply := if senders.demo.Some? then senders.demo.value(request) else Accepted(None);
        Conversation(Calls([], [request]), Heard(reply, message))
      else if senders.message.Some? then
        Conversation(Calls([request], []), Heard(senders.message.value(request), message))
      else Conversation(Calls([], []), Failure("MessageSenderNotConfigured", false))
  }

  /** `x` with one more attempt, and with this status and completion time. The first attempt starts
      the event. */
  ghost function Attempted(x: Entry, now: int, status: EventStatus, completedAt: Option<int>, a: Attempt): Entry {
    var row := if x.row.status == Scheduled then x.row.(startedAt := Some(now)) else x.row;
    Entry(row.(status := status, completedAt := completedAt), x.attempts + [a.(number := |x.attempts| + 1)])
  }

  ghost function Unfinished(): Attempt {
    Attempt(0, AttemptProcessing, NoCode, None, "", None, Callbacks(None, None, None, "", None, None, None))
  }

  ghost function Broken(code: ErrorCode, at: int): Attempt {
    Unfinished().(status := AttemptFailed, error := code, completedAt := Some(at))
  }

  ghost function Underway(x: Entry, now: int): Entry {
    Attempted(x, now, Processing, None, Unfinished())
  }

  ghost function Missed(x: Entry, now: int): Entry {
    Attempted(x, now, Failed, Some(now), Broken(Plain("MissedDeliveryWindow"), now))
  }

  ghost function Waiting(x: Entry, now: int, exc: ClassName, at: int): Entry {
    Attempted(x, now, Processing, None, Broken(QueueRetryable(exc), at))
  }

  ghost function FailedFor(x: Entry, now: int, code: ErrorCode, at: int): Entry {
    Attempted(x, now, Failed, Some(at), Broken(code, at))
  }

  ghost function Succeeded(x: Entry, now: int, message: string, sid: Option<string>, at: int): Entry {
    Attempted(x, now, if x.row.isDemo then Suppressed else Submitted, Some(at),
              Unfinished().(status := if x.row.isDemo then AttemptSuppressed else AttemptSubmitted,
                            sid := sid, message := message, completedAt := Some(at)))
  }

  /** Some attempt holds this provider SID. */
  ghost predicate SidHeld(s: Store, sid: Option<string>) {
    sid.Some? && exists e, k ::
      e in s.events && 0 <= k < |s.events[e].attempts| && s.events[e].attempts[k].sid == sid
  }

  ghost function Put(s: Store, id: int, x: Entry): Store {
    s.(events := s.events[id := x])
  }

  /** The event waits for a retry: it is in processing and its last attempt failed retryably. */
  ghost predicate AwaitsRetry(x: Entry) {
    && x.row.status == Processing && x.attempts != []
    && x.attempts[|x.attempts| - 1].status == AttemptFailed
    && x.attempts[|x.attempts| - 1].error.QueueRetryable?
  }

  ghost predicate GaveUp(x: Entry) {
    && x.row.status == Failed && x.attempts != []
    && x.attempts[|x.attempts| - 1].error.RetryExhausted?
  }

  /** The event is pending, its time has come and it is let through. */
  ghost predicate MayStart(x: Entry, now: int, allowReal: bool) {
    x.row.status == Scheduled && x.row.scheduledFor <= now && (x.row.isDemo || allowReal)
  }

  /** The table of a queued message. */
  ghost function QueuedTable(s: Store, id: int, receiveCount: int, gate: Gate, weather: WeatherProvider,
                             senders: Senders, clock: Clock): QueueRun {
    if receiveCount < 1 || gate.maxReceives < 1 || gate.grace < 0 then QueueRun(s, Calls([], []), Raised(ValueError))
    else if id !in s.events then QueueRun(s, Calls([], []), Ok(Acknowledge))
    else
      var x := s.events[id];
      if AwaitsRetry(x) then QueuedAttempt(s, id, receiveCount, gate, weather, senders, clock)
      else if x.row.status == Processing || GaveUp(x) then QueueRun(s, Calls([], []), Ok(Retry))
      else if !MayStart(x, clock.now, gate.allowReal) then QueueRun(s, Calls([], []), Ok(Acknowledge))
      else if x.row.scheduledFor + gate.grace < clock.now then
        QueueRun(Put(s, id, Missed(x, clock.now)), Calls([], []), Ok(Acknowledge))
      else QueuedAttempt(s, id, receiveCount, gate, weather, senders, clock)
  }

  /** The lines of the table on which the event is attempted. */
  ghost function QueuedAttempt(s: Store, id: int, receiveCount: int, gate: Gate, weather: WeatherProvider,
                               senders: Senders, clock: Clock): QueueRun
    requires id in s.events
  {
    var x, talk := s.events[id], Converse(s, id, weather, senders);
    match talk.answer
    case Delivered(message, sid) =>
      if SidHeld(s, sid) then QueueRun(Put(s, id, Underway(x, clock.now)), talk.calls, Raised(IntegrityError))
      else QueueRun(Put(s, id, Succeeded(x, clock.now, message, sid, clock.later)), talk.calls, Ok(Acknowledge))
    case Failure(exc, true) =>
      if receiveCount < gate.maxReceives then
        QueueRun(Put(s, id, Waiting(x, clock.now, exc, clock.later)), talk.calls, Ok(Retry))
      else
        QueueRun(Put(s, id, FailedFor(x, clock.now, RetryExhausted(exc), clock.later)), talk.calls, Ok(Retry))
    case Failure(exc, false) =>
      QueueRun(Put(s, id, FailedFor(x, clock.now, Plain(exc), clock.later)), talk.calls, Ok(Acknowledge))
  }

  // ----- claims

  lemma EntriesOfClaims(x: Entry, now: int)
    requires Coupled(x)
    ensures x.row.status == Scheduled ==> ClaimedEntry(x, now) == Underway(x, now)
    ensures x.row.status == Scheduled ==> MissedEntry(x, now) == Missed(x, now)
    ensures AwaitsRetry(x) ==> x.(attempts := Opened(x.attempts)) == Underway(x, now)
    ensures AwaitsRetry(x) <==> Resumable(x)
  {
  }

  /** The claim on the new attempt of event `id` of `s`. */
  ghost predicate IsClaim(s: Store, id: int, now: int, c: Claim) {
    && id in s.events
    && c == Claim(id, |s.events[id].attempts|, |s.events[id].attempts| + 1, Underway(s.events[id], now).row,
                  AddressOf(s, s.events[id].row))
  }

  /** The claim of a queued message on the rows: when it is granted, when the event is missed, and
      when it is left to a retry. */
  lemma QueuedClaimOnRows(s: Store, id: int, now: int, grace: nat, allowReal: bool)
    requires StoreOk(s) && id in s.events
    ensures var q := ClaimQueued(s, id, now, grace, allowReal);
            var x := s.events[id];
            if AwaitsRetry(x) || (MayStart(x, now, allowReal) && now <= x.row.scheduledFor + grace) then
              && q.Ok? && q.value.decision.Granted? && IsClaim(s, id, now, q.value.decision.claim)
              && q.value.store == Put(s, id, Underway(x, now))
            else if MayStart(x, now, allowReal) then
              q == Ok(QueuedResult(Put(s, id, Missed(x, now)), Decided(Acknowledge)))
            else
              q == Ok(QueuedResult(s, Decided(if x.row.status == Processing || GaveUp(x) then Retry else Acknowledge)))
  {
    LatestIsLast(s.events[id].attempts);
    EntriesOfClaims(s.events[id], now);
  }

  /** A direct claim on the rows: granted exactly on a pending event whose time has come, with the
      exact condition of each exception. */
  lemma DirectClaimOnRows(s: Store, id: int, now: int)
    requires StoreOk(s)
    ensures var r := ClaimDirect(s, id, now);
            if id !in s.events then r == Raised(DoesNotExist)
            else
              var row := s.events[id].row;
              match row.status
              case Scheduled =>
                if now < row.scheduledFor then r == Raised(EventNotDue)
                else
                  && r.Ok? && r.value.store == Put(s, id, Underway(s.events[id], now))
                  && r.value.claim.Some? && IsClaim(s, id, now, r.value.claim.value)
              case Processing => r == Raised(ValidationError)
              case Cancelled => r == Raised(ValidationError)
              case _ => r == Ok(DirectResult(s, None))
  {
    if id in s.events {
      EntriesOfClaims(s.events[id], now);
    }
  }

  // ----- the end of a claimed delivery

  /** Event `id` of `s` is claimed in `t`; other events may have moved on. */
  ghost predicate ClaimedIn(s: Store, t: Store, id: int, now: int) {
    && StoreOk(s) && id in s.events && (s.events[id].row.status == Scheduled || AwaitsRetry(s.events[id]))
    && id in t.events && t.events[id] == Underway(s.events[id], now)
  }

  lemma OwnSidIsNone(s: Store, t: Store, id: int, now: int, sid: string)
    requires ClaimedIn(s, t, id, now)
    ensures SidTaken(t, sid, id, |s.events[id].attempts|) <==> SidHeld(t, Some(sid))
  {
    var k := |s.events[id].attempts|;
    if SidTaken(t, sid, id, k) {
      var e :| e in t.events && SidAmong(t.events[e].attempts, sid, if e == id then Some(k) else None);
      var j :| 0 <= j < |t.events[e].attempts| && t.events[e].attempts[j].sid == Some(sid);
    }
    if SidHeld(t, Some(sid)) {
      var e, j :| e in t.events && 0 <= j < |t.events[e].attempts| && t.events[e].attempts[j].sid == Some(sid);
      assert e == id ==> j != k;
      assert SidAmong(t.events[e].attempts, sid, if e == id then Some(k) else None);
    }
  }

  lemma LastReplaced(attempts: seq<Attempt>, a: Attempt, b: Attempt)
    ensures (attempts + [a])[|attempts| := b] == attempts + [b]
  {
  }

  lemma FailureOnRows(s: Store, t: Store, c: Claim, now: int, exc: ClassName, code: ErrorCode, at: int)
    requires ClaimedIn(s, t, c.event, now) && IsClaim(s, c.event, now, c)
    ensures RecordFailure(t, c.event, c.index, code, at)
            == Ok(Put(t, c.event, FailedFor(s.events[c.event], now, code, at)))
    ensures RecordRetryable(t, c.event, c.index, exc, at)
            == Ok(Put(t, c.event, Waiting(s.events[c.event], now, exc, at)))
  {
    var x := s.events[c.event];
    assert Coupled(x);
    var a := Unfinished().(number := |x.attempts| + 1);
    LastReplaced(x.attempts, a, Broken(code, at).(number := |x.attempts| + 1));
    LastReplaced(x.attempts, a, Broken(QueueRetryable(exc), at).(number := |x.attempts| + 1));
  }

  lemma SuccessOnRows(s: Store, t: Store, c: Claim, now: int, message: string, sid: Option<string>, at: int)
    requires ClaimedIn(s, t, c.event, now) && IsClaim(s, c.event, now, c)
    ensures RecordSuccess(t, c.event, c.index, TerminalStatus(c.row), message, sid, at)
            == if SidHeld(t, sid) then Raised(IntegrityError)
               else Ok(Put(t, c.event, Succeeded(s.events[c.event], now, message, sid, at)))
  {
    var x := s.events[c.event];
    assert Coupled(x);
    LastReplaced(x.attempts, Unfinished().(number := |x.attempts| + 1), Last(Succeeded(x, now, message, sid, at)));
    if sid.Some? {
      OwnSidIsNone(s, t, c.event, now, sid.value);
    }
  }

  /** The weather lookup and the sender call of a claim are those of the rows. */
  lemma ConversationOfClaim(s: Store, c: Claim, now: int, weather: WeatherProvider, senders: Senders)
    requires IsClaim(s, c.event, now, c)
    ensures var talk := Converse(s, c.event, weather, senders);
            match weather(LookupFor(c))
            case WeatherError(exc, retryable) => talk == Conversation(NO_CALLS, Failure(exc, retryable))
            case Weather(message) =>
              match SendClaimed(c, senders, message)
              case NoSender => talk == Conversation(NO_CALLS, Failure(NOT_CONFIGURED, false))
              case Called(calls, reply) => talk == Conversation(calls, Heard(reply, message))
  {
  }

  /** How the direct path ends a claim: a success, a failure that is raised again under its own
      name, or a repeated SID that leaves the event in flight. */
  ghost predicate EndsDirectly(s: Store, t: Store, id: int, now: int, at: int, talk: Conversation, x: Execution)
    requires id in s.events
  {
    && x.calls == talk.calls
    && match talk.answer
       case Delivered(message, sid) =>
         if SidHeld(t, sid) then x.store == t && x.result == Raised(IntegrityError)
         else x.store == Put(t, id, Succeeded(s.events[id], now, message, sid, at)) && x.result == Ok(())
       case Failure(exc, _) =>
         && x.store == Put(t, id, FailedFor(s.events[id], now, Plain(exc), at))
         && x.result == Raised(ProviderError(exc))
  }

  lemma ExecutionOnRows(s: Store, t: Store, c: Claim, now: int, weather: WeatherProvider, senders: Senders, at: int)
    requires ClaimedIn(s, t, c.event, now) && IsClaim(s, c.event, now, c)
    ensures EndsDirectly(s, t, c.event, now, at, Converse(s, c.event, weather, senders),
                         Execute(t, c, weather, senders, at))
  {
    ConversationOfClaim(s, c, now, weather, senders);
    match weather(LookupFor(c))
    case WeatherError(exc, _) => FailureOnRows(s, t, c, now, exc, Plain(exc), at);
    case Weather(message) =>
      match SendClaimed(c, senders, message)
      case NoSender => FailureOnRows(s, t, c, now, NOT_CONFIGURED, Plain(NOT_CONFIGURED), at);
      case Called(_, SendError(exc)) => FailureOnRows(s, t, c, now, exc, Plain(exc), at);
      case Called(_, Accepted(sid)) => SuccessOnRows(s, t, c, now, message, sid, at);
  }

  /** A direct delivery that is granted its claim returns exactly when its event ends submitted or
      suppressed; otherwise it raises the error of the provider under its name, or an integrity error
      that leaves the event in flight. */
  lemma DirectDeliveryOnRows(s: Store, id: int, weather: WeatherProvider, senders: Senders, clock: Clock)
    requires StoreOk(s) && id in s.events
    requires s.events[id].row.status == Scheduled && s.events[id].row.scheduledFor <= clock.now
    ensures var d := ClaimDirect(s, id, clock.now);
            && d.Ok? && d.value.claim.Some?
            && var x := Execute(d.value.store, d.value.claim.value, weather, senders, clock.later);
               && EndsDirectly(s, d.value.store, id, clock.now, clock.later, Converse(s, id, weather, senders), x)
               && id in x.store.events
               && (x.result.Ok? <==> x.store.events[id].row.status in {Submitted, Suppressed})
               && (x.result == Raised(IntegrityError) <==> x.store.events[id].row.status == Processing)
               && (forall exc :: x.result == Raised(ProviderError(exc)) <==>
                     x.store.events[id] == FailedFor(s.events[id], clock.now, Plain(exc), clock.later))
  {
    DirectClaimOnRows(s, id, clock.now);
    var d := ClaimDirect(s, id, clock.now).value;
    ExecutionOnRows(s, d.store, d.claim.value, clock.now, weather, senders, clock.later);
    var x := s.events[id];
    forall exc, other
      ensures FailedFor(x, clock.now, Plain(exc), clock.later) == FailedFor(x, clock.now, Plain(other), clock.later)
              ==> exc == other
    {
      var a, b := FailedFor(x, clock.now, Plain(exc), clock.later), FailedFor(x, clock.now, Plain(other), clock.later);
      assert a.attempts[|x.attempts|].error == Plain(exc) && b.attempts[|x.attempts|].error == Plain(other);
    }
  }

  // ----- the queued path is the table

  lemma SidsOfClaimed(s: Store, id: int, now: int, sid: Option<string>)
    requires id in s.events
    ensures SidHeld(Put(s, id, Underway(s.events[id], now)), sid) <==> SidHeld(s, sid)
  {
    var t := Put(s, id, Underway(s.events[id], now));
    if SidHeld(t, sid) {
      var e, k :| e in t.events && 0 <= k < |t.events[e].attempts| && t.events[e].attempts[k].sid == sid;
      assert e in s.events && k < |s.events[e].attempts| && s.events[e].attempts[k].sid == sid;
    }
    if SidHeld(s, sid) {
      var e, k :| e in s.events && 0 <= k < |s.events[e].attempts| && s.events[e].attempts[k].sid == sid;
      assert t.events[e].attempts[k].sid == sid;
    }
  }

  lemma PutTwice(s: Store, id: int, x: Entry, y: Entry)
    ensures Put(Put(s, id, x), id, y) == Put(s, id, y)
  {
  }

  /** The store after the claim of event `id`. */
  ghost function AfterClaim(s: Store, id: int, now: int): Store
    requires id in s.events
  {
    Put(s, id, Underway(s.events[id], now))
  }

  lemma QueuedExecutionOnRows(s: Store, c: Claim, receiveCount: int, gate: Gate, weather: WeatherProvider,
                              senders: Senders, clock: Clock)
    requires IsClaim(s, c.event, clock.now, c)
    requires ClaimedIn(s, AfterClaim(s, c.event, clock.now), c.event, clock.now)
    ensures ExecuteQueued(AfterClaim(s, c.event, clock.now), c, receiveCount, gate.maxReceives, weather, senders,
                          clock.later)
            == QueuedAttempt(s, c.event, receiveCount, gate, weather, senders, clock)
  {
    var t, x := AfterClaim(s, c.event, clock.now), s.events[c.event];
    ConversationOfClaim(s, c, clock.now, weather, senders);
    match weather(LookupFor(c))
    case WeatherError(exc, retryable) =>
      var code := if retryable then RetryExhausted(exc) else Plain(exc);
      FailureOnRows(s, t, c, clock.now, exc, code, clock.later);
      PutTwice(s, c.event, t.events[c.event], FailedFor(x, clock.now, code, clock.later));
      PutTwice(s, c.event, t.events[c.event], Waiting(x, clock.now, exc, clock.later));
    case Weather(message) =>
      SendingOnRows(s, c, message, weather, senders, clock);
  }

  lemma SendingOnRows(s: Store, c: Claim, message: string, weather: WeatherProvider, senders: Senders, clock: Clock)
    requires IsClaim(s, c.event, clock.now, c) && weather(LookupFor(c)) == Weather(message)
    requires ClaimedIn(s, AfterClaim(s, c.event, clock.now), c.event, clock.now)
    ensures var q := Acknowledged(AfterWeather(AfterClaim(s, c.event, clock.now), c, message, senders, clock.later));
            var x, talk := s.events[c.event], Converse(s, c.event, weather, senders);
            && q.calls == talk.calls
            && match talk.answer
               case Delivered(m, sid) =>
                 if SidHeld(s, sid) then
                   q.store == AfterClaim(s, c.event, clock.now) && q.result == Raised(IntegrityError)
                 else
                   && q.store == Put(s, c.event, Succeeded(x, clock.now, m, sid, clock.later))
                   && q.result == Ok(Acknowledge)
               case Failure(exc, retryable) =>
                 && !retryable && q.store == Put(s, c.event, FailedFor(x, clock.now, Plain(exc), clock.later))
                 && q.result == Ok(Acknowledge)
  {
    var t, x := AfterClaim(s, c.event, clock.now), s.events[c.event];
    ConversationOfClaim(s, c, clock.now, weather, senders);
    match SendClaimed(c, senders, message)
    case NoSender => FailureOnRows(s, t, c, clock.now, NOT_CONFIGURED, Plain(NOT_CONFIGURED), clock.later);
    case Called(_, SendError(exc)) => FailureOnRows(s, t, c, clock.now, exc, Plain(exc), clock.later);
    case Called(_, Accepted(sid)) =>
      SuccessOnRows(s, t, c, clock.now, message, sid, clock.later);
      SidsOfClaimed(s, c.event, clock.now, sid);
  }

  /** A queued call does what the table says, for every store, message, setting, provider and clock. */
  lemma QueuedCallIsTheTable(s: Store, id: int, receiveCount: int, gate: Gate, weather: WeatherProvider,
                             senders: Senders, clock: Clock)
    requires StoreOk(s)
    ensures ProcessQueued(s, id, receiveCount, gate, weather, senders, clock)
            == QueuedTable(s, id, receiveCount, gate, weather, senders, clock)
  {
    if receiveCount >= 1 && gate.maxReceives >= 1 && gate.grace >= 0 && id in s.events {
      var x := s.events[id];
      QueuedClaimOnRows(s, id, clock.now, gate.grace, gate.allowReal);
      var q := ClaimQueued(s, id, clock.now, gate.grace, gate.allowReal).value;
      if q.decision.Granted? {
        EntriesOfClaims(x, clock.now);
        QueuedExecutionOnRows(s, q.decision.claim, receiveCount, gate, weather, senders, clock);
      }
    }
  }

  // ----- a batch

  /** The store after a batch claimed some events and missed others. */
  ghost function AfterBatch(s: Store, claimed: set<int>, missed: set<int>, now: int): Store {
    s.(events := map e | e in s.events ::
         if e in missed then Missed(s.events[e], now)
         else if e in claimed then Underway(s.events[e], now)
         else s.events[e])
  }

  lemma EntryOfBatch(x: Entry, now: int, grace: int)
    requires Coupled(x) && x.row.status == Scheduled
    ensures TakenEntry(x, now, grace) == if x.row.scheduledFor < now - grace then Missed(x, now) else Underway(x, now)
  {
    EntriesOfClaims(x, now);
  }

  lemma FreshClaimIsClaim(s: Store, id: int, now: int)
    requires StoreOk(s) && id in s.events && s.events[id].row.status == Scheduled
    ensures IsClaim(s, id, now, FreshClaim(s, id, now))
  {
    assert Coupled(s.events[id]);
  }

  lemma ClaimsOfBatch(s: Store, locked: set<int>, now: int, size: int, grace: nat, includeReal: bool, i: nat)
    requires StoreOk(s) && 1 <= size <= MAX_BATCH_SIZE
    requires i < |ClaimBatch(s, locked, now, size, grace, includeReal).value.deliveries|
    ensures var c := ClaimBatch(s, locked, now, size, grace, includeReal).value.deliveries[i];
            IsClaim(s, c.event, now, c)
  {
    var ids := OldestDue(s, locked, now, size, includeReal);
    SelectedIsTakeable(s, locked, now, size, includeReal);
    EachSplits(s, ids, now, grace);
    FreshClaimIsClaim(s, Sifted(s, ids, now, grace, false)[i], now);
  }

  lemma StoreOfBatch(s: Store, locked: set<int>, now: int, size: int, grace: nat, includeReal: bool)
    requires StoreOk(s) && 1 <= size <= MAX_BATCH_SIZE
    ensures var b := ClaimBatch(s, locked, now, size, grace, includeReal).value;
            b.store == AfterBatch(s, Elements(EventsOf(b.deliveries)), Elements(b.missed), now)
  {
    var ids := OldestDue(s, locked, now, size, includeReal);
    BatchSelects(s, locked, now, size, grace, includeReal);
    BatchTakesOldest(s, locked, now, size, grace, includeReal);
    SelectedIsTakeable(s, locked, now, size, includeReal);
    EachEntry(s, ids, now, grace);
    var b := ClaimBatch(s, locked, now, size, grace, includeReal).value;
    TakenIsSelected(s, ids, b, now, grace);
    BatchStore(s, ids, b, now, grace);
  }

  /** A batch on the rows: which rows it may take says `BatchTakesOldest`; every row it takes is
      claimed or missed by its own grace test, every claim is the one of its row, and no other row
      changes. Only a bad size or grace period raises. */
  lemma BatchOnRows(s: Store, locked: set<int>, now: int, size: int, grace: int, includeReal: bool)
    requires StoreOk(s)
    ensures var r := ClaimBatch(s, locked, now, size, grace, includeReal);
            if 1 <= size <= 100 && grace >= 0 then
              && r.Ok?
              && r.value.store == AfterBatch(s, Elements(EventsOf(r.value.deliveries)), Elements(r.value.missed), now)
              && (forall i :: 0 <= i < |r.value.deliveries| ==>
                    IsClaim(s, r.value.deliveries[i].event, now, r.value.deliveries[i]))
              && StoreOk(r.value.store)
            else r == Raised(ValueError)
  {
    if 1 <= size <= MAX_BATCH_SIZE && grace >= 0 {
      StoreOfBatch(s, locked, now, size, grace, includeReal);
      BatchKeeps(s, locked, now, size, grace, includeReal);
      var b := ClaimBatch(s, locked, now, size, grace, includeReal).value;
      forall i | 0 <= i < |b.deliveries| ensures IsClaim(s, b.deliveries[i].event, now, b.deliveries[i]) {
        ClaimsOfBatch(s, locked, now, size, grace, includeReal, i);
      }
    }
  }

  lemma BatchStore(s: Store, ids: seq<int>, b: Batch, now: int, grace: int)
    requires StoreOk(s) && Takeable(s, ids) && TakenBy(b) == Elements(ids)
    requires forall e :: e in TakenBy(b) ==>
               e in s.events && (e in b.missed <==> s.events[e].row.scheduledFor < now - grace)
    requires b.store.events.Keys == s.events.Keys && b.store.phones == s.phones && b.store.sms == s.sms
    requires forall e :: e in s.events ==>
               b.store.events[e] == if e in ids then TakenEntry(s.events[e], now, grace) else s.events[e]
    ensures b.store == AfterBatch(s, Elements(EventsOf(b.deliveries)), Elements(b.missed), now)
  {
    var claimed, missed := Elements(EventsOf(b.deliveries)), Elements(b.missed);
    var t := AfterBatch(s, claimed, missed, now);
    DeliveredIds(b);
    forall e | e in s.events ensures b.store.events[e] == t.events[e] {
      assert e in ids <==> e in Elements(ids);
      if e in ids {
        assert e in TakenBy(b);
        EntryOfBatch(s.events[e], now, grace);
      }
    }
    assert b.store.events == t.events;
  }

  lemma DeliveredIds(b: Batch)
    ensures TakenBy(b) == Elements(EventsOf(b.deliveries)) + Elements(b.missed)
  {
    var ids := EventsOf(b.deliveries);
    forall e ensures e in Elements(ids) <==> e in set c | c in b.deliveries :: c.event {
      if e in Elements(ids) {
        var i :| 0 <= i < |ids| && ids[i] == e;
        assert b.deliveries[i] in b.deliveries;
      }
      if c: Claim :| c in b.deliveries && c.event == e {
        var i :| 0 <= i < |b.deliveries| && b.deliveries[i] == c;
        assert ids[i] == e;
      }
    }
  }
}
