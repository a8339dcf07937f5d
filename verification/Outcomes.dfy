/** What the result of `process_queued_delivery` tells the queue about the event. */
module Outcomes {
  import opened Records
  import opened Tables
  import opened Ordering
  import opened Claims
  import opened Delivery
  import opened Coupling

  /** The message must be kept: a delivery is not over, or it gave up on the provider and
      the message belongs in the dead-letter queue. */
  ghost predicate Unsettled(x: Entry) {
    || x.row.status == Processing
    || (x.row.status == Failed && x.attempts != [] && Last(x).error.RetryExhausted?)
  }

  predicate BadArguments(receiveCount: int, gate: Gate) {
    receiveCount < 1 || gate.maxReceives < 1 || gate.grace < 0
  }

  /** The claim a call is granted, and the store the claim leaves. */
  function GrantOf(s: Store, id: int, gate: Gate, now: int): Option<(Store, Claim)> {
    match ClaimQueued(s, id, now, gate.grace, gate.allowReal)
    case Ok(QueuedResult(t, Granted(c))) => Some((t, c))
    case _ => None
  }

  /** The provider accepted the message under a SID that another attempt already has. */
  ghost predicate SidClash(t: Store, c: Claim, weather: WeatherProvider, senders: Senders) {
    && weather(LookupFor(c)).Weather?
    && var sending := SendClaimed(c, senders, weather(LookupFor(c)).message);
       && sending.Called? && sending.reply.Accepted? && sending.reply.sid.Some?
       && SidTaken(t, sending.reply.sid.value, c.event, c.index)
  }

  /** How one execution ends, read off the entry it leaves. */
  ghost predicate EndsAs(t: Store, id: int, q: QueueRun) {
    && q.result.Ok? && StoreOk(q.store)
    && id in q.store.events && q.store == WithEntry(t, id, q.store.events[id])
    && (q.result.value == Retry <==> Unsettled(q.store.events[id]))
    && (q.result.value == Acknowledge ==> Delivered(q.store.events[id]))
  }

  lemma ExecutionOutcome(t: Store, c: Claim, receiveCount: int, gate: Gate, weather: WeatherProvider, senders: Senders,
                         at: int)
    requires StoreOk(t) && c.event in t.events && Holds(t.events[c.event], c)
    ensures var q := ExecuteQueued(t, c, receiveCount, gate.maxReceives, weather, senders, at);
            if SidClash(t, c, weather, senders) then
              q.result == Raised(IntegrityError) && q.store == t && |q.calls.message| + |q.calls.demo| == 1
            else EndsAs(t, c.event, q)
  {
    match weather(LookupFor(c))
    case WeatherError(exc, retryable) =>
      var code := if retryable then RetryExhausted(exc) else Plain(exc);
      RecordExactlyWhen(t, c.event, c.index, AttemptFailed, "", None, exc, code, at);
      RecordFailureStep(t, c.event, c.index, code, at);
      RecordRetryableStep(t, c.event, c.index, exc, at);
    case Weather(message) =>
      SendingOutcome(t, c, message, senders, at);
  }

  lemma SendingOutcome(t: Store, c: Claim, message: string, senders: Senders, at: int)
    requires StoreOk(t) && c.event in t.events && Holds(t.events[c.event], c)
    ensures var q := Acknowledged(AfterWeather(t, c, message, senders, at));
            if SidClash(t, c, _ => Weather(message), senders) then
              q.result == Raised(IntegrityError) && q.store == t && |q.calls.message| + |q.calls.demo| == 1
            else EndsAs(t, c.event, q) && q.result == Ok(Acknowledge)
  {
    var sending := SendClaimed(c, senders, message);
    if sending.NoSender? {
      RecordExactlyWhen(t, c.event, c.index, AttemptFailed, "", None, NOT_CONFIGURED, Plain(NOT_CONFIGURED), at);
      RecordFailureStep(t, c.event, c.index, Plain(NOT_CONFIGURED), at);
    } else if sending.reply.SendError? {
      RecordExactlyWhen(t, c.event, c.index, AttemptFailed, "", None, "Error", Plain(sending.reply.exc), at);
      RecordFailureStep(t, c.event, c.index, Plain(sending.reply.exc), at);
    } else {
      RecordExactlyWhen(t, c.event, c.index, TerminalStatus(c.row), message, sending.reply.sid, "Error", NoCode, at);
      if !SidClash(t, c, _ => Weather(message), senders) {
        RecordSuccessStep(t, c.event, c.index, TerminalStatus(c.row), message, sending.reply.sid, at);
      }
    }
  }

  /** When a call raises: for bad arguments, or because the provider repeated a SID. In the
      second case the message was sent, and the event stays claimed for good. */
  lemma RaisesExactlyWhen(s: Store, id: int, receiveCount: int, gate: Gate, weather: WeatherProvider, senders: Senders,
                          clock: Clock)
    requires StoreOk(s)
    ensures var q := ProcessQueued(s, id, receiveCount, gate, weather, senders, clock);
            var grant := GrantOf(s, id, gate, clock.now);
            && (q.result.Raised? <==>
                  || BadArguments(receiveCount, gate)
                  || (grant.Some? && SidClash(grant.value.0, grant.value.1, weather, senders)))
            && (q.result.Raised? && BadArguments(receiveCount, gate) ==>
                  q.result.error == ValueError && q.store == s && q.calls == NO_CALLS)
            && (q.result.Raised? && !BadArguments(receiveCount, gate) ==>
                  && q.result.error == IntegrityError && |q.calls.message| + |q.calls.demo| == 1
                  && q.store == grant.value.0 && id in q.store.events && InFlight(q.store.events[id]))
  {
    var grant := GrantOf(s, id, gate, clock.now);
    if !BadArguments(receiveCount, gate) {
      ClaimQueuedStep(s, id, clock.now, gate.grace, gate.allowReal);
      if grant.Some? {
        ExecutionOutcome(grant.value.0, grant.value.1, receiveCount, gate, weather, senders, clock.later);
      }
    }
  }

  /** What an action says about the event. */
  ghost predicate ActionTells(s: Store, id: int, gate: Gate, now: int, q: QueueRun) {
    && q.result.Ok? && StoreOk(q.store)
    && (id !in s.events ==> q.store == s && q.result == Ok(Acknowledge))
    && (id in s.events ==>
          && id in q.store.events && q.store == WithEntry(s, id, q.store.events[id])
          && var y := q.store.events[id];
             && (q.result.value == Retry <==> Unsettled(y))
             && (y.row.status == Scheduled ==> y == s.events[id] && !Due(y.row, now, gate.allowReal)))
  }

  lemma DecidedTells(s: Store, id: int, gate: Gate, now: int, t: Store, action: Action)
    requires StoreOk(s)
    requires ClaimQueued(s, id, now, gate.grace, gate.allowReal) == Ok(QueuedResult(t, Decided(action)))
    ensures ActionTells(s, id, gate, now, QueueRun(t, NO_CALLS, Ok(action)))
  {
    ClaimQueuedStep(s, id, now, gate.grace, gate.allowReal);
    if id in s.events {
      LatestIsLast(s.events[id].attempts);
      assert s == WithEntry(s, id, s.events[id]);
    }
  }

  lemma ExecutedTells(s: Store, t: Store, c: Claim, gate: Gate, now: int, q: QueueRun)
    requires c.event in s.events && c.event in t.events && t == WithEntry(s, c.event, t.events[c.event])
    requires EndsAs(t, c.event, q)
    ensures ActionTells(s, c.event, gate, now, q)
  {
    assert WithEntry(t, c.event, q.store.events[c.event]) == WithEntry(s, c.event, q.store.events[c.event]);
  }

  /** A call that returns asks to keep the message exactly when it leaves the event in
      processing or given up on. It acknowledges for an event that is absent, over, or still
      pending and not yet due or not let through; other events are never touched. */
  lemma ActionTellsTheEvent(s: Store, id: int, receiveCount: int, gate: Gate, weather: WeatherProvider,
                            senders: Senders, clock: Clock)
    requires StoreOk(s)
    requires ProcessQueued(s, id, receiveCount, gate, weather, senders, clock).result.Ok?
    ensures ActionTells(s, id, gate, clock.now, ProcessQueued(s, id, receiveCount, gate, weather, senders, clock))
  {
    var grant := GrantOf(s, id, gate, clock.now);
    var q := ProcessQueued(s, id, receiveCount, gate, weather, senders, clock);
    if grant.Some? {
      ClaimQueuedStep(s, id, clock.now, gate.grace, gate.allowReal);
      ExecutionOutcome(grant.value.0, grant.value.1, receiveCount, gate, weather, senders, clock.later);
      ExecutedTells(s, grant.value.0, grant.value.1, gate, clock.now, q);
    } else {
      DecidedTells(s, id, gate, clock.now, q.store, q.result.value);
    }
  }

  /** A call that is not raised for bad arguments and finds its event pending and due takes it
      out of `scheduled`. */
  lemma DueIsTaken(s: Store, id: int, receiveCount: int, gate: Gate, weather: WeatherProvider, senders: Senders,
                   clock: Clock)
    requires StoreOk(s) && !BadArguments(receiveCount, gate)
    requires id in s.events && s.events[id].row.status == Scheduled && Due(s.events[id].row, clock.now, gate.allowReal)
    ensures var t := ProcessQueued(s, id, receiveCount, gate, weather, senders, clock).store;
            id in t.events && t.events[id].row.status != Scheduled
  {
    RaisesExactlyWhen(s, id, receiveCount, gate, weather, senders, clock);
    if ProcessQueued(s, id, receiveCount, gate, weather, senders, clock).result.Ok? {
      ActionTellsTheEvent(s, id, receiveCount, gate, weather, senders, clock);
    }
  }

  lemma SettledStays(t: Store, id: int, receiveCount: int, gate: Gate, weather: WeatherProvider, senders: Senders,
                     clock: Clock)
    requires StoreOk(t) && !BadArguments(receiveCount, gate)
    requires id in t.events ==>
               !Unsettled(t.events[id])
               && (t.events[id].row.status == Scheduled ==> !Due(t.events[id].row, clock.now, gate.allowReal))
    ensures ProcessQueued(t, id, receiveCount, gate, weather, senders, clock) == QueueRun(t, NO_CALLS, Ok(Acknowledge))
  {
    if id in t.events {
      LatestIsLast(t.events[id].attempts);
    }
  }

  /** Redelivering an acknowledged message, at any later time and with any settings and providers,
      changes nothing, sends nothing and is acknowledged again exactly unless the event was left
      pending and is due and let through by then. */
  lemma AcknowledgedIsFinal(s: Store, id: int, receiveCount: int, gate: Gate, weather: WeatherProvider,
                            senders: Senders, clock: Clock, again: int, gate2: Gate, weather2: WeatherProvider,
                            senders2: Senders, clock2: Clock)
    requires StoreOk(s) && !BadArguments(again, gate2)
    requires ProcessQueued(s, id, receiveCount, gate, weather, senders, clock).result == Ok(Acknowledge)
    ensures var t := ProcessQueued(s, id, receiveCount, gate, weather, senders, clock).store;
            ProcessQueued(t, id, again, gate2, weather2, senders2, clock2) == QueueRun(t, NO_CALLS, Ok(Acknowledge))
            <==> !(id in t.events && t.events[id].row.status == Scheduled
                   && Due(t.events[id].row, clock2.now, gate2.allowReal))
  {
    var t := ProcessQueued(s, id, receiveCount, gate, weather, senders, clock).store;
    ActionTellsTheEvent(s, id, receiveCount, gate, weather, senders, clock);
    if id in t.events && t.events[id].row.status == Scheduled && Due(t.events[id].row, clock2.now, gate2.allowReal) {
      DueIsTaken(t, id, again, gate2, weather2, senders2, clock2);
    } else {
      SettledStays(t, id, again, gate2, weather2, senders2, clock2);
    }
  }

  /** An event that is over stays as it is, whatever the message, the settings, the clock and
      the providers of a later call. */
  lemma OverStaysOver(s: Store, id: int, receiveCount: int, gate: Gate, weather: WeatherProvider, senders: Senders,
                      clock: Clock)
    requires StoreOk(s) && id in s.events && (Delivered(s.events[id]) || s.events[id].row.status == Cancelled)
    ensures var q := ProcessQueued(s, id, receiveCount, gate, weather, senders, clock);
            && q.store == s && q.calls == NO_CALLS
            && (!BadArguments(receiveCount, gate) ==>
                  q.result == Ok(if Unsettled(s.events[id]) then Retry else Acknowledge))
  {
    LatestIsLast(s.events[id].attempts);
  }

  /** The one request of an execution that sends. */
  function TheRequest(calls: Calls): Option<Send> {
    if calls.demo != [] then Some(calls.demo[0]) else if calls.message != [] then Some(calls.message[0]) else None
  }

  /** The request is the one for this claim, and a demo claim's goes to the demo sender. */
  ghost predicate SendsOnlyFor(calls: Calls, c: Claim, weather: WeatherProvider) {
    && |calls.message| + |calls.demo| <= 1
    && (calls != NO_CALLS ==>
          && weather(LookupFor(c)).Weather?
          && TheRequest(calls) == Some(RequestFor(c, weather(LookupFor(c)).message))
          && (calls.demo != [] <==> c.row.isDemo))
  }

  lemma ExecutionSends(t: Store, c: Claim, receiveCount: int, gate: Gate, weather: WeatherProvider, senders: Senders,
                       at: int)
    ensures SendsOnlyFor(ExecuteQueued(t, c, receiveCount, gate.maxReceives, weather, senders, at).calls, c, weather)
  {
  }

  /** One call sends at most once, only for a claim it was granted, to the authoritative
      address, and a demo event never reaches the message sender. */
  lemma SendsForItsClaimOnly(s: Store, id: int, receiveCount: int, gate: Gate, weather: WeatherProvider,
                             senders: Senders, clock: Clock)
    requires StoreOk(s)
    ensures var q := ProcessQueued(s, id, receiveCount, gate, weather, senders, clock);
            && |q.calls.message| + |q.calls.demo| <= 1
            && (TheRequest(q.calls).Some? ==>
                  && id in s.events && GrantOf(s, id, gate, clock.now).Some?
                  && var r, x := TheRequest(q.calls).value, s.events[id];
                     && r.event == id && r.number == |x.attempts| + 1 && r.channel == x.row.channel
                     && (x.row.phone in s.phones ==> r.to == s.phones[x.row.phone].number)
                     && weather(Query(x.row.zip, id, r.number)) == Weather(r.message)
                     && (q.calls.demo != [] <==> x.row.isDemo))
  {
    var grant := GrantOf(s, id, gate, clock.now);
    if !BadArguments(receiveCount, gate) && grant.Some? {
      ClaimQueuedStep(s, id, clock.now, gate.grace, gate.allowReal);
      ExecutionSends(grant.value.0, grant.value.1, receiveCount, gate, weather, senders, clock.later);
    }
  }

  // ----- the retry budget of one message

  /** A message received again and again, with receive counts 1, 2, ..., n. */
  function ReceivedTimes(s: Store, id: int, n: nat, gate: Gate, weather: WeatherProvider, senders: Senders,
                         clock: Clock): QueueRun {
    if n == 0 then QueueRun(s, NO_CALLS, Ok(Retry))
    else
      var before := ReceivedTimes(s, id, n - 1, gate, weather, senders, clock);
      var q := ProcessQueued(before.store, id, n, gate, weather, senders, clock);
      QueueRun(q.store, Joined(before.calls, q.calls), q.result)
  }

  ghost predicate AlwaysRetryable(weather: WeatherProvider) {
    forall q :: weather(q).WeatherError? && weather(q).retryable
  }

  /** One call for an event whose weather is not to be had: a retryable failure while the
      message may come again, and the last failure when it may not. */
  lemma RetryableCall(s: Store, id: int, receiveCount: nat, gate: Gate, weather: WeatherProvider, senders: Senders,
                      clock: Clock)
    requires StoreOk(s) && AlwaysRetryable(weather) && !BadArguments(receiveCount, gate)
    requires GrantOf(s, id, gate, clock.now).Some?
    ensures var q := ProcessQueued(s, id, receiveCount, gate, weather, senders, clock);
            && q.calls == NO_CALLS && q.result == Ok(Retry) && StoreOk(q.store)
            && id in s.events && id in q.store.events
            && var y := q.store.events[id];
               && |y.attempts| == |s.events[id].attempts| + 1
               && if receiveCount < gate.maxReceives then Resumable(y)
                  else y.row.status == Failed && Last(y).error.RetryExhausted?
  {
    ClaimQueuedStep(s, id, clock.now, gate.grace, gate.allowReal);
    var grant := GrantOf(s, id, gate, clock.now).value;
    var exc := weather(LookupFor(grant.1)).exc;
    RecordExactlyWhen(grant.0, id, grant.1.index, AttemptFailed, "", None, exc, RetryExhausted(exc), clock.later);
    RecordFailureStep(grant.0, id, grant.1.index, RetryExhausted(exc), clock.later);
    RecordRetryableStep(grant.0, id, grant.1.index, exc, clock.later);
  }

  /** The entry of a due event after `n` receives without weather. */
  ghost predicate SpentTo(t: Store, id: int, n: nat, maxReceives: int) {
    && StoreOk(t) && id in t.events
    && var y := t.events[id];
       && |y.attempts| == (if n < maxReceives then n else maxReceives)
       && if n < maxReceives then Resumable(y) else y.row.status == Failed && Last(y).error.RetryExhausted?
  }

  lemma OneReceiveMore(t: Store, id: int, n: nat, gate: Gate, weather: WeatherProvider, senders: Senders, clock: Clock)
    requires SpentTo(t, id, n, gate.maxReceives) && AlwaysRetryable(weather) && !BadArguments(n + 1, gate)
    ensures var q := ProcessQueued(t, id, n + 1, gate, weather, senders, clock);
            q.calls == NO_CALLS && q.result == Ok(Retry) && SpentTo(q.store, id, n + 1, gate.maxReceives)
  {
    if n < gate.maxReceives {
      GrantedExactlyWhen(t, id, clock.now, gate.grace, gate.allowReal);
      RetryableCall(t, id, n + 1, gate, weather, senders, clock);
    } else {
      OverStaysOver(t, id, n + 1, gate, weather, senders, clock);
    }
  }

  /** When the weather never comes, a due event is attempted once per receive until the
      message has been received as often as allowed; then it has failed for good. Later
      receives change nothing, and nothing is ever sent. */
  lemma {:induction false} BudgetIsSpent(s: Store, id: int, n: nat, gate: Gate, weather: WeatherProvider,
                                         senders: Senders, clock: Clock)
    requires StoreOk(s) && id in s.events && s.events[id].row.status == Scheduled
    requires AlwaysRetryable(weather) && !BadArguments(n, gate)
    requires GrantOf(s, id, gate, clock.now).Some?
    ensures var q := ReceivedTimes(s, id, n, gate, weather, senders, clock);
            q.calls == NO_CALLS && q.result == Ok(Retry) && SpentTo(q.store, id, n, gate.maxReceives)
  {
    if n == 1 {
      RetryableCall(s, id, 1, gate, weather, senders, clock);
      assert ReceivedTimes(s, id, 0, gate, weather, senders, clock).store == s;
    } else {
      BudgetIsSpent(s, id, n - 1, gate, weather, senders, clock);
      OneReceiveMore(ReceivedTimes(s, id, n - 1, gate, weather, senders, clock).store, id, n - 1, gate, weather,
                     senders, clock);
    }
  }
}
