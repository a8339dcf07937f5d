/** Executing a claimed delivery: weather, announcement, sender, and the record of the result.

    The provider calls happen outside every transaction. Their replies are parameters: a
    weather reply for a ZIP code and attempt, a sender reply for a request. */
module Delivery {
  import opened Records
  import opened Tables
  import opened Claims
  import opened Ordering

  /** A weather lookup made for one attempt. The reply to a success is the announcement
      rendered from the weather. */
  datatype Query = Query(zip: string, event: int, number: nat)

  datatype WeatherReply = Weather(message: string) | WeatherError(exc: ClassName, retryable: bool)

  /** One call of `send`, tagged with the attempt it is made for. */
  datatype Send = Send(event: int, number: nat, channel: Channel, to: string, message: string)

  datatype SendReply = Accepted(sid: Option<string>) | SendError(exc: ClassName)

  type WeatherProvider = Query -> WeatherReply

  type SenderReplies = Send -> SendReply

  /** `message_sender` and `demo_sender`; either may be missing. */
  datatype Senders = Senders(message: Option<SenderReplies>, demo: Option<SenderReplies>)

  const NOT_CONFIGURED: ClassName := "MessageSenderNotConfigured"

  // ----- specification

  /** What the calls to the senders leave: the requests each of them received. */
  datatype Calls = Calls(message: seq<Send>, demo: seq<Send>)

  const NO_CALLS := Calls([], [])

  datatype Execution = Execution(store: Store, calls: Calls, result: Outcome<()>)

  function LookupFor(c: Claim): Query {
    Query(c.row.zip, c.event, c.number)
  }

  function RequestFor(c: Claim, message: string): Send {
    Send(c.event, c.number, c.row.channel, c.to, message)
  }

  /** `_select_sender` and the call of `send`. */
  datatype Sending = NoSender | Called(calls: Calls, reply: SendReply)

  function SendClaimed(c: Claim, senders: Senders, message: string): Sending {
    var request := RequestFor(c, message);
    if c.row.isDemo then
      Called(Calls([], [request]), if senders.demo.Some? then senders.demo.value(request) else Accepted(None))
    else if senders.message.Some? then
      Called(Calls([request], []), senders.message.value(request))
    else NoSender
  }

  function TerminalStatus(row: Event): AttemptStatus {
    if row.isDemo then AttemptSuppressed else AttemptSubmitted
  }

  /** `_record_failure` in an exception handler: a second exception replaces the first. */
  function FailWith(s: Store, c: Claim, code: ErrorCode, exc: ClassName, calls: Calls, at: int): Execution {
    var r := RecordFailure(s, c.event, c.index, code, at);
    if r.Ok? then Execution(r.value, calls, Raised(ProviderError(exc)))
    else Execution(s, calls, Raised(r.error))
  }

  function SucceedWith(s: Store, c: Claim, message: string, sid: Option<string>, calls: Calls, at: int): Execution {
    var r := RecordSuccess(s, c.event, c.index, TerminalStatus(c.row), message, sid, at);
    if r.Ok? then Execution(r.value, calls, Ok(())) else Execution(s, calls, Raised(r.error))
  }

  function AfterWeather(s: Store, c: Claim, message: string, senders: Senders, at: int): Execution {
    match SendClaimed(c, senders, message)
    case NoSender => FailWith(s, c, Plain(NOT_CONFIGURED), NOT_CONFIGURED, NO_CALLS, at)
    case Called(calls, SendError(exc)) => FailWith(s, c, Plain(exc), exc, calls, at)
    case Called(calls, Accepted(sid)) => SucceedWith(s, c, message, sid, calls, at)
  }

  /** `_execute_claimed_delivery`: the direct path, where every failure is final. */
  function Execute(s: Store, c: Claim, weather: WeatherProvider, senders: Senders, at: int): Execution {
    match weather(LookupFor(c))
    case WeatherError(exc, _) => FailWith(s, c, Plain(exc), exc, NO_CALLS, at)
    case Weather(message) => AfterWeather(s, c, message, senders, at)
  }

  datatype QueueRun = QueueRun(store: Store, calls: Calls, result: Outcome<Action>)

  /** How the queued path reports an execution: a provider's exception is swallowed once it
      is on record, any other one escapes. */
  function Acknowledged(x: Execution): QueueRun {
    if x.result.Ok? || x.result.error.ProviderError? then QueueRun(x.store, x.calls, Ok(Acknowledge))
    else QueueRun(x.store, x.calls, Raised(x.result.error))
  }

  /** `process_queued_delivery` after the claim. */
  function ExecuteQueued(s: Store, c: Claim, receiveCount: int, maxReceives: int,
                         weather: WeatherProvider, senders: Senders, at: int): QueueRun
  {
    match weather(LookupFor(c))
    case WeatherError(exc, true) =>
      var r := if receiveCount < maxReceives then RecordRetryable(s, c.event, c.index, exc, at)
               else RecordFailure(s, c.event, c.index, RetryExhausted(exc), at);
      if r.Ok? then QueueRun(r.value, NO_CALLS, Ok(Retry)) else QueueRun(s, NO_CALLS, Raised(r.error))
    case WeatherError(exc, false) => Acknowledged(FailWith(s, c, Plain(exc), exc, NO_CALLS, at))
    case Weather(message) => Acknowledged(AfterWeather(s, c, message, senders, at))
  }

  /** The settings a queue worker passes along. */
  datatype Gate = Gate(maxReceives: int, grace: int, allowReal: bool)

  /** The instants a call reads from the clock: at its start and when it records the result. */
  datatype Clock = Clock(now: int, later: int)

  /** `process_queued_delivery`. */
  function ProcessQueued(s: Store, id: int, receiveCount: int, gate: Gate, weather: WeatherProvider, senders: Senders,
                         clock: Clock): QueueRun
  {
    if receiveCount < 1 || gate.maxReceives < 1 then QueueRun(s, NO_CALLS, Raised(ValueError))
    else
      match ClaimQueued(s, id, clock.now, gate.grace, gate.allowReal)
      case Raised(e) => QueueRun(s, NO_CALLS, Raised(e))
      case Ok(QueuedResult(t, Decided(action))) => QueueRun(t, NO_CALLS, Ok(action))
      case Ok(QueuedResult(t, Granted(c))) => ExecuteQueued(t, c, receiveCount, gate.maxReceives, weather, senders,
                                                            clock.later)
  }

  /** The counters of `DispatchResult` after the loop over the first claims of a batch. */
  datatype DispatchRun = DispatchRun(store: Store, calls: Calls, delivered: nat, failed: nat)

  function Joined(a: Calls, b: Calls): Calls {
    Calls(a.message + b.message, a.demo + b.demo)
  }

  function ExecuteNext(d: DispatchRun, c: Claim, weather: WeatherProvider, senders: Senders, at: int): DispatchRun {
    var x := Execute(d.store, c, weather, senders, at);
    DispatchRun(x.store, Joined(d.calls, x.calls),
                d.delivered + (if x.result.Ok? then 1 else 0),
                d.failed + (if x.result.Ok? then 0 else 1))
  }

  function ExecuteEach(s: Store, claims: seq<Claim>, weather: WeatherProvider, senders: Senders, at: int): DispatchRun {
    if claims == [] then DispatchRun(s, NO_CALLS, 0, 0)
    else
      var n := |claims| - 1;
      ExecuteNext(ExecuteEach(s, claims[..n], weather, senders, at), claims[n], weather, senders, at)
  }

  /** All requests of one execution. */
  function Requests(calls: Calls): seq<Send> {
    calls.message + calls.demo
  }

  /** The requests of the first claims of a batch in the order in which they were made. */
  function RequestsOfEach(s: Store, claims: seq<Claim>, weather: WeatherProvider, senders: Senders,
                          at: int): seq<Send> {
    if claims == [] then []
    else
      var n := |claims| - 1;
      var before := ExecuteEach(s, claims[..n], weather, senders, at);
      RequestsOfEach(s, claims[..n], weather, senders, at)
      + Requests(Execute(before.store, claims[n], weather, senders, at).calls)
  }

  datatype DispatchResult = DispatchResult(selected: nat, delivered: nat, missed: nat, failed: nat)

  // ----- the services

  /** A message sender: it keeps the requests it received. */
  class MessageSender {
    const replies: SenderReplies
    var requests: seq<Send>

    constructor (replies: SenderReplies)
      ensures this.replies == replies && requests == []
    {
      this.replies := replies;
      requests := [];
    }

    method SendMessage(request: Send) returns (reply: SendReply)
      modifies this
      ensures reply == replies(request) && requests == old(requests) + [request]
    {
      requests := requests + [request];
      reply := replies(request);
    }
  }

  function RepliesOf(sender: MessageSender?): Option<SenderReplies> {
    if sender == null then None else Some(sender.replies)
  }

  function SendersOf(message: MessageSender?, demo: MessageSender?): Senders {
    Senders(RepliesOf(message), RepliesOf(demo))
  }

  twostate predicate Received(sender: MessageSender?, requests: seq<Send>)
    reads sender
  {
    sender != null ==> sender.requests == old(sender.requests) + requests
  }

  /** Each sender received its requests; an object that is both senders received all of them, in
      order. */
  twostate predicate Got(message: MessageSender?, demo: MessageSender?, calls: Calls, inOrder: seq<Send>)
    reads message, demo
  {
    if message != null && message == demo then Received(message, inOrder)
    else Received(message, calls.message) && Received(demo, calls.demo)
  }

  /** `_select_sender`, then `send`. */
  method SendThrough(c: Claim, messageSender: MessageSender?, demoSender: MessageSender?, message: string)
    returns (r: Sending)
    modifies messageSender, demoSender
    ensures r == SendClaimed(c, SendersOf(messageSender, demoSender), message)
    ensures var calls := if r.Called? then r.calls else NO_CALLS; Got(messageSender, demoSender, calls, Requests(calls))
  {
    var request := RequestFor(c, message);
    if c.row.isDemo {
      var sender := demoSender;
      if sender == null {
        sender := new MessageSender(_ => Accepted(None));
      }
      var reply := sender.SendMessage(request);
      return Called(Calls([], [request]), reply);
    }
    if messageSender == null {
      return NoSender;
    }
    var reply := messageSender.SendMessage(request);
    return Called(Calls([request], []), reply);
  }

  method ExecuteClaimedDelivery(db: Database, c: Claim, weather: WeatherProvider,
                                messageSender: MessageSender?, demoSender: MessageSender?, completedAt: int)
    returns (r: Outcome<()>)
    modifies db, messageSender, demoSender
    ensures var x := Execute(old(db.store), c, weather, SendersOf(messageSender, demoSender), completedAt);
            && db.store == x.store && r == x.result
            && Got(messageSender, demoSender, x.calls, Requests(x.calls))
  {
    var reply := weather(LookupFor(c));
    if reply.WeatherError? {
      r := FailClaimed(db, c, Plain(reply.exc), reply.exc, completedAt);
      return;
    }
    var sent := SendThrough(c, messageSender, demoSender, reply.message);
    if sent.NoSender? {
      r := FailClaimed(db, c, Plain(NOT_CONFIGURED), NOT_CONFIGURED, completedAt);
    } else if sent.reply.SendError? {
      r := FailClaimed(db, c, Plain(sent.reply.exc), sent.reply.exc, completedAt);
    } else {
      r := RecordSuccessOf(db, c.event, c.index, TerminalStatus(c.row), reply.message, sent.reply.sid, completedAt);
    }
  }

  /** The exception handler: record the failure, raise the exception again. */
  method FailClaimed(db: Database, c: Claim, code: ErrorCode, exc: ClassName, failedAt: int) returns (r: Outcome<()>)
    modifies db
    ensures var x := FailWith(old(db.store), c, code, exc, NO_CALLS, failedAt);
            db.store == x.store && r == x.result
  {
    var recorded := RecordFailureOf(db, c.event, c.index, code, failedAt);
    if recorded.Raised? {
      return recorded;
    }
    return Raised(ProviderError(exc));
  }

  method ProcessQueuedDelivery(db: Database, id: int, receiveCount: int, gate: Gate, weather: WeatherProvider,
                               messageSender: MessageSender?, demoSender: MessageSender?, clock: Clock)
    returns (r: Outcome<Action>)
    modifies db, messageSender, demoSender
    ensures var q := ProcessQueued(old(db.store), id, receiveCount, gate, weather, SendersOf(messageSender, demoSender),
                                   clock);
            && db.store == q.store && r == q.result
            && Got(messageSender, demoSender, q.calls, Requests(q.calls))
  {
    if receiveCount < 1 || gate.maxReceives < 1 {
      return Raised(ValueError);
    }
    var claim := ClaimQueuedEvent(db, id, clock.now, gate.grace, gate.allowReal);
    if claim.Raised? {
      return Raised(claim.error);
    }
    if claim.value.Decided? {
      return Ok(claim.value.action);
    }
    r := DeliverQueuedClaim(db, claim.value.claim, receiveCount, gate.maxReceives, weather, messageSender, demoSender,
                            clock.later);
  }

  method DeliverQueuedClaim(db: Database, c: Claim, receiveCount: int, maxReceives: int, weather: WeatherProvider,
                            messageSender: MessageSender?, demoSender: MessageSender?, at: int)
    returns (r: Outcome<Action>)
    modifies db, messageSender, demoSender
    ensures var q := ExecuteQueued(old(db.store), c, receiveCount, maxReceives, weather,
                                   SendersOf(messageSender, demoSender), at);
            && db.store == q.store && r == q.result
            && Got(messageSender, demoSender, q.calls, Requests(q.calls))
  {
    var recorded: Outcome<()>;
    var reply := weather(LookupFor(c));
    if reply.WeatherError? {
      if reply.retryable {
        if receiveCount < maxReceives {
          recorded := RecordRetryableFailure(db, c.event, c.index, reply.exc, at);
        } else {
          recorded := RecordFailureOf(db, c.event, c.index, RetryExhausted(reply.exc), at);
        }
        return if recorded.Ok? then Ok(Retry) else Raised(recorded.error);
      }
      recorded := RecordFailureOf(db, c.event, c.index, Plain(reply.exc), at);
      return if recorded.Ok? then Ok(Acknowledge) else Raised(recorded.error);
    }
    var sent := SendThrough(c, messageSender, demoSender, reply.message);
    if sent.NoSender? {
      recorded := RecordFailureOf(db, c.event, c.index, Plain(NOT_CONFIGURED), at);
    } else if sent.reply.SendError? {
      recorded := RecordFailureOf(db, c.event, c.index, Plain(sent.reply.exc), at);
    } else {
      recorded := RecordSuccessOf(db, c.event, c.index, TerminalStatus(c.row), reply.message, sent.reply.sid, at);
    }
    RecordingRaisesNoProviderError(old(db.store), c, reply.message, SendersOf(messageSender, demoSender), at);
    return if recorded.Ok? then Ok(Acknowledge) else Raised(recorded.error);
  }

  /** The recording transactions raise errors of their own, never a provider's. */
  lemma RecordingRaisesNoProviderError(s: Store, c: Claim, message: string, senders: Senders, at: int)
    ensures forall code :: RecordFailure(s, c.event, c.index, code, at).Raised? ==>
                             !RecordFailure(s, c.event, c.index, code, at).error.ProviderError?
    ensures forall status, sid ::
              RecordSuccess(s, c.event, c.index, status, message, sid, at).Raised? ==>
                !RecordSuccess(s, c.event, c.index, status, message, sid, at).error.ProviderError?
  {
  }

  method DispatchDueEvents(db: Database, locked: set<int>, size: int, grace: int, includeReal: bool,
                           weather: WeatherProvider, messageSender: MessageSender?, demoSender: MessageSender?,
                           clock: Clock)
    returns (r: Outcome<DispatchResult>)
    modifies db, messageSender, demoSender
    ensures var batch := ClaimBatch(old(db.store), locked, clock.now, size, grace, includeReal);
            if batch.Raised? then
              r == Raised(batch.error) && db.store == old(db.store)
              && Got(messageSender, demoSender, NO_CALLS, [])
            else
              var b := batch.value;
              var d := ExecuteEach(b.store, b.deliveries, weather, SendersOf(messageSender, demoSender), clock.later);
              && db.store == d.store
              && r == Ok(DispatchResult(|b.deliveries| + |b.missed|, d.delivered, |b.missed|, d.failed))
              && Got(messageSender, demoSender, d.calls,
                     RequestsOfEach(b.store, b.deliveries, weather, SendersOf(messageSender, demoSender), clock.later))
  {
    var batch := ClaimDueDeliveryBatch(db, locked, clock.now, size, grace, includeReal);
    if batch.Raised? {
      return Raised(batch.error);
    }
    var b := batch.value;
    var deliveredCount, failedCount := ExecuteClaims(db, b.deliveries, weather, messageSender, demoSender, clock.later);
    return Ok(DispatchResult(|b.deliveries| + |b.missed|, deliveredCount, |b.missed|, failedCount));
  }

  /** The loop of the dispatcher: an exception of one delivery does not stop the others. */
  method ExecuteClaims(db: Database, claims: seq<Claim>, weather: WeatherProvider,
                       messageSender: MessageSender?, demoSender: MessageSender?, at: int)
    returns (deliveredCount: nat, failedCount: nat)
    modifies db, messageSender, demoSender
    ensures var d := ExecuteEach(old(db.store), claims, weather, SendersOf(messageSender, demoSender), at);
            && db.store == d.store && deliveredCount == d.delivered && failedCount == d.failed
            && Got(messageSender, demoSender, d.calls,
                   RequestsOfEach(old(db.store), claims, weather, SendersOf(messageSender, demoSender), at))
  {
    ghost var start := Logs(messageSender, demoSender);
    ghost var first := if messageSender == null then [] else messageSender.requests;
    ghost var d, order := DispatchRun(db.store, NO_CALLS, 0, 0), [];
    deliveredCount, failedCount := 0, 0;
    for i := 0 to |claims|
      invariant d == ExecuteEach(old(db.store), claims[..i], weather, SendersOf(messageSender, demoSender), at)
      invariant db.store == d.store && deliveredCount == d.delivered && failedCount == d.failed
      invariant order == RequestsOfEach(old(db.store), claims[..i], weather, SendersOf(messageSender, demoSender), at)
      invariant Logged(messageSender, demoSender, Joined(start, d.calls), first + order)
    {
      assert claims[..i + 1][..i] == claims[..i];
      var result;
      result, d, order := ExecuteOne(db, d, start, first, order, claims[i], weather, messageSender, demoSender, at);
      if result.Raised? {
        failedCount := failedCount + 1;
      } else {
        deliveredCount := deliveredCount + 1;
      }
    }
    assert claims[..|claims|] == claims;
  }

  /** The requests the two senders have received so far. */
  ghost function Logs(message: MessageSender?, demo: MessageSender?): Calls
    reads message, demo
  {
    Calls(if message == null then [] else message.requests, if demo == null then [] else demo.requests)
  }

  ghost predicate Logged(message: MessageSender?, demo: MessageSender?, calls: Calls, inOrder: seq<Send>)
    reads message, demo
  {
    if message != null && message == demo then message.requests == inOrder
    else
      && (message != null ==> message.requests == calls.message)
      && (demo != null ==> demo.requests == calls.demo)
  }

  /** One turn of the loop; `d` and `order` are what the turns before it left. */
  method ExecuteOne(db: Database, ghost d: DispatchRun, ghost start: Calls, ghost first: seq<Send>,
                    ghost order: seq<Send>, c: Claim, weather: WeatherProvider, messageSender: MessageSender?,
                    demoSender: MessageSender?, at: int)
    returns (result: Outcome<()>, ghost next: DispatchRun, ghost longer: seq<Send>)
    requires db.store == d.store && Logged(messageSender, demoSender, Joined(start, d.calls), first + order)
    modifies db, messageSender, demoSender
    ensures next == ExecuteNext(d, c, weather, SendersOf(messageSender, demoSender), at)
    ensures longer == order + Requests(Execute(d.store, c, weather, SendersOf(messageSender, demoSender), at).calls)
    ensures db.store == next.store && Logged(messageSender, demoSender, Joined(start, next.calls), first + longer)
    ensures next.delivered == d.delivered + (if result.Ok? then 1 else 0)
    ensures next.failed == d.failed + (if result.Ok? then 0 else 1)
  {
    next := ExecuteNext(d, c, weather, SendersOf(messageSender, demoSender), at);
    longer := order + Requests(Execute(d.store, c, weather, SendersOf(messageSender, demoSender), at).calls);
    result := ExecuteClaimedDelivery(db, c, weather, messageSender, demoSender, at);
  }

  /** `deliver_scheduled_event`: it returns the latest attempt of an event that is already
      done, and otherwise executes the claim and returns its attempt. */
  method DeliverScheduledEvent(db: Database, id: int, weather: WeatherProvider,
                               messageSender: MessageSender?, demoSender: MessageSender?, clock: Clock)
    returns (r: Outcome<Attempt>)
    modifies db, messageSender, demoSender
    ensures var claim := ClaimDirect(old(db.store), id, clock.now);
            match claim
            case Raised(e) =>
              r == Raised(e) && db.store == old(db.store) && Got(messageSender, demoSender, NO_CALLS, [])
            case Ok(DirectResult(t, None)) =>
              && db.store == old(db.store) && Got(messageSender, demoSender, NO_CALLS, [])
              && var last := Latest(old(db.store).events[id].attempts);
                 r == if last.Some? then Ok(last.value) else Raised(ValidationError)
            case Ok(DirectResult(t, Some(c))) =>
              var x := Execute(t, c, weather, SendersOf(messageSender, demoSender), clock.later);
              && db.store == x.store
              && Got(messageSender, demoSender, x.calls, Requests(x.calls))
              && r.Ok? == x.result.Ok?
              && (r.Raised? ==> r.error == x.result.error)
              && (r.Ok? ==>
                    HasAttempt(x.store, c.event, c.index) && r.value == x.store.events[c.event].attempts[c.index])
  {
    var claimed := ClaimEvent(db, id, clock.now);
    if claimed.Raised? {
      return Raised(claimed.error);
    }
    if claimed.value.None? {
      var last := Latest(db.store.events[id].attempts);
      return if last.Some? then Ok(last.value) else Raised(ValidationError);
    }
    var c := claimed.value.value;
    var result := ExecuteClaimedDelivery(db, c, weather, messageSender, demoSender, clock.later);
    if result.Raised? {
      return Raised(result.error);
    }
    return Ok(db.store.events[c.event].attempts[c.index]);
  }
}
