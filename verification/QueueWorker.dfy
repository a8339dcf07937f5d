/** The queue worker: a tick is expanded into delivery messages, and every message of a
    batch is deleted or hidden for a while. */
module QueueWorker {
  import Json
  import opened Records
  import opened Tables
  import opened Ordering
  import opened Claims
  import opened Delivery
  import opened Envelope

  const MAX_VISIBILITY := 43200

  datatype ReceivedQueueMessage = ReceivedQueueMessage(
    body: string, receiptHandle: string, receiveCount: int, messageId: Option<string>)

  /** What the queue was told to do. */
  datatype Operation =
    | Publishing(envelope: QueueEnvelope)
    | Deleting(message: ReceivedQueueMessage)
    | Hiding(message: ReceivedQueueMessage, seconds: int)

  /** The queue may be unavailable for any operation. */
  class DeliveryQueue {
    const fails: nat -> bool
    var log: seq<Operation>

    constructor (fails: nat -> bool)
      ensures this.fails == fails && log == []
    {
      this.fails := fails;
      log := [];
    }

    method Operate(op: Operation) returns (r: Outcome<()>)
      modifies this
      ensures r == if fails(|old(log)|) then Raised(QueueUnavailable) else Ok(())
      ensures log == if r.Ok? then old(log) + [op] else old(log)
    {
      if fails(|log|) {
        return Raised(QueueUnavailable);
      }
      log := log + [op];
      return Ok(());
    }
  }

  // ----- backoff

  function TwoTo(n: nat): (r: nat)
    ensures r >= 1
  {
    if n == 0 then 1 else 2 * TwoTo(n - 1)
  }

  function Larger(a: int, b: int): int {
    if a >= b then a else b
  }

  function Smaller(a: int, b: int): int {
    if a <= b then a else b
  }

  /** The visibility timeout after a receive. */
  function Backoff(base: int, max: int, receiveCount: int): int {
    Smaller(base * TwoTo(Larger(receiveCount - 1, 0)), max)
  }

  predicate ValidBackoff(base: int, max: int) {
    1 <= base <= max <= MAX_VISIBILITY
  }

  lemma {:induction false} TwoToGrows(m: nat, n: nat)
    requires m <= n
    ensures TwoTo(m) <= TwoTo(n)
  {
    if m == n {
    } else {
      TwoToGrows(m, n - 1);
    }
  }

  lemma Times(base: int, a: int, b: int)
    requires base >= 0 && a <= b
    ensures base * a <= base * b
  {
  }

  /** A backoff stays within the bounds that were set, and within what the queue accepts; it
      starts at the base, never gets shorter, and has reached the maximum by receive 17. */
  lemma BackoffIsBounded(base: int, max: int, receiveCount: int, later: int)
    requires ValidBackoff(base, max) && receiveCount <= later
    ensures 1 <= base <= Backoff(base, max, receiveCount) <= max <= MAX_VISIBILITY
    ensures Backoff(base, max, receiveCount) <= Backoff(base, max, later)
    ensures receiveCount <= 1 ==> Backoff(base, max, receiveCount) == base
    ensures receiveCount >= 17 ==> Backoff(base, max, receiveCount) == max
  {
    var m, n := Larger(receiveCount - 1, 0), Larger(later - 1, 0);
    TwoToGrows(m, n);
    Times(base, TwoTo(m), TwoTo(n));
    Times(base, 1, TwoTo(m));
    if receiveCount >= 17 {
      TwoToGrows(16, m);
      assert TwoTo(16) == 65536 by {
        assert TwoTo(4) == 16 && TwoTo(8) == 256 && TwoTo(12) == 4096;
      }
      Times(base, 65536, TwoTo(m));
      assert base * 65536 >= 65536;
    }
  }

  /** Every receive after the first doubles the backoff until it reaches the maximum. */
  lemma BackoffDoubles(base: int, max: int, receiveCount: int)
    requires ValidBackoff(base, max) && receiveCount >= 1
    ensures var next := Backoff(base, max, receiveCount + 1);
            next == if 2 * Backoff(base, max, receiveCount) <= max then 2 * Backoff(base, max, receiveCount) else max
  {
    var n := receiveCount - 1;
    assert TwoTo(n + 1) == 2 * TwoTo(n);
    assert base * (2 * TwoTo(n)) == 2 * (base * TwoTo(n));
    Times(base, 1, TwoTo(n));
  }

  /** Receive 16 does not always reach the maximum. */
  lemma SeventeenIsNeeded()
    ensures Backoff(1, MAX_VISIBILITY, 16) == 32768 < MAX_VISIBILITY
  {
    assert TwoTo(4) == 16 && TwoTo(8) == 256 && TwoTo(12) == 4096 && TwoTo(15) == 32768;
  }

  // ----- specification

  datatype Settings = Settings(
    batchSize: int, gate: Gate, base: int, max: int, weather: WeatherProvider, senders: Senders)

  /** Where a worker is in its batch; an error ends it. */
  datatype Progress = Progress(
    store: Store, log: seq<Operation>, calls: Calls,
    acknowledged: nat, retried: nat, published: nat, malformed: nat, error: Option<Error>)

  function Start(store: Store, log: seq<Operation>): Progress {
    Progress(store, log, NO_CALLS, 0, 0, 0, 0, None)
  }

  function Operated(p: Progress, op: Operation, fails: nat -> bool): Progress {
    if fails(|p.log|) then p.(error := Some(QueueUnavailable)) else p.(log := p.log + [op])
  }

  function PublishOne(p: Progress, id: int, fails: nat -> bool): Progress {
    match DeliverEvent(Json.Int(id))
    case Raised(e) => p.(error := Some(e))
    case Ok(envelope) =>
      var q := Operated(p, Publishing(envelope), fails);
      if q.error.Some? then q else q.(published := q.published + 1)
  }

  /** The loop over the selected ids. */
  function PublishEach(p: Progress, ids: seq<int>, fails: nat -> bool): Progress {
    if ids == [] then p
    else
      var n := |ids| - 1;
      var before := PublishEach(p, ids[..n], fails);
      if before.error.Some? then before else PublishOne(before, ids[n], fails)
  }

  /** `publish_due_event_messages`: nothing is locked and nothing is claimed. */
  function PublishDue(p: Progress, now: int, size: int, includeReal: bool, fails: nat -> bool): Progress {
    if !(1 <= size <= MAX_BATCH_SIZE) then p.(error := Some(ValueError))
    else PublishEach(p, OldestDue(p.store, {}, now, size, includeReal), fails)
  }

  /** The message is deleted, or hidden for the time of its receive count. */
  function Settled(p: Progress, m: ReceivedQueueMessage, action: Action, s: Settings, fails: nat -> bool): Progress {
    if p.error.Some? then p
    else if action == Acknowledge then
      var q := Operated(p, Deleting(m), fails);
      if q.error.Some? then q else q.(acknowledged := q.acknowledged + 1)
    else
      var q := Operated(p, Hiding(m, Backoff(s.base, s.max, m.receiveCount)), fails);
      if q.error.Some? then q else q.(retried := q.retried + 1)
  }

  /** A delivery message: the worker waits for the delivery. */
  function Delivered(p: Progress, id: int, receiveCount: int, s: Settings, clock: Clock): (Progress, Action) {
    var q := ProcessQueued(p.store, id, receiveCount, s.gate, s.weather, s.senders, clock);
    var r := p.(store := q.store, calls := Joined(p.calls, q.calls));
    match q.result
    case Raised(e) => (r.(error := Some(e)), Retry)
    case Ok(action) => (r, action)
  }

  /** What becomes of a message before it is settled, and the action that settles it. */
  function Treated(p: Progress, m: ReceivedQueueMessage, s: Settings, clock: Clock,
                   fails: nat -> bool): (Progress, Action) {
    match FromJson(m.body)
    case None => (p.(malformed := p.malformed + 1), Retry)
    case Some(envelope) =>
      if envelope.messageType == WORDS.tick then
        (PublishDue(p, clock.now, s.batchSize, s.gate.allowReal, fails), Acknowledge)
      else if envelope.messageType == WORDS.deliver then
        Delivered(p, envelope.eventId.value, m.receiveCount, s, clock)
      else (p.(error := Some(RuntimeError)), Retry)
  }

  /** One turn of the loop over the messages. */
  function Handle(p: Progress, m: ReceivedQueueMessage, s: Settings, clock: Clock, fails: nat -> bool): Progress {
    var (q, action) := Treated(p, m, s, clock, fails);
    Settled(q, m, action, s, fails)
  }

  /** The turns of the loop from message `i` on; `clocks` gives the instants each turn reads.
      An exception ends the loop. */
  function HandleFrom(p: Progress, messages: seq<ReceivedQueueMessage>, i: nat, s: Settings, clocks: nat -> Clock,
                      fails: nat -> bool): Progress
    requires i <= |messages|
    decreases |messages| - i
  {
    if i == |messages| || p.error.Some? then p
    else HandleFrom(Handle(p, messages[i], s, clocks(i), fails), messages, i + 1, s, clocks, fails)
  }

  function HandleEach(p: Progress, messages: seq<ReceivedQueueMessage>, s: Settings, clocks: nat -> Clock,
                      fails: nat -> bool): Progress {
    HandleFrom(p, messages, 0, s, clocks, fails)
  }

  predicate BadSettings(s: Settings) {
    s.gate.maxReceives < 1 || !ValidBackoff(s.base, s.max)
  }

  // ----- the services

  datatype QueuePublicationResult = QueuePublicationResult(selected: nat, published: nat)

  datatype QueueBatchResult = QueueBatchResult(
    received: nat, acknowledged: nat, retried: nat, published: nat, malformed: nat)

  method PublishDueEventMessages(db: Database, queue: DeliveryQueue, now: int, batchSize: int, includeReal: bool)
    returns (r: Outcome<QueuePublicationResult>)
    modifies queue
    ensures var q := PublishDue(Start(db.store, old(queue.log)), now, batchSize, includeReal, queue.fails);
            && queue.log == q.log
            && r.Ok? == q.error.None?
            && (r.Raised? ==> Some(r.error) == q.error)
            && (r.Ok? ==> batchSize >= 1 && r.value.published == q.published
                          && r.value.selected == |OldestDue(db.store, {}, now, batchSize, includeReal)|)
  {
    if !(1 <= batchSize <= MAX_BATCH_SIZE) {
      return Raised(ValueError);
    }
    var eventIds := OldestDue(db.store, {}, now, batchSize, includeReal);
    ghost var start := Start(db.store, queue.log);
    var publishedCount := 0;
    for i := 0 to |eventIds|
      invariant var q := PublishEach(start, eventIds[..i], queue.fails);
                q.error.None? && queue.log == q.log && publishedCount == q.published
    {
      PublishStep(start, eventIds, i, queue.fails);
      var envelope := DeliverEvent(Json.Int(eventIds[i]));
      if envelope.Raised? {
        return Raised(envelope.error);
      }
      var sent := queue.Operate(Publishing(envelope.value));
      if sent.Raised? {
        return Raised(sent.error);
      }
      publishedCount := publishedCount + 1;
    }
    assert eventIds[..|eventIds|] == eventIds;
    return Ok(QueuePublicationResult(|eventIds|, publishedCount));
  }

  lemma PublishStep(p: Progress, ids: seq<int>, i: nat, fails: nat -> bool)
    requires i < |ids| && PublishEach(p, ids[..i], fails).error.None?
    ensures PublishEach(p, ids[..i + 1], fails) == PublishOne(PublishEach(p, ids[..i], fails), ids[i], fails)
    ensures PublishOne(PublishEach(p, ids[..i], fails), ids[i], fails).error.Some? ==>
              PublishEach(p, ids, fails) == PublishOne(PublishEach(p, ids[..i], fails), ids[i], fails)
  {
    assert ids[..i + 1][..i] == ids[..i];
    if PublishOne(PublishEach(p, ids[..i], fails), ids[i], fails).error.Some? {
      ErrorEndsPublishing(p, ids, i + 1, fails);
    }
  }

  lemma {:induction false} ErrorEndsPublishing(p: Progress, ids: seq<int>, i: nat, fails: nat -> bool)
    requires i <= |ids| && PublishEach(p, ids[..i], fails).error.Some?
    ensures PublishEach(p, ids, fails) == PublishEach(p, ids[..i], fails)
  {
    if i == |ids| {
      assert ids[..i] == ids;
    } else {
      var n := |ids| - 1;
      assert ids[..n][..i] == ids[..i];
      ErrorEndsPublishing(p, ids[..n], i, fails);
    }
  }

  lemma {:induction false} PublishFromStart(p: Progress, ids: seq<int>, fails: nat -> bool)
    requires p.error.None?
    ensures var q := PublishEach(Start(p.store, p.log), ids, fails);
            PublishEach(p, ids, fails) == p.(log := q.log, published := p.published + q.published, error := q.error)
  {
    if ids == [] {
    } else {
      PublishFromStart(p, ids[..|ids| - 1], fails);
    }
  }

  /** The message is deleted, or hidden for the time of its receive count. */
  method SettleMessage(queue: DeliveryQueue, m: ReceivedQueueMessage, action: Action, base: int, max: int)
    returns (r: Outcome<()>)
    modifies queue
    ensures var op := if action == Acknowledge then Deleting(m) else Hiding(m, Backoff(base, max, m.receiveCount));
            && r == (if queue.fails(|old(queue.log)|) then Raised(QueueUnavailable) else Ok(()))
            && queue.log == if r.Ok? then old(queue.log) + [op] else old(queue.log)
  {
    if action == Acknowledge {
      r := queue.Operate(Deleting(m));
    } else {
      var visibilityTimeout := Smaller(base * TwoTo(Larger(m.receiveCount - 1, 0)), max);
      r := queue.Operate(Hiding(m, visibilityTimeout));
    }
  }

  /** What one turn adds to the counters. */
  datatype Turn = Turn(action: Action, published: nat, malformed: bool)

  function WithTurn(p: Progress, q: Progress, t: Turn): Progress {
    q.(acknowledged := p.acknowledged + (if t.action == Acknowledge then 1 else 0),
    retried := p.retried + (if t.action == Acknowledge then 0 else 1),
    published := p.published + t.published,
    malformed := p.malformed + (if t.malformed then 1 else 0))
  }

  /** The worker expands a tick. */
  method HandleTick(db: Database, queue: DeliveryQueue, ghost p: Progress, s: Settings, now: int)
    returns (r: Outcome<nat>)
    requires p.store == db.store && p.log == queue.log && p.error.None?
    modifies queue
    ensures var q := PublishDue(p, now, s.batchSize, s.gate.allowReal, queue.fails);
            && queue.log == q.log
               && (r.Raised? ==> q == p.(log := q.log, published := q.published, error := Some(r.error)))
            && (r.Ok? ==> q == p.(log := q.log, published := p.published + r.value))
  {
    var result := PublishDueEventMessages(db, queue, now, s.batchSize, s.gate.allowReal);
    if 1 <= s.batchSize <= MAX_BATCH_SIZE {
      PublishFromStart(p, OldestDue(p.store, {}, now, s.batchSize, s.gate.allowReal), queue.fails);
    }
    return if result.Ok? then Ok(result.value.published) else Raised(result.error);
  }

  /** The worker waits for a delivery. */
  method HandleDelivery(db: Database, ghost p: Progress, ghost start: seq<Send>, id: int, receiveCount: int,
                        s: Settings, messageSender: MessageSender?, clock: Clock)
    returns (r: Outcome<Action>)
    requires p.store == db.store && p.error.None?
    requires s.senders == SendersOf(messageSender, null)
    requires messageSender != null ==> messageSender.requests == start + p.calls.message
    modifies db, messageSender
    ensures var (q, action) := Delivered(p, id, receiveCount, s, clock);
            && q == p.(store := db.store, calls := q.calls, error := if r.Ok? then None else Some(r.error))
            && (r.Ok? ==> r.value == action)
            && (messageSender != null ==> messageSender.requests == start + q.calls.message)
  {
    r := ProcessQueuedDelivery(db, id, receiveCount, s.gate, s.weather, messageSender, null, clock);
  }

  /** The body of the loop for one message, up to its settlement; `p` is what the turns before
      it left. */
  method HandleBody(db: Database, queue: DeliveryQueue, ghost p: Progress, ghost start: seq<Send>,
                    m: ReceivedQueueMessage, s: Settings, messageSender: MessageSender?, clock: Clock)
    returns (r: Outcome<Turn>)
    requires p.store == db.store && p.log == queue.log && p.error.None?
    requires s.senders == SendersOf(messageSender, null)
    requires messageSender != null ==> messageSender.requests == start + p.calls.message
    modifies db, queue, messageSender
    ensures var (q, action) := Treated(p, m, s, clock, queue.fails);
            && db.store == q.store && queue.log == q.log
            && q.error == (if r.Ok? then None else Some(r.error))
            && (messageSender != null ==> messageSender.requests == start + q.calls.message)
            && (r.Ok? ==> r.value.action == action
                          && q.acknowledged == p.acknowledged && q.retried == p.retried
                          && q.published == p.published + r.value.published
                          && q.malformed == p.malformed + (if r.value.malformed then 1 else 0))
  {
    var envelope := FromJson(m.body);
    if envelope.None? {
      return Ok(Turn(Retry, 0, true));
    }
    if envelope.value.messageType == WORDS.tick {
      var published := HandleTick(db, queue, p, s, clock.now);
      return if published.Ok? then Ok(Turn(Acknowledge, published.value, false)) else Raised(published.error);
    }
    var action := HandleDelivery(db, p, start, envelope.value.eventId.value, m.receiveCount, s, messageSender, clock);
    return if action.Ok? then Ok(Turn(action.value, 0, false)) else Raised(action.error);
  }

  /** A settlement changes the log and one counter, or ends the batch. */
  lemma SettledTells(q: Progress, m: ReceivedQueueMessage, action: Action, s: Settings, fails: nat -> bool)
    requires q.error.None?
    ensures var op := if action == Acknowledge then Deleting(m) else Hiding(m, Backoff(s.base, s.max, m.receiveCount));
            Settled(q, m, action, s, fails)
            == if fails(|q.log|) then q.(error := Some(QueueUnavailable))
               else if action == Acknowledge then q.(log := q.log + [op], acknowledged := q.acknowledged + 1)
               else q.(log := q.log + [op], retried := q.retried + 1)
  {
  }

  /** What the settlement of a treated message leaves. */
  lemma TurnTells(p: Progress, q: Progress, m: ReceivedQueueMessage, t: Turn, s: Settings, fails: nat -> bool)
    requires p.error.None? && q.error.None? && q.acknowledged == p.acknowledged && q.retried == p.retried
    requires q.published == p.published + t.published
    requires q.malformed == p.malformed + (if t.malformed then 1 else 0)
    ensures var next := Settled(q, m, t.action, s, fails);
            && next.store == q.store && next.calls == q.calls
            && if fails(|q.log|) then next.log == q.log && next.error == Some(QueueUnavailable)
               else
                 && next == WithTurn(p, next, t) && next.error.None?
                 && next.log == q.log + [if t.action == Acknowledge then Deleting(m)
                                         else Hiding(m, Backoff(s.base, s.max, m.receiveCount))]
  {
    SettledTells(q, m, t.action, s, fails);
  }

  method HandleMessage(db: Database, queue: DeliveryQueue, ghost p: Progress, ghost start: seq<Send>,
                       m: ReceivedQueueMessage, s: Settings, messageSender: MessageSender?, clock: Clock)
    returns (r: Outcome<Turn>, ghost next: Progress)
    requires p.store == db.store && p.log == queue.log && p.error.None?
    requires s.senders == SendersOf(messageSender, null)
    requires messageSender != null ==> messageSender.requests == start + p.calls.message
    modifies db, queue, messageSender
    ensures next == Handle(p, m, s, clock, queue.fails)
    ensures db.store == next.store && queue.log == next.log
    ensures r.Ok? == next.error.None? && (r.Raised? ==> next.error == Some(r.error))
    ensures messageSender != null ==> messageSender.requests == start + next.calls.message
    ensures r.Ok? ==> next == WithTurn(p, next, r.value)
  {
    ghost var q := Treated(p, m, s, clock, queue.fails).0;
    r := HandleBody(db, queue, p, start, m, s, messageSender, clock);
    next := q;
    if r.Raised? {
      return;
    }
    TurnTells(p, q, m, r.value, s, queue.fails);
    next := Settled(q, m, r.value.action, s, queue.fails);
    var settled := SettleMessage(queue, m, r.value.action, s.base, s.max);
    if settled.Raised? {
      return Raised(settled.error), next;
    }
  }

  method ProcessQueueBatch(db: Database, queue: DeliveryQueue, messages: seq<ReceivedQueueMessage>, s: Settings,
                           messageSender: MessageSender?, clocks: nat -> Clock)
    returns (r: Outcome<QueueBatchResult>)
    requires s.senders == SendersOf(messageSender, null)
    modifies db, queue, messageSender
    ensures s.gate.maxReceives < 1 || !(1 <= s.base <= s.max <= 43200) ==>
              r == Raised(ValueError) && db.store == old(db.store) && queue.log == old(queue.log)
              && Received(messageSender, [])
    ensures s.gate.maxReceives >= 1 && 1 <= s.base <= s.max <= 43200 ==>
              var p := HandleEach(Start(old(db.store), old(queue.log)), messages, s, clocks, queue.fails);
              && db.store == p.store && queue.log == p.log && Received(messageSender, p.calls.message)
              && r == if p.error.Some? then Raised(p.error.value) else Ok(BatchResult(|messages|, p))
  {
    if s.gate.maxReceives < 1 {
      return Raised(ValueError);
    }
    if !(1 <= s.base <= s.max <= MAX_VISIBILITY) {
      return Raised(ValueError);
    }
    r := HandleMessages(db, queue, messages, s, messageSender, clocks);
  }

  function BatchResult(received: nat, p: Progress): QueueBatchResult {
    QueueBatchResult(received, p.acknowledged, p.retried, p.published, p.malformed)
  }

  /** The loop of the batch. */
  method HandleMessages(db: Database, queue: DeliveryQueue, messages: seq<ReceivedQueueMessage>, s: Settings,
                        messageSender: MessageSender?, clocks: nat -> Clock)
    returns (r: Outcome<QueueBatchResult>)
    requires s.senders == SendersOf(messageSender, null)
    modifies db, queue, messageSender
    ensures var p := HandleEach(Start(old(db.store), old(queue.log)), messages, s, clocks, queue.fails);
            && db.store == p.store && queue.log == p.log
            && (messageSender != null ==> messageSender.requests == old(messageSender.requests) + p.calls.message)
            && r == if p.error.Some? then Raised(p.error.value) else Ok(BatchResult(|messages|, p))
  {
    ghost var first := Start(db.store, queue.log);
    ghost var p := first;
    ghost var start := if messageSender == null then [] else messageSender.requests;
    var acknowledgedCount, retryCount, publishedCount, malformedCount := 0, 0, 0, 0;
    for i := 0 to |messages|
      invariant HandleFrom(p, messages, i, s, clocks, queue.fails)
                == HandleEach(first, messages, s, clocks, queue.fails)
      invariant p.error.None? && db.store == p.store && queue.log == p.log
      invariant messageSender != null ==> messageSender.requests == start + p.calls.message
      invariant acknowledgedCount == p.acknowledged && retryCount == p.retried
      invariant publishedCount == p.published && malformedCount == p.malformed
    {
      var turn;
      turn, p := HandleMessage(db, queue, p, start, messages[i], s, messageSender, clocks(i));
      if turn.Raised? {
        return Raised(turn.error);
      }
      publishedCount := publishedCount + turn.value.published;
      if turn.value.malformed {
        malformedCount := malformedCount + 1;
      }
      if turn.value.action == Acknowledge {
        acknowledgedCount := acknowledgedCount + 1;
      } else {
        retryCount := retryCount + 1;
      }
    }
    return Ok(QueueBatchResult(|messages|, acknowledgedCount, retryCount, publishedCount, malformedCount));
  }
}
