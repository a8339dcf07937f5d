/** What a batch of the queue worker does to the queue, whatever the messages are. */
module QueueBatches {
  import opened Records
  import opened Ordering
  import opened Claims
  import opened Delivery
  import opened Envelope
  import opened QueueWorker
  import Json
  import BatchClaims
  import Coupling
  import Outcomes
  import PathEquivalence

  // ----- reading a log

  /** The messages that were deleted or hidden, in order. */
  function Settlements(log: seq<Operation>): seq<ReceivedQueueMessage> {
    if log == [] then []
    else
      var n := |log| - 1;
      Settlements(log[..n]) + (if log[n].Publishing? then [] else [log[n].message])
  }

  datatype Tally = Tally(deleted: nat, hidden: nat, published: nat)

  function TallyOf(log: seq<Operation>): Tally {
    if log == [] then Tally(0, 0, 0)
    else
      var before := TallyOf(log[..|log| - 1]);
      match log[|log| - 1]
      case Publishing(_) => before.(published := before.published + 1)
      case Deleting(_) => before.(deleted := before.deleted + 1)
      case Hiding(_, _) => before.(hidden := before.hidden + 1)
  }

  /** The log went from `p` to `q` by publishing, and the counter followed. */
  ghost predicate OnlyPublished(p: Progress, q: Progress) {
    && q.published >= p.published
    && Settlements(q.log) == Settlements(p.log)
    && TallyOf(q.log) == TallyOf(p.log).(published := TallyOf(p.log).published + (q.published - p.published))
    && q.acknowledged == p.acknowledged && q.retried == p.retried && q.malformed == p.malformed
  }

  lemma OneMore(log: seq<Operation>, op: Operation)
    ensures Settlements(log + [op]) == Settlements(log) + (if op.Publishing? then [] else [op.message])
    ensures TallyOf(log + [op]).published == TallyOf(log).published + (if op.Publishing? then 1 else 0)
    ensures TallyOf(log + [op]).deleted == TallyOf(log).deleted + (if op.Deleting? then 1 else 0)
    ensures TallyOf(log + [op]).hidden == TallyOf(log).hidden + (if op.Hiding? then 1 else 0)
  {
    assert (log + [op])[..|log|] == log;
  }

  lemma {:induction false} PublishingOnly(p: Progress, ids: seq<int>, fails: nat -> bool)
    requires p.error.None?
    ensures OnlyPublished(p, PublishEach(p, ids, fails))
  {
    if ids == [] {
    } else {
      var n := |ids| - 1;
      PublishingOnly(p, ids[..n], fails);
      var before := PublishEach(p, ids[..n], fails);
      if before.error.None? && DeliverEvent(Json.Int(ids[n])).Ok? {
        OneMore(before.log, Publishing(DeliverEvent(Json.Int(ids[n])).value));
      }
    }
  }


  /** Before it is settled, a message may publish, and nothing else happens to the queue. */
  lemma TreatedOnlyPublishes(p: Progress, m: ReceivedQueueMessage, s: Settings, clock: Clock, fails: nat -> bool)
    requires p.error.None?
    ensures var (q, action) := Treated(p, m, s, clock, fails);
            && OnlyPublished(p, q.(malformed := p.malformed))
            && q.malformed == p.malformed + (if FromJson(m.body).None? then 1 else 0)
            && (FromJson(m.body).None? ==> action == Retry)
  {
    if 1 <= s.batchSize <= MAX_BATCH_SIZE {
      PublishingOnly(p, OldestDue(p.store, {}, clock.now, s.batchSize, s.gate.allowReal), fails);
    }
  }

  // ----- conservation

  /** The counters and the log agree, and every message of `done` was settled once. */
  ghost predicate Accounts(start: seq<Operation>, p: Progress, done: seq<ReceivedQueueMessage>) {
    var was, now := TallyOf(start), TallyOf(p.log);
    && Settlements(p.log) == Settlements(start) + done
    && now == Tally(was.deleted + p.acknowledged, was.hidden + p.retried, was.published + p.published)
    && p.acknowledged + p.retried == |done|
    && p.malformed == MalformedIn(done) <= p.retried
  }

  /** How many of the messages are malformed. */
  ghost function MalformedIn(messages: seq<ReceivedQueueMessage>): nat {
    if messages == [] then 0
    else MalformedIn(messages[..|messages| - 1]) + (if FromJson(messages[|messages| - 1].body).None? then 1 else 0)
  }

  lemma SettledAccounts(start: seq<Operation>, p: Progress, q: Progress, done: seq<ReceivedQueueMessage>,
                        m: ReceivedQueueMessage, op: Operation, r: Progress)
    requires Accounts(start, p, done) && OnlyPublished(p, q.(malformed := p.malformed))
    requires q.malformed == p.malformed + (if FromJson(m.body).None? then 1 else 0)
    requires (op == Deleting(m) && q.malformed == p.malformed
              && r == q.(log := q.log + [op], acknowledged := q.acknowledged + 1))
             || (op.Hiding? && op.message == m && r == q.(log := q.log + [op], retried := q.retried + 1))
    ensures Accounts(start, r, done + [m])
  {
    OneMore(q.log, op);
    assert (done + [m])[..|done|] == done;
    assert Settlements(start) + done + [m] == Settlements(start) + (done + [m]);
  }

  lemma HandleAccounts(start: seq<Operation>, p: Progress, done: seq<ReceivedQueueMessage>, m: ReceivedQueueMessage,
                       s: Settings, clock: Clock, fails: nat -> bool)
    requires p.error.None? && Accounts(start, p, done)
    ensures var q := Handle(p, m, s, clock, fails);
            if q.error.None? then Accounts(start, q, done + [m])
            else Settlements(q.log) == Settlements(start) + done
  {
    var (q, action) := Treated(p, m, s, clock, fails);
    TreatedOnlyPublishes(p, m, s, clock, fails);
    if q.error.None? {
      SettledTells(q, m, action, s, fails);
      var op := if action == Acknowledge then Deleting(m) else Hiding(m, Backoff(s.base, s.max, m.receiveCount));
      var r := Settled(q, m, action, s, fails);
      if r.error.None? {
        SettledAccounts(start, p, q, done, m, op, r);
      }
    }
  }

  ghost predicate StoppedAt(start: seq<Operation>, p: Progress, messages: seq<ReceivedQueueMessage>, k: nat) {
    k < |messages| && Settlements(p.log) == Settlements(start) + messages[..k]
  }

  /** The batch is in order after its first `i` turns, or has stopped before. */
  ghost predicate InOrder(start: seq<Operation>, p: Progress, messages: seq<ReceivedQueueMessage>, i: nat)
    requires i <= |messages|
  {
    if p.error.None? then Accounts(start, p, messages[..i])
    else exists k: nat :: StoppedAt(start, p, messages, k)
  }

  lemma TurnStaysInOrder(start: seq<Operation>, p: Progress, messages: seq<ReceivedQueueMessage>, i: nat, q: Progress)
    requires i < |messages|
    requires if q.error.None? then Accounts(start, q, messages[..i] + [messages[i]])
             else Settlements(q.log) == Settlements(start) + messages[..i]
    ensures InOrder(start, q, messages, i + 1)
  {
    assert messages[..i + 1] == messages[..i] + [messages[i]];
    if q.error.Some? {
      assert StoppedAt(start, q, messages, i);
    }
  }

  lemma {:induction false} TurnsAccount(log: seq<Operation>, p: Progress, messages: seq<ReceivedQueueMessage>, i: nat,
                                        s: Settings, clocks: nat -> Clock, fails: nat -> bool)
    requires i <= |messages| && InOrder(log, p, messages, i)
    ensures InOrder(log, HandleFrom(p, messages, i, s, clocks, fails), messages, |messages|)
    decreases |messages| - i
  {
    if i < |messages| && p.error.None? {
      var q := Handle(p, messages[i], s, clocks(i), fails);
      HandleAccounts(log, p, messages[..i], messages[i], s, clocks(i), fails);
      TurnStaysInOrder(log, p, messages, i, q);
      TurnsAccount(log, q, messages, i + 1, s, clocks, fails);
    }
  }

  /** A batch that completes settles every message exactly once and in order: what it
      received is what it acknowledged and what it left to a retry, the malformed messages are
      among the latter, and the counts are those of the queue. A batch that an exception ends
      has settled the messages before the one it stopped at, and none after. */
  lemma BatchConserves(store: Store, log: seq<Operation>, messages: seq<ReceivedQueueMessage>, s: Settings,
                       clocks: nat -> Clock, fails: nat -> bool)
    ensures var p := HandleEach(Start(store, log), messages, s, clocks, fails);
            if p.error.None? then Accounts(log, p, messages)
            else exists k: nat :: StoppedAt(log, p, messages, k)
  {
    assert Settlements(log) == Settlements(log) + messages[..0];
    TurnsAccount(log, Start(store, log), messages, 0, s, clocks, fails);
    assert messages[..|messages|] == messages;
  }

  // ----- one message

  /** The message is left to a retry. */
  ghost predicate MustStay(m: ReceivedQueueMessage, after: Store) {
    var envelope := FromJson(m.body);
    || envelope.None?
    || (envelope.value.messageType == WORDS.deliver
        && envelope.value.eventId.value in after.events
           && Outcomes.Unsettled(after.events[envelope.value.eventId.value]))
  }

  /** A message is hidden exactly when it is malformed or the delivery it asks for is not
      settled, and otherwise it is deleted. */
  lemma SettledByTheEvent(p: Progress, m: ReceivedQueueMessage, s: Settings, clock: Clock, fails: nat -> bool)
    requires p.error.None? && Coupling.StoreOk(p.store) && Handle(p, m, s, clock, fails).error.None?
    ensures var q := Handle(p, m, s, clock, fails);
            && Coupling.StoreOk(q.store)
            && q.log != []
            && q.log[|q.log| - 1] == if MustStay(m, q.store) then Hiding(m, Backoff(s.base, s.max, m.receiveCount))
               else Deleting(m)
  {
    var (q, action) := Treated(p, m, s, clock, fails);
    SettledTells(q, m, action, s, fails);
    var envelope := FromJson(m.body);
    if envelope.Some? {
      if envelope.value.messageType == WORDS.tick {
        TickTypeDiffers();
        if 1 <= s.batchSize <= MAX_BATCH_SIZE {
          PublishFromStart(p, OldestDue(p.store, {}, clock.now, s.batchSize, s.gate.allowReal), fails);
          PublishKeepsStore(p, OldestDue(p.store, {}, clock.now, s.batchSize, s.gate.allowReal), fails);
        }
      } else {
        Outcomes.ActionTellsTheEvent(p.store, envelope.value.eventId.value, m.receiveCount, s.gate, s.weather,
                                     s.senders, clock);
      }
    }
  }

  lemma TickTypeDiffers()
    ensures WORDS.tick != WORDS.deliver
  {
    assert |WORDS.tick| == 19 && |WORDS.deliver| == 23;
  }

  lemma {:induction false} PublishKeepsStore(p: Progress, ids: seq<int>, fails: nat -> bool)
    ensures PublishEach(p, ids, fails).store == p.store
  {
    if ids == [] {
    } else {
      PublishKeepsStore(p, ids[..|ids| - 1], fails);
    }
  }

  // ----- what ends a batch

  /** A queue operation of the turn fails: of the `n` operations after `k` others, one is refused. */
  ghost predicate SomeFails(fails: nat -> bool, k: nat, n: nat) {
    exists j: nat :: k <= j < k + n && fails(j)
  }

  lemma {:induction false} PublishingEnds(p: Progress, ids: seq<int>, fails: nat -> bool)
    requires p.error.None? && forall i :: 0 <= i < |ids| ==> ids[i] > 0
    ensures var q := PublishEach(p, ids, fails);
            if SomeFails(fails, |p.log|, |ids|) then q.error == Some(QueueUnavailable)
            else q.error.None? && |q.log| == |p.log| + |ids|
  {
    if ids == [] {
    } else {
      var n := |ids| - 1;
      PublishingEnds(p, ids[..n], fails);
      OneOperationMore(fails, |p.log|, n);
    }
  }

  lemma OneOperationMore(fails: nat -> bool, k: nat, n: nat)
    ensures SomeFails(fails, k, n + 1) <==> SomeFails(fails, k, n) || fails(k + n)
  {
    if SomeFails(fails, k, n + 1) {
      var j: nat :| k <= j < k + n + 1 && fails(j);
      assert j == k + n || j < k + n;
    }
    if fails(k + n) {
      assert k <= k + n < k + n + 1;
    }
  }

  /** The queue refuses one of the publications of a tick, or the deletion after them. */
  lemma TickOperations(p: Progress, ids: seq<int>, m: ReceivedQueueMessage, s: Settings, fails: nat -> bool)
    requires p.error.None? && forall i :: 0 <= i < |ids| ==> ids[i] > 0
    ensures var q := Settled(PublishEach(p, ids, fails), m, Acknowledge, s, fails);
            q.error == if SomeFails(fails, |p.log|, |ids| + 1) then Some(QueueUnavailable) else None
  {
    var q := PublishEach(p, ids, fails);
    PublishingEnds(p, ids, fails);
    OneOperationMore(fails, |p.log|, |ids|);
    if q.error.None? {
      SettledTells(q, m, Acknowledge, s, fails);
    }
  }

  /** A tick ends the batch exactly when the batch size is out of bounds or the queue refuses one of
      the publications or the deletion of the tick; ids are positive. */
  lemma TickEndsExactlyWhen(p: Progress, m: ReceivedQueueMessage, s: Settings, clock: Clock, fails: nat -> bool)
    requires p.error.None? && FromJson(m.body) == Some(DispatchTick())
    requires forall e :: e in p.store.events ==> e > 0
    ensures var q := Handle(p, m, s, clock, fails);
            if 1 <= s.batchSize <= 100 then
              var due := |BatchClaims.EligibleIds(p.store, clock.now, s.gate.allowReal)|;
              var n := if due <= s.batchSize then due else s.batchSize;
              q.error == if SomeFails(fails, |p.log|, n + 1) then Some(QueueUnavailable) else None
            else q == p.(error := Some(ValueError))
  {
    if 1 <= s.batchSize <= MAX_BATCH_SIZE {
      var ids := OldestDue(p.store, {}, clock.now, s.batchSize, s.gate.allowReal);
      BatchClaims.UnlockedSelection(p.store, clock.now, s.batchSize, s.gate.allowReal);
      forall i | 0 <= i < |ids| ensures ids[i] > 0 {
        assert ids[i] in Elements(ids);
      }
      TickOperations(p, ids, m, s, fails);
    }
  }

  /** A malformed message ends the batch exactly when the queue refuses to hide it, and a delivery
      message exactly when the delivery raises, or else the queue refuses to settle it. */
  lemma OtherTurnEndsExactlyWhen(p: Progress, m: ReceivedQueueMessage, s: Settings, clock: Clock, fails: nat -> bool)
    requires p.error.None? && FromJson(m.body) != Some(DispatchTick())
    ensures var error := Handle(p, m, s, clock, fails).error;
            if FromJson(m.body).None? then error == if fails(|p.log|) then Some(QueueUnavailable) else None
            else
              var q := ProcessQueued(p.store, FromJson(m.body).value.eventId.value, m.receiveCount, s.gate, s.weather,
                                     s.senders, clock);
              error == if q.result.Raised? then Some(q.result.error)
                       else if fails(|p.log|) then Some(QueueUnavailable) else None
  {
    TickTypeDiffers();
    var (q, action) := Treated(p, m, s, clock, fails);
    if FromJson(m.body).Some? && FromJson(m.body).value.messageType == WORDS.tick {
      OnlyTicksAreTicks(m.body);
      assert false;
    }
    if q.error.None? {
      SettledTells(q, m, action, s, fails);
    }
  }

  lemma OnlyTicksAreTicks(body: string)
    requires FromJson(body).Some? && FromJson(body).value.messageType == WORDS.tick
    ensures FromJson(body) == Some(DispatchTick())
  {
    TickTypeDiffers();
  }

  /** A batch with one message more is the batch, and then a turn for that message with its own
      clock, unless the batch ended before. */
  lemma OneMessageMore(store: Store, log: seq<Operation>, messages: seq<ReceivedQueueMessage>,
                       m: ReceivedQueueMessage, s: Settings, clocks: nat -> Clock, fails: nat -> bool)
    ensures var p := HandleEach(Start(store, log), messages, s, clocks, fails);
            HandleEach(Start(store, log), messages + [m], s, clocks, fails)
            == if p.error.Some? then p else Handle(p, m, s, clocks(|messages|), fails)
  {
    TurnsThenOne(Start(store, log), messages, m, 0, s, clocks, fails);
  }

  lemma {:induction false} TurnsThenOne(p: Progress, messages: seq<ReceivedQueueMessage>, m: ReceivedQueueMessage,
                                        i: nat, s: Settings, clocks: nat -> Clock, fails: nat -> bool)
    requires i <= |messages|
    ensures var q := HandleFrom(p, messages, i, s, clocks, fails);
            HandleFrom(p, messages + [m], i, s, clocks, fails)
            == if q.error.Some? then q else Handle(q, m, s, clocks(|messages|), fails)
    decreases |messages| - i
  {
    if i == |messages| || p.error.Some? {
      assert (messages + [m])[|messages|] == m;
    } else {
      assert (messages + [m])[i] == messages[i];
      TurnsThenOne(Handle(p, messages[i], s, clocks(i), fails), messages, m, i + 1, s, clocks, fails);
    }
  }

  // ----- ticks

  function PublishedFor(ids: seq<int>): seq<Operation> {
    seq(|ids|, i requires 0 <= i < |ids| => Publishing(DeliveryOf(WORDS, ids[i])))
  }

  lemma {:induction false} PublishingLog(p: Progress, ids: seq<int>, fails: nat -> bool)
    requires PublishEach(p, ids, fails).error.None? && p.error.None?
    ensures var q := PublishEach(p, ids, fails);
            q == p.(log := p.log + PublishedFor(ids), published := p.published + |ids|)
  {
    if ids == [] {
      assert p.log + PublishedFor(ids) == p.log;
    } else {
      var n := |ids| - 1;
      PublishingLog(p, ids[..n], fails);
      assert PublishedFor(ids) == PublishedFor(ids[..n]) + [Publishing(DeliveryOf(WORDS, ids[n]))];
      assert p.log + PublishedFor(ids) == p.log + PublishedFor(ids[..n]) + [Publishing(DeliveryOf(WORDS, ids[n]))];
    }
  }

  /** A tick publishes one delivery message for each of the oldest due events, as many as the
      batch size lets in, and is then deleted. It claims nothing: the store stays as it is. */
  lemma TickPublishes(p: Progress, m: ReceivedQueueMessage, s: Settings, clock: Clock, fails: nat -> bool)
    requires p.error.None? && FromJson(m.body) == Some(DispatchTick()) && Handle(p, m, s, clock, fails).error.None?
    ensures 1 <= s.batchSize <= MAX_BATCH_SIZE
    ensures var q := Handle(p, m, s, clock, fails);
            var due := BatchClaims.EligibleIds(p.store, clock.now, s.gate.allowReal);
            var ids := OldestDue(p.store, {}, clock.now, s.batchSize, s.gate.allowReal);
            && q.store == p.store && q.calls == p.calls
            && q.log == p.log + PublishedFor(ids) + [Deleting(m)]
            && q.published == p.published + |ids| && q.acknowledged == p.acknowledged + 1
            && Distinct(ids) && Elements(ids) <= due
            && |ids| == (if |due| <= s.batchSize then |due| else s.batchSize)
            && (forall x, y :: x in ids && y in due && y !in ids ==>
                  x in p.store.events && Older(p.store.events, x, y))
            && BatchClaims.InQueryOrder(p.store, ids)
  {
    var q := Treated(p, m, s, clock, fails).0;
    SettledTells(q, m, Acknowledge, s, fails);
    PublishingLog(p, OldestDue(p.store, {}, clock.now, s.batchSize, s.gate.allowReal), fails);
    BatchClaims.UnlockedSelection(p.store, clock.now, s.batchSize, s.gate.allowReal);
  }

  // ----- the worker and the dispatcher

  /** The bodies are the delivery messages `received`. */
  ghost predicate Carries(messages: seq<ReceivedQueueMessage>, received: seq<PathEquivalence.Received>) {
    && |messages| == |received|
    && forall i :: 0 <= i < |messages| ==>
         && FromJson(messages[i].body) == Some(DeliveryOf(WORDS, received[i].event))
         && messages[i].receiveCount == received[i].receiveCount
  }

  /** The settings of the two paths are the same, and the clock stands still. */
  ghost predicate SameSetting(s: Settings, clocks: nat -> Clock, g: PathEquivalence.Setting) {
    && s.gate == g.gate && s.weather == g.weather && s.senders == g.senders
    && forall i :: clocks(i) == g.clock
  }

  lemma HandleDeliveryMessage(p: Progress, m: ReceivedQueueMessage, id: int, s: Settings, clock: Clock,
                              fails: nat -> bool)
    requires p.error.None? && FromJson(m.body) == Some(DeliveryOf(WORDS, id)) && !fails(|p.log|)
    requires ProcessQueued(p.store, id, m.receiveCount, s.gate, s.weather, s.senders, clock).result.Ok?
    ensures var q := ProcessQueued(p.store, id, m.receiveCount, s.gate, s.weather, s.senders, clock);
            var r := Handle(p, m, s, clock, fails);
            r.error.None? && r.store == q.store && r.calls == Joined(p.calls, q.calls)
  {
    TickTypeDiffers();
    SettledTells(Treated(p, m, s, clock, fails).0, m, Treated(p, m, s, clock, fails).1, s, fails);
  }

  /** Both paths get the same messages, and nothing keeps them from being delivered. */
  ghost predicate Assumed(store: Store, ids: set<int>, messages: seq<ReceivedQueueMessage>,
                          received: seq<PathEquivalence.Received>, s: Settings, clocks: nat -> Clock,
                          fails: nat -> bool, g: PathEquivalence.Setting)
  {
    && PathEquivalence.Ready(store, ids, g) && PathEquivalence.NoRetryableWeather(store, ids, g)
    && PathEquivalence.NoSharedSids(store, ids, g)
    && Carries(messages, received) && SameSetting(s, clocks, g)
    && (forall k :: 0 <= k < |received| ==> received[k].receiveCount >= 1 && received[k].event in ids)
    && forall k :: !fails(k)
  }

  /** The events of the first `i` messages. */
  function FirstEvents(received: seq<PathEquivalence.Received>, i: nat): set<int>
    requires i <= |received|
  {
    set k | 0 <= k < i :: received[k].event
  }

  /** Message `k` asks for an event whose SID the store knew before. */
  ghost predicate ClashesAt(store: Store, received: seq<PathEquivalence.Received>, k: nat, g: PathEquivalence.Setting) {
    k < |received| && received[k].event in store.events && PathEquivalence.Clashes(store, received[k].event, g)
  }

  /** After the first `i` messages their events are delivered, and nothing else happened. */
  ghost predicate DeliveredFirst(store: Store, p: Progress, received: seq<PathEquivalence.Received>, i: nat,
                                 g: PathEquivalence.Setting) {
    && i <= |received| && HasDelivered(store, p, FirstEvents(received, i), g)
    && forall k: nat :: k < i ==> !ClashesAt(store, received, k, g)
  }

  /** The events `done` are delivered, and nothing else happened. */
  ghost predicate HasDelivered(store: Store, p: Progress, done: set<int>, g: PathEquivalence.Setting) {
    && p.error.None? && p.store == PathEquivalence.Reference(store, done, g)
    && PathEquivalence.CallsOf(store, done, p.calls, g)
  }

  /** Whatever was delivered before, one more message of the batch delivers its event, or ends the
      batch when the SID of the event clashes. */
  lemma OneMoreForWorker(store: Store, p: Progress, ids: set<int>, done: set<int>, m: ReceivedQueueMessage,
                         r: PathEquivalence.Received, s: Settings, clock: Clock, fails: nat -> bool,
                         g: PathEquivalence.Setting)
    requires PathEquivalence.Ready(store, ids, g) && PathEquivalence.NoRetryableWeather(store, ids, g)
    requires PathEquivalence.NoSharedSids(store, ids, g)
    requires r.event in store.events && (PathEquivalence.Clashes(store, r.event, g) ==> r.event !in done)
    requires HasDelivered(store, p, done, g) && !fails(|p.log|)
    requires done <= ids && r.event in ids && r.receiveCount == m.receiveCount >= 1
    requires FromJson(m.body) == Some(DeliveryOf(WORDS, r.event))
    requires s.gate == g.gate && s.weather == g.weather && s.senders == g.senders && clock == g.clock
    ensures var q := Handle(p, m, s, clock, fails);
            if PathEquivalence.Clashes(store, r.event, g) then q.error == Some(IntegrityError)
            else HasDelivered(store, q, done + {r.event}, g)
  {
    PathEquivalence.OneMoreMessage(store, ids, done, p.calls, r, g);
    if PathEquivalence.Clashes(store, r.event, g) {
      HandleRaised(p, m, r.event, s, clock, fails);
    } else {
      HandleDeliveryMessage(p, m, r.event, s, clock, fails);
    }
  }

  lemma HandleRaised(p: Progress, m: ReceivedQueueMessage, id: int, s: Settings, clock: Clock, fails: nat -> bool)
    requires p.error.None? && FromJson(m.body) == Some(DeliveryOf(WORDS, id))
    requires ProcessQueued(p.store, id, m.receiveCount, s.gate, s.weather, s.senders, clock).result.Raised?
    ensures Handle(p, m, s, clock, fails).error
            == Some(ProcessQueued(p.store, id, m.receiveCount, s.gate, s.weather, s.senders, clock).result.error)
  {
    TickTypeDiffers();
  }

  lemma TurnDelivers(store: Store, p: Progress, ids: set<int>, messages: seq<ReceivedQueueMessage>,
                     received: seq<PathEquivalence.Received>, i: nat, s: Settings, clocks: nat -> Clock,
                     fails: nat -> bool, g: PathEquivalence.Setting)
    requires Assumed(store, ids, messages, received, s, clocks, fails, g) && i < |messages|
    requires DeliveredFirst(store, p, received, i, g)
    ensures var q := Handle(p, messages[i], s, clocks(i), fails);
            if ClashesAt(store, received, i, g) then q.error == Some(IntegrityError)
            else DeliveredFirst(store, q, received, i + 1, g)
  {
    var done := FirstEvents(received, i);
    OneEventMore(received, i);
    assert done <= ids;
    if received[i].event in done {
      var k: nat :| k < i && received[k].event == received[i].event;
      assert !ClashesAt(store, received, k, g);
    }
    OneMoreForWorker(store, p, ids, done, messages[i], received[i], s, clocks(i), fails, g);
  }

  lemma OneEventMore(received: seq<PathEquivalence.Received>, i: nat)
    requires i < |received|
    ensures FirstEvents(received, i + 1) == FirstEvents(received, i) + {received[i].event}
  {
  }

  lemma {:induction false} TurnsDeliver(store: Store, p: Progress, ids: set<int>, messages: seq<ReceivedQueueMessage>,
                                        received: seq<PathEquivalence.Received>, i: nat, s: Settings,
                                        clocks: nat -> Clock, fails: nat -> bool, g: PathEquivalence.Setting)
    requires Assumed(store, ids, messages, received, s, clocks, fails, g) && i <= |messages|
    requires DeliveredFirst(store, p, received, i, g)
    ensures var q := HandleFrom(p, messages, i, s, clocks, fails);
            if exists k: nat :: ClashesAt(store, received, k, g) then q.error == Some(IntegrityError)
            else DeliveredFirst(store, q, received, |messages|, g)
    decreases |messages| - i
  {
    if i == |messages| {
    } else {
      var q := Handle(p, messages[i], s, clocks(i), fails);
      TurnDelivers(store, p, ids, messages, received, i, s, clocks, fails, g);
      if !ClashesAt(store, received, i, g) {
        TurnsDeliver(store, q, ids, messages, received, i + 1, s, clocks, fails, g);
      }
    }
  }

  lemma AllEvents(received: seq<PathEquivalence.Received>)
    ensures FirstEvents(received, 0) == {} && FirstEvents(received, |received|) == PathEquivalence.Events(received)
  {
    assert forall m :: m in received <==> exists k :: 0 <= k < |received| && received[k] == m;
  }

  lemma WorkerDelivers(store: Store, log: seq<Operation>, ids: set<int>, messages: seq<ReceivedQueueMessage>,
                       received: seq<PathEquivalence.Received>, s: Settings, clocks: nat -> Clock, fails: nat -> bool,
                       g: PathEquivalence.Setting)
    requires Assumed(store, ids, messages, received, s, clocks, fails, g)
    ensures var q := HandleEach(Start(store, log), messages, s, clocks, fails);
            if exists k: nat :: ClashesAt(store, received, k, g) then q.error == Some(IntegrityError)
            else DeliveredFirst(store, q, received, |messages|, g)
  {
    AllEvents(received);
    assert PathEquivalence.Reference(store, {}, g).events == store.events;
    TurnsDeliver(store, Start(store, log), ids, messages, received, 0, s, clocks, fails, g);
  }

  /** A worker whose batch holds the messages of one tick, in any order and any number of times,
      finishes it exactly when no event gets a SID the store knew before. Then it leaves the store
      one batch of the direct dispatcher leaves, makes the same requests, and settles every
      message. */
  lemma WorkerEndsLikeDispatcher(store: Store, log: seq<Operation>, messages: seq<ReceivedQueueMessage>,
                                 received: seq<PathEquivalence.Received>, s: Settings, clocks: nat -> Clock,
                                 fails: nat -> bool, g: PathEquivalence.Setting)
    requires Coupling.StoreOk(store) && 1 <= s.batchSize <= MAX_BATCH_SIZE && !BadSettings(s) && s.gate.grace >= 0
    requires Carries(messages, received) && SameSetting(s, clocks, g)
    requires PathEquivalence.Covers(store, s.batchSize, received, g)
    requires forall i :: !fails(i)
    requires PathEquivalence.NoRetryableWeather(store, PathEquivalence.Events(received), g)
    requires PathEquivalence.NoSharedSids(store, PathEquivalence.Events(received), g)
    ensures var p := HandleEach(Start(store, log), messages, s, clocks, fails);
            var d := PathEquivalence.DirectRun(store, s.batchSize, g);
            if exists k: nat :: ClashesAt(store, received, k, g) then p.error == Some(IntegrityError)
            else
              && p.error.None?
              && p.store == d.store
              && multiset(p.calls.message) == multiset(d.calls.message)
                 && multiset(p.calls.demo) == multiset(d.calls.demo)
              && Settlements(p.log) == Settlements(log) + messages
  {
    PathEquivalence.DirectReachesReference(store, s.batchSize, g);
    AllEvents(received);
    WorkerDelivers(store, log, PathEquivalence.Events(received), messages, received, s, clocks, fails, g);
    BatchConserves(store, log, messages, s, clocks, fails);
    var p := HandleEach(Start(store, log), messages, s, clocks, fails);
    var d := PathEquivalence.DirectRun(store, s.batchSize, g);
    if !exists k: nat :: ClashesAt(store, received, k, g) {
      PathEquivalence.SameRequests(p.calls.message, d.calls.message);
      PathEquivalence.SameRequests(p.calls.demo, d.calls.demo);
    }
  }
}
