/** A batch of the queue worker is a run of the protocol: an expanded tick is a series of
    publications, a delivery message is taken from the inbox, delivered and settled, deleting is the
    settlement of an acknowledged message and hiding that of a retained one, and an exception is the
    death of the worker. */
module BatchRuns {
  import opened Records
  import opened Ordering
  import opened Claims
  import opened Delivery
  import opened Envelope
  import opened QueueWorker
  import opened Protocol
  import opened SequentialRuns
  import Json
  import NoStranding
  import RetryBudget

  // ----- the queue as the worker leaves it

  /** An operation of the worker, and the message of the protocol it is about. */
  datatype Traced = Traced(op: Operation, tag: int)

  predicate IsDelivery(m: ReceivedQueueMessage) {
    FromJson(m.body).Some? && FromJson(m.body).value.messageType == WORDS.deliver
  }

  function Asked(m: ReceivedQueueMessage): int
    requires IsDelivery(m)
  {
    assert WORDS.tick != WORDS.deliver by {
      assert |WORDS.tick| == 19 && |WORDS.deliver| == 23;
    }
    FromJson(m.body).value.eventId.value
  }

  function Ops(trace: seq<Traced>): seq<Operation> {
    seq(|trace|, i requires 0 <= i < |trace| => trace[i].op)
  }

  /** Publishing adds a message, and deleting a delivery message takes it away. Ticks and malformed
      messages are not part of the protocol's queue. */
  function Operate(queue: map<int, Message>, x: Traced): map<int, Message> {
    match x.op
    case Publishing(e) => queue[x.tag := Message(if e.eventId.Some? then e.eventId.value else 0, 0, InQueue)]
    case Deleting(m) =>
      if IsDelivery(m) && x.tag in queue then queue[x.tag := queue[x.tag].(place := Deleted)] else queue
    case Hiding(_, _) => queue
  }

  function QueueAfter(queue: map<int, Message>, trace: seq<Traced>): map<int, Message> {
    if trace == [] then queue
    else
      var n := |trace| - 1;
      Operate(QueueAfter(queue, trace[..n]), trace[n])
  }

  // ----- traces

  /** What is settled in the trace is this message, under its tag. */
  ghost predicate SettlesOnly(trace: seq<Traced>, m: ReceivedQueueMessage, tag: int) {
    forall k :: 0 <= k < |trace| ==> trace[k].op.Publishing? || (trace[k].op.message == m && trace[k].tag == tag)
  }

  lemma {:induction false} QueueAfterBoth(queue: map<int, Message>, a: seq<Traced>, b: seq<Traced>)
    ensures QueueAfter(queue, a + b) == QueueAfter(QueueAfter(queue, a), b)
    decreases |b|
  {
    if b == [] {
      assert a + b == a;
    } else {
      var n := |b| - 1;
      QueueAfterBoth(queue, a, b[..n]);
      assert (a + b)[..|a + b| - 1] == a + b[..n];
    }
  }

  lemma QueueAfterOne(queue: map<int, Message>, x: Traced)
    ensures QueueAfter(queue, [x]) == Operate(queue, x)
  {
    assert [x][..0] == [];
  }

  lemma {:induction false} SendsOfBoth(a: seq<Sent>, b: seq<Sent>, toMessageSender: bool)
    ensures SendsOf(a + b, toMessageSender) == SendsOf(a, toMessageSender) + SendsOf(b, toMessageSender)
    decreases |b|
  {
    if b == [] {
      assert a + b == a;
    } else {
      var n := |b| - 1;
      SendsOfBoth(a, b[..n], toMessageSender);
      assert (a + b)[..|a + b| - 1] == a + b[..n];
    }
  }

  /** The calls a history records. */
  function CallsIn(sent: seq<Sent>): Calls {
    Calls(SendsOf(sent, true), SendsOf(sent, false))
  }

  /** A batch receives no message and moves none away. */
  ghost predicate NoReceives(labels: seq<Label>) {
    forall k :: 0 <= k < |labels| ==> !labels[k].Receive? && !labels[k].ToDlq?
  }

  /** The worker goes from `s` to `t` by `labels` while its batch goes from `p` to `q`. */
  ghost predicate BatchGoes(s: Sys, labels: seq<Label>, t: Sys, w: int, p: Progress, q: Progress, trace: seq<Traced>,
                            sent: seq<Sent>, inbox: seq<Receipt>)
  {
    && Follows(s, labels, t) && NoReceives(labels)
    && p.store == s.db && q.store == t.db
    && q.log == p.log + Ops(trace) && t.queue == QueueAfter(s.queue, trace)
    && t.maxReceives == s.maxReceives
    && t.sent == s.sent + sent && q.calls == Joined(p.calls, CallsIn(sent))
    && WorkerOf(t, w) == if q.error.Some? then FREE else Worker(inbox, Idle)
  }

  lemma GoesOn(s: Sys, l1: seq<Label>, t: Sys, l2: seq<Label>, u: Sys, w: int, p: Progress, q: Progress, r: Progress,
               tr1: seq<Traced>, tr2: seq<Traced>, m1: seq<Sent>, m2: seq<Sent>, in1: seq<Receipt>, in2: seq<Receipt>)
    requires BatchGoes(s, l1, t, w, p, q, tr1, m1, in1) && BatchGoes(t, l2, u, w, q, r, tr2, m2, in2)
    ensures BatchGoes(s, l1 + l2, u, w, p, r, tr1 + tr2, m1 + m2, in2)
  {
    FollowsThen(s, l1, t, l2, u);
    QueueAfterBoth(s.queue, tr1, tr2);
    OpsOfBoth(p.log, tr1, tr2);
    CallsOfBoth(p.calls, m1, m2);
    assert s.sent + m1 + m2 == s.sent + (m1 + m2);
  }

  lemma OpsOfBoth(log: seq<Operation>, a: seq<Traced>, b: seq<Traced>)
    ensures log + Ops(a) + Ops(b) == log + Ops(a + b)
  {
    assert Ops(a + b) == Ops(a) + Ops(b);
  }

  lemma CallsOfBoth(calls: Calls, a: seq<Sent>, b: seq<Sent>)
    ensures Joined(Joined(calls, CallsIn(a)), CallsIn(b)) == Joined(calls, CallsIn(a + b))
  {
    SendsOfBoth(a, b, true);
    SendsOfBoth(a, b, false);
  }

  lemma NoCallsIn()
    ensures CallsIn([]) == NO_CALLS
    ensures forall c: Calls :: Joined(c, NO_CALLS) == c
  {
    forall c: Calls ensures Joined(c, NO_CALLS) == c {
      assert c.message + [] == c.message && c.demo + [] == c.demo;
    }
  }

  // ----- the end of a turn

  /** The settlement of a message that asks for no delivery changes nothing but the worker's log. */
  lemma OtherSettles(s: Sys, w: int, p: Progress, m: ReceivedQueueMessage, action: Action, settings: Settings,
                     fails: nat -> bool, tag: int, inbox: seq<Receipt>)
    returns (t: Sys, labels: seq<Label>, trace: seq<Traced>)
    requires p.error.None? && p.store == s.db && WorkerOf(s, w) == Worker(inbox, Idle) && !IsDelivery(m)
    ensures BatchGoes(s, labels, t, w, p, Settled(p, m, action, settings, fails), trace, [], inbox)
    ensures SettlesOnly(trace, m, tag)
  {
    NoCallsIn();
    SettledTells(p, m, action, settings, fails);
    if fails(|p.log|) {
      t, labels, trace := Crashed(s, w), [Crash(w)], [];
      FollowsOne(s, Crash(w));
    } else {
      var op := if action == Acknowledge then Deleting(m)
                else Hiding(m, Backoff(settings.base, settings.max, m.receiveCount));
      t, labels, trace := s, [], [Traced(op, tag)];
      QueueAfterOne(s.queue, trace[0]);
      assert Ops(trace) == [op];
    }
  }

  function Crashed(s: Sys, w: int): Sys {
    Next(s, Crash(w))
  }

  // ----- a malformed message

  lemma MalformedTurn(s: Sys, w: int, p: Progress, m: ReceivedQueueMessage, settings: Settings, clock: Clock,
                      fails: nat -> bool, tag: int, inbox: seq<Receipt>)
    returns (t: Sys, labels: seq<Label>, trace: seq<Traced>)
    requires p.error.None? && p.store == s.db && WorkerOf(s, w) == Worker(inbox, Idle) && FromJson(m.body).None?
    ensures BatchGoes(s, labels, t, w, p, Handle(p, m, settings, clock, fails), trace, [], inbox)
    ensures SettlesOnly(trace, m, tag)
  {
    var q := p.(malformed := p.malformed + 1);
    t, labels, trace := OtherSettles(s, w, q, m, Retry, settings, fails, tag, inbox);
  }

  // ----- a tick

  lemma {:induction false} FreeTag(keys: set<int>) returns (tag: int)
    ensures tag !in keys && forall k :: k in keys ==> k < tag
    decreases |keys|
  {
    if keys == {} {
      tag := 0;
    } else {
      var x := AnElement(keys);
      var other := FreeTag(keys - {x});
      tag := if x < other then other else x + 1;
      forall k | k in keys ensures k < tag {
        if k != x {
          assert k in keys - {x};
        }
      }
    }
  }

  /** One publication, under a tag that is free. */
  lemma PublicationGoes(s: Sys, w: int, p: Progress, id: int, fails: nat -> bool, inbox: seq<Receipt>)
    returns (t: Sys, labels: seq<Label>, trace: seq<Traced>)
    requires p.error.None? && p.store == s.db && WorkerOf(s, w) == Worker(inbox, Idle)
    ensures BatchGoes(s, labels, t, w, p, PublishOne(p, id, fails), trace, [], inbox)
    ensures forall k :: 0 <= k < |trace| ==> trace[k].op.Publishing?
  {
    NoCallsIn();
    var envelope := DeliverEvent(Json.Int(id));
    if envelope.Raised? || fails(|p.log|) {
      t, labels, trace := Crashed(s, w), [Crash(w)], [];
      FollowsOne(s, Crash(w));
    } else {
      var tag := FreeTag(s.queue.Keys);
      t, labels, trace := Next(s, Publish(tag, id)), [Publish(tag, id)], [Traced(Publishing(envelope.value), tag)];
      FollowsOne(s, Publish(tag, id));
      QueueAfterOne(s.queue, trace[0]);
      assert Ops(trace) == [Publishing(envelope.value)];
    }
  }

  lemma {:induction false} PublicationsGo(s: Sys, w: int, p: Progress, ids: seq<int>, fails: nat -> bool,
                                          inbox: seq<Receipt>)
    returns (t: Sys, labels: seq<Label>, trace: seq<Traced>)
    requires p.error.None? && p.store == s.db && WorkerOf(s, w) == Worker(inbox, Idle)
    ensures BatchGoes(s, labels, t, w, p, PublishEach(p, ids, fails), trace, [], inbox)
    ensures forall k :: 0 <= k < |trace| ==> trace[k].op.Publishing?
    decreases |ids|
  {
    if ids == [] {
      NoCallsIn();
      t, labels, trace := s, [], [];
    } else {
      var n := |ids| - 1;
      var m, l1, tr1 := PublicationsGo(s, w, p, ids[..n], fails, inbox);
      var before := PublishEach(p, ids[..n], fails);
      if before.error.Some? {
        t, labels, trace := m, l1, tr1;
      } else {
        var u, l2, tr2 := PublicationGoes(m, w, before, ids[n], fails, inbox);
        GoesOn(s, l1, m, l2, u, w, p, before, PublishEach(p, ids, fails), tr1, tr2, [], [], inbox, inbox);
        t, labels, trace := u, l1 + l2, tr1 + tr2;
      }
    }
  }

  lemma TickGoes(s: Sys, w: int, p: Progress, now: int, settings: Settings, fails: nat -> bool, inbox: seq<Receipt>)
    returns (t: Sys, labels: seq<Label>, trace: seq<Traced>)
    requires p.error.None? && p.store == s.db && WorkerOf(s, w) == Worker(inbox, Idle)
    ensures BatchGoes(s, labels, t, w, p, PublishDue(p, now, settings.batchSize, settings.gate.allowReal, fails), trace,
                      [], inbox)
    ensures forall k :: 0 <= k < |trace| ==> trace[k].op.Publishing?
  {
    if 1 <= settings.batchSize <= MAX_BATCH_SIZE {
      var ids := OldestDue(p.store, {}, now, settings.batchSize, settings.gate.allowReal);
      t, labels, trace := PublicationsGo(s, w, p, ids, fails, inbox);
    } else {
      NoCallsIn();
      FollowsOne(s, Crash(w));
      t, labels, trace := Crashed(s, w), [Crash(w)], [];
    }
  }

  lemma TickTurn(s: Sys, w: int, p: Progress, m: ReceivedQueueMessage, settings: Settings, clock: Clock,
                 fails: nat -> bool, tag: int, inbox: seq<Receipt>)
    returns (t: Sys, labels: seq<Label>, trace: seq<Traced>)
    requires p.error.None? && p.store == s.db && WorkerOf(s, w) == Worker(inbox, Idle)
    requires FromJson(m.body).Some? && FromJson(m.body).value.messageType == WORDS.tick
    ensures BatchGoes(s, labels, t, w, p, Handle(p, m, settings, clock, fails), trace, [], inbox)
    ensures SettlesOnly(trace, m, tag)
  {
    assert |WORDS.tick| == 19 && |WORDS.deliver| == 23;
    var published := PublishDue(p, clock.now, settings.batchSize, settings.gate.allowReal, fails);
    t, labels, trace := TickGoes(s, w, p, clock.now, settings, fails, inbox);
    if published.error.None? {
      var u, l2, tr2 := OtherSettles(t, w, published, m, Acknowledge, settings, fails, tag, inbox);
      var q := Handle(p, m, settings, clock, fails);
      GoesOn(s, labels, t, l2, u, w, p, published, q, trace, tr2, [], [], inbox, inbox);
      t, labels, trace := u, labels + l2, trace + tr2;
    }
  }

  // ----- a delivery message

  /** The worker holds the message under this tag. */
  predicate Holds(s: Sys, m: ReceivedQueueMessage, tag: int) {
    IsDelivery(m) && tag in s.queue && s.queue[tag].event == Asked(m)
  }

  /** The limit of receives is that of the protocol, unless it is one the service refuses. */
  predicate FitsSettings(s: Sys, settings: Settings) {
    settings.gate.maxReceives >= 1 ==> settings.gate.maxReceives == s.maxReceives
  }

  function CountOf(m: ReceivedQueueMessage): nat {
    if m.receiveCount < 0 then 0 else m.receiveCount
  }

  /** The arguments a queued call refuses with an exception before it claims. */
  predicate Refused(m: ReceivedQueueMessage, settings: Settings) {
    m.receiveCount < 1 || settings.gate.maxReceives < 1 || settings.gate.grace < 0
  }

  /** The exception of a refused call ends the batch, and the worker with it. */
  lemma RefusedCall(s: Sys, w: int, p: Progress, m: ReceivedQueueMessage, settings: Settings, clock: Clock)
    requires p.error.None? && p.store == s.db && IsDelivery(m) && Refused(m, settings)
    ensures var (q, _) := Delivered(p, Asked(m), m.receiveCount, settings, clock);
            && Follows(s, [Crash(w)], Crashed(s, w)) && q.error.Some? && q.store == s.db
            && q.calls == Joined(p.calls, CallsIn([])) && q.log == p.log
  {
    NoCallsIn();
    FollowsOne(s, Crash(w));
  }

  lemma QueuedLabelsReceiveNothing(s: Store, w: int, id: int, gate: Gate, weather: WeatherProvider, senders: Senders,
                                   clock: Clock)
    requires gate.grace >= 0
    ensures NoReceives(QueuedLabels(s, w, id, gate, weather, senders, clock))
  {
  }

  /** The call, and the worker after it: it is about to settle, or dead. */
  lemma DeliveryCall(s: Sys, w: int, p: Progress, m: ReceivedQueueMessage, settings: Settings, clock: Clock, tag: int,
                     inbox: seq<Receipt>)
    returns (t: Sys, labels: seq<Label>, sent: seq<Sent>)
    requires p.error.None? && p.store == s.db && Holds(s, m, tag) && FitsSettings(s, settings)
    requires WorkerOf(s, w) == Worker([Receipt(tag, CountOf(m))] + inbox, Idle)
    ensures var (q, action) := Delivered(p, Asked(m), m.receiveCount, settings, clock);
            && Follows(s, labels, t) && NoReceives(labels)
            && t.db == q.store && t.queue == s.queue && t.maxReceives == s.maxReceives
            && t.sent == s.sent + sent && q.calls == Joined(p.calls, CallsIn(sent)) && q.log == p.log
            && WorkerOf(t, w) == if q.error.Some? then FREE
               else Worker(inbox, Settling(Receipt(tag, CountOf(m)), action))
  {
    if Refused(m, settings) {
      RefusedCall(s, w, p, m, settings, clock);
      t, labels, sent := Crashed(s, w), [Crash(w)], [];
    } else {
      var receipt := Receipt(tag, CountOf(m));
      assert ([receipt] + inbox)[1..] == inbox;
      labels := QueuedLabels(s.db, w, Asked(m), settings.gate, settings.weather, settings.senders, clock);
      QueuedLabelsReceiveNothing(s.db, w, Asked(m), settings.gate, settings.weather, settings.senders, clock);
      t, sent := QueuedCallIsRun(s, w, settings.gate, settings.weather, settings.senders, clock);
    }
  }

  lemma SettleLeaves(s: Sys, w: int, action: Action, tag: int, count: nat, inbox: seq<Receipt>)
    requires tag in s.queue && WorkerOf(s, w) == Worker(inbox, Settling(Receipt(tag, count), action))
    ensures Enabled(s, Settle(w))
    ensures var t := Next(s, Settle(w));
            && t.db == s.db && t.maxReceives == s.maxReceives && t.sent == s.sent
            && WorkerOf(t, w) == Worker(inbox, Idle)
            && t.queue == if action == Acknowledge then s.queue[tag := s.queue[tag].(place := Deleted)] else s.queue
  {
  }

  /** A worker that is about to settle does so, or dies of a queue that is not available. */
  lemma SettleGoes(s: Sys, w: int, p: Progress, m: ReceivedQueueMessage, action: Action, settings: Settings,
                   fails: nat -> bool, tag: int, inbox: seq<Receipt>)
    returns (t: Sys, labels: seq<Label>, trace: seq<Traced>)
    requires p.error.None? && p.store == s.db && Holds(s, m, tag)
    requires WorkerOf(s, w) == Worker(inbox, Settling(Receipt(tag, CountOf(m)), action))
    ensures BatchGoes(s, labels, t, w, p, Settled(p, m, action, settings, fails), trace, [], inbox)
    ensures SettlesOnly(trace, m, tag)
  {
    NoCallsIn();
    SettledTells(p, m, action, settings, fails);
    if fails(|p.log|) {
      t, labels, trace := Crashed(s, w), [Crash(w)], [];
      FollowsOne(s, Crash(w));
    } else {
      var op := if action == Acknowledge then Deleting(m)
                else Hiding(m, Backoff(settings.base, settings.max, m.receiveCount));
      SettleLeaves(s, w, action, tag, CountOf(m), inbox);
      t, labels, trace := Next(s, Settle(w)), [Settle(w)], [Traced(op, tag)];
      FollowsOne(s, Settle(w));
      QueueAfterOne(s.queue, trace[0]);
      assert Ops(trace) == [op];
    }
  }

  lemma DeliveryTurn(s: Sys, w: int, p: Progress, m: ReceivedQueueMessage, settings: Settings, clock: Clock,
                     fails: nat -> bool, tag: int, inbox: seq<Receipt>)
    returns (t: Sys, labels: seq<Label>, trace: seq<Traced>, sent: seq<Sent>)
    requires p.error.None? && p.store == s.db && Holds(s, m, tag) && FitsSettings(s, settings)
    requires WorkerOf(s, w) == Worker([Receipt(tag, CountOf(m))] + inbox, Idle)
    ensures BatchGoes(s, labels, t, w, p, Handle(p, m, settings, clock, fails), trace, sent, inbox)
    ensures SettlesOnly(trace, m, tag)
  {
    var (q, action) := Delivered(p, Asked(m), m.receiveCount, settings, clock);
    var r := Settled(q, m, action, settings, fails);
    TreatedAsDelivery(p, m, settings, clock, fails);
    t, labels, sent := DeliveryCall(s, w, p, m, settings, clock, tag, inbox);
    trace := [];
    if q.error.None? {
      var u, l2, tr2 := SettleGoes(t, w, q, m, action, settings, fails, tag, inbox);
      ThenSettled(s, labels, t, l2, u, w, p, q, r, tr2, sent, inbox);
      t, labels, trace := u, labels + l2, tr2;
    } else {
      assert p.log + Ops([]) == p.log;
    }
  }

  lemma TreatedAsDelivery(p: Progress, m: ReceivedQueueMessage, settings: Settings, clock: Clock, fails: nat -> bool)
    requires IsDelivery(m)
    ensures Treated(p, m, settings, clock, fails) == Delivered(p, Asked(m), m.receiveCount, settings, clock)
  {
    assert |WORDS.tick| == 19 && |WORDS.deliver| == 23;
  }

  lemma ThenSettled(s: Sys, l1: seq<Label>, t: Sys, l2: seq<Label>, u: Sys, w: int, p: Progress, q: Progress,
                    r: Progress, trace: seq<Traced>, sent: seq<Sent>, inbox: seq<Receipt>)
    requires Follows(s, l1, t) && NoReceives(l1) && p.store == s.db && t.queue == s.queue
             && t.maxReceives == s.maxReceives
    requires t.sent == s.sent + sent && q.calls == Joined(p.calls, CallsIn(sent)) && q.log == p.log
    requires BatchGoes(t, l2, u, w, q, r, trace, [], inbox)
    ensures BatchGoes(s, l1 + l2, u, w, p, r, trace, sent, inbox)
  {
    FollowsThen(s, l1, t, l2, u);
    CallsOfBoth(p.calls, sent, []);
    assert sent + [] == sent && s.sent + sent + [] == s.sent + sent;
  }

  // ----- a batch

  /** The receipts of the delivery messages from number `i` on. */
  function InboxOf(messages: seq<ReceivedQueueMessage>, tags: seq<int>, i: nat): seq<Receipt>
    requires i <= |messages| == |tags|
    decreases |messages| - i
  {
    if i == |messages| then []
    else
      var rest := InboxOf(messages, tags, i + 1);
      if IsDelivery(messages[i]) then [Receipt(tags[i], CountOf(messages[i]))] + rest else rest
  }

  /** Every delivery message stands for the message of the protocol that its tag names. */
  ghost predicate Tagged(s: Sys, messages: seq<ReceivedQueueMessage>, tags: seq<int>) {
    |messages| == |tags| && forall i :: 0 <= i < |messages| && IsDelivery(messages[i]) ==>
      Holds(s, messages[i], tags[i])
  }

  lemma {:induction false} FollowsKeepsMessages(s: Sys, labels: seq<Label>, t: Sys)
    requires Follows(s, labels, t)
    ensures forall m :: m in s.queue ==> m in t.queue && t.queue[m].event == s.queue[m].event
    decreases |labels|
  {
    if labels == [] {
    } else {
      RetryBudget.QueueGrows(s, labels[0]);
      FollowsKeepsMessages(Next(s, labels[0]), labels[1..], t);
    }
  }

  /** One turn of the loop, whatever the message is. */
  lemma TurnIsRun(s: Sys, w: int, p: Progress, messages: seq<ReceivedQueueMessage>, tags: seq<int>, i: nat,
                  settings: Settings, clock: Clock, fails: nat -> bool)
    returns (t: Sys, labels: seq<Label>, trace: seq<Traced>, sent: seq<Sent>)
    requires p.error.None? && p.store == s.db && Tagged(s, messages, tags) && FitsSettings(s, settings)
             && i < |messages|
    requires WorkerOf(s, w) == Worker(InboxOf(messages, tags, i), Idle)
    ensures BatchGoes(s, labels, t, w, p, Handle(p, messages[i], settings, clock, fails), trace, sent,
                      InboxOf(messages, tags, i + 1))
    ensures SettlesOnly(trace, messages[i], tags[i])
  {
    var m, inbox := messages[i], InboxOf(messages, tags, i + 1);
    if FromJson(m.body).None? {
      sent := [];
      t, labels, trace := MalformedTurn(s, w, p, m, settings, clock, fails, tags[i], inbox);
    } else if IsDelivery(m) {
      t, labels, trace, sent := DeliveryTurn(s, w, p, m, settings, clock, fails, tags[i], inbox);
    } else {
      sent := [];
      t, labels, trace := TickTurn(s, w, p, m, settings, clock, fails, tags[i], inbox);
    }
  }

  /** The settlements of the trace are those of the messages from number `i` on. */
  ghost predicate SettlesFrom(trace: seq<Traced>, messages: seq<ReceivedQueueMessage>, tags: seq<int>, i: nat) {
    forall k :: 0 <= k < |trace| && !trace[k].op.Publishing? ==>
      exists j: nat :: i <= j < |messages| && j < |tags| && trace[k].op.message == messages[j]
          && trace[k].tag == tags[j]
  }

  lemma SettlesMore(a: seq<Traced>, b: seq<Traced>, messages: seq<ReceivedQueueMessage>, tags: seq<int>, i: nat)
    requires i < |messages| == |tags| && SettlesOnly(a, messages[i], tags[i]) && SettlesFrom(b, messages, tags, i + 1)
    ensures SettlesFrom(a + b, messages, tags, i)
  {
    forall k | 0 <= k < |a + b| && !(a + b)[k].op.Publishing?
      ensures exists j: nat :: i <= j < |messages| && j < |tags| && (a + b)[k].op.message == messages[j]
                               && (a + b)[k].tag == tags[j]
    {
      if k >= |a| {
        var x := b[k - |a|];
        var j: nat :| i + 1 <= j < |messages| && j < |tags| && x.op.message == messages[j] && x.tag == tags[j];
      }
    }
  }

  lemma TaggedStays(s: Sys, labels: seq<Label>, t: Sys, messages: seq<ReceivedQueueMessage>, tags: seq<int>)
    requires Follows(s, labels, t) && Tagged(s, messages, tags)
    ensures Tagged(t, messages, tags)
  {
    FollowsKeepsMessages(s, labels, t);
  }

  lemma {:induction false} TurnsAreRun(s: Sys, w: int, p: Progress, messages: seq<ReceivedQueueMessage>, tags: seq<int>,
                                       i: nat, settings: Settings, clocks: nat -> Clock, fails: nat -> bool)
    returns (t: Sys, labels: seq<Label>, trace: seq<Traced>, sent: seq<Sent>)
    requires p.error.None? && p.store == s.db && Tagged(s, messages, tags) && FitsSettings(s, settings)
             && i <= |messages|
    requires WorkerOf(s, w) == Worker(InboxOf(messages, tags, i), Idle)
    ensures BatchGoes(s, labels, t, w, p, HandleFrom(p, messages, i, settings, clocks, fails), trace, sent, [])
    ensures SettlesFrom(trace, messages, tags, i)
    decreases |messages| - i
  {
    if i == |messages| {
      NoCallsIn();
      t, labels, trace, sent := s, [], [], [];
    } else {
      var q := Handle(p, messages[i], settings, clocks(i), fails);
      var inbox := InboxOf(messages, tags, i + 1);
      t, labels, trace, sent := TurnIsRun(s, w, p, messages, tags, i, settings, clocks(i), fails);
      if q.error.Some? {
        assert BatchGoes(s, labels, t, w, p, q, trace, sent, []);
        SettlesMore(trace, [], messages, tags, i);
        assert trace + [] == trace;
      } else {
        TaggedStays(s, labels, t, messages, tags);
        var u, l2, tr2, m2 := TurnsAreRun(t, w, q, messages, tags, i + 1, settings, clocks, fails);
        GoesOn(s, labels, t, l2, u, w, p, q, HandleFrom(q, messages, i + 1, settings, clocks, fails), trace, tr2, sent,
               m2, inbox, []);
        SettlesMore(trace, tr2, messages, tags, i);
        t, labels, trace, sent := u, labels + l2, trace + tr2, sent + m2;
      }
    }
  }

  /** An uninterrupted `process_queue_batch` is a run of its worker, whether it completes or an
      exception ends it: the same store, the same requests, every published message in the queue, every
      deleted delivery message gone from it, and the worker free again. */
  lemma BatchIsRun(s: Sys, w: int, messages: seq<ReceivedQueueMessage>, tags: seq<int>, settings: Settings,
                   clocks: nat -> Clock, fails: nat -> bool)
    returns (t: Sys, labels: seq<Label>, trace: seq<Traced>, sent: seq<Sent>)
    requires Tagged(s, messages, tags) && FitsSettings(s, settings)
    requires WorkerOf(s, w) == Worker(InboxOf(messages, tags, 0), Idle)
    ensures var p := HandleEach(Start(s.db, []), messages, settings, clocks, fails);
            && Follows(s, labels, t) && NoReceives(labels) && t.db == p.store && WorkerOf(t, w) == FREE
            && Ops(trace) == p.log && t.queue == QueueAfter(s.queue, trace)
            && t.sent == s.sent + sent && p.calls == CallsIn(sent)
    ensures SettlesFrom(trace, messages, tags, 0)
  {
    var p := Start(s.db, []);
    t, labels, trace, sent := TurnsAreRun(s, w, p, messages, tags, 0, settings, clocks, fails);
    assert [] + Ops(trace) == Ops(trace);
    assert Joined(NO_CALLS, CallsIn(sent)) == CallsIn(sent);
  }

  /** A run in which messages are handed out one at a time stays such a run when a batch follows. */
  lemma BatchContinuesLeasedRun(states: seq<Sys>, before: seq<Label>, labels: seq<Label>, t: Sys)
    returns (all: seq<Sys>)
    requires NoStranding.LeasedRun(states, before) && Follows(states[|before|], labels, t) && NoReceives(labels)
    ensures NoStranding.LeasedRun(all, before + labels) && all[|before| + |labels|] == t
  {
    all := FollowsContinues(states, before, labels, t);
    var ls := before + labels;
    forall i | 0 <= i < |ls| ensures NoStranding.Leased(all[i], ls[i]) {
      if i < |before| {
        assert all[i] == states[i] && NoStranding.Leased(states[i], before[i]);
      } else {
        assert ls[i] == labels[i - |before|];
      }
    }
  }
}
