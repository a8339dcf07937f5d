/** The queued path and the direct dispatcher deliver the same.

    One tick publishes the ids of a bounded, oldest-first selection of due events; workers
    then process the published messages in any order and any number of times. Without
    contention and without retryable weather failures that leaves the very store one batch
    of the direct dispatcher leaves. */
module PathEquivalence {
  import opened Records
  import opened Tables
  import opened Ordering
  import opened Claims
  import opened Delivery
  import opened Coupling
  import opened BatchClaims
  import opened Outcomes

  /** What both paths get: the providers, the settings, and the clock. */
  datatype Setting = Setting(weather: WeatherProvider, senders: Senders, gate: Gate, clock: Clock)

  // ----- the reference: what becomes of one event

  function FailedEntry(y: Entry, k: nat, code: ErrorCode, at: int): Entry
    requires k < |y.attempts|
  {
    Entry(Moved(y.row, Failed, at), y.attempts[k := Ended(y.attempts[k], AttemptFailed, at).(error := code)])
  }

  function SuccessEntry(y: Entry, k: nat, message: string, sid: Option<string>, at: int): Entry
    requires k < |y.attempts|
  {
    var status := TerminalStatus(y.row);
    Entry(Moved(y.row, EventStatusOf(status), at),
          y.attempts[k := Ended(y.attempts[k], status, at).(message := message, sid := sid)])
  }

  /** The entry of a claimed event after its delivery. */
  function DeliveredEntry(y: Entry, c: Claim, g: Setting): Entry
    requires c.index < |y.attempts|
  {
    var at := g.clock.later;
    match g.weather(LookupFor(c))
    case WeatherError(exc, _) => FailedEntry(y, c.index, Plain(exc), at)
    case Weather(message) =>
      match SendClaimed(c, g.senders, message)
      case NoSender => FailedEntry(y, c.index, Plain(NOT_CONFIGURED), at)
      case Called(_, SendError(exc)) => FailedEntry(y, c.index, Plain(exc), at)
      case Called(_, Accepted(sid)) => SuccessEntry(y, c.index, message, sid, at)
  }

  /** What is sent for a claim. */
  function CallsFor(c: Claim, g: Setting): Calls {
    match g.weather(LookupFor(c))
    case WeatherError(_, _) => NO_CALLS
    case Weather(message) =>
      var sending := SendClaimed(c, g.senders, message);
      if sending.Called? then sending.calls else NO_CALLS
  }

  /** The provider SID the delivery of a claim yields. */
  function SidOf(c: Claim, g: Setting): Option<string> {
    match g.weather(LookupFor(c))
    case WeatherError(_, _) => None
    case Weather(message) =>
      match SendClaimed(c, g.senders, message)
      case Called(_, Accepted(sid)) => sid
      case _ => None
  }

  /** The provider SID the delivery of a pending event yields, if it is delivered. */
  function FreshSid(s: Store, id: int, g: Setting): Option<string>
    requires id in s.events
  {
    if Late(s.events[id].row, g.clock.now, g.gate.grace) then None else SidOf(FreshClaim(s, id, g.clock.now), g)
  }

  /** An attempt of the store holds this SID. */
  predicate SidKnown(s: Store, sid: string) {
    exists e :: e in s.events && SidAmong(s.events[e].attempts, sid, None)
  }

  /** The provider gives the event a SID that the store knew before. */
  predicate Clashes(s: Store, id: int, g: Setting)
    requires id in s.events
  {
    FreshSid(s, id, g).Some? && SidKnown(s, FreshSid(s, id, g).value)
  }

  /** The final entry of an event that was pending and due in `s`: after a clash it stays claimed. */
  function FinalEntry(s: Store, id: int, g: Setting): Entry
    requires id in s.events
  {
    var x := s.events[id];
    if Late(x.row, g.clock.now, g.gate.grace) then MissedEntry(x, g.clock.now)
    else if Clashes(s, id, g) then ClaimedEntry(x, g.clock.now)
    else DeliveredEntry(ClaimedEntry(x, g.clock.now), FreshClaim(s, id, g.clock.now), g)
  }

  function FinalCalls(s: Store, id: int, g: Setting): Calls
    requires id in s.events
  {
    if Late(s.events[id].row, g.clock.now, g.gate.grace) then NO_CALLS
    else CallsFor(FreshClaim(s, id, g.clock.now), g)
  }

  /** The store with the events `done` delivered and every other one as in `s`. */
  function Reference(s: Store, done: set<int>, g: Setting): Store {
    s.(events := map e | e in s.events :: if e in done then FinalEntry(s, e, g) else s.events[e])
  }

  // ----- the assumptions

  /** The events are pending and due, and nothing keeps the gate from letting them through. */
  ghost predicate Ready(s: Store, ids: set<int>, g: Setting) {
    && StoreOk(s)
    && g.gate.grace >= 0 && g.gate.maxReceives >= 1
    && forall id :: id in ids ==> id in DueIds(s, g.clock.now, g.gate.allowReal)
  }

  ghost predicate NoRetryableWeather(s: Store, ids: set<int>, g: Setting) {
    forall id :: id in ids && id in s.events ==>
      var reply := g.weather(LookupFor(FreshClaim(s, id, g.clock.now)));
      reply.WeatherError? ==> !reply.retryable
  }

  /** No two of the events get the same SID, unless it is one the store knew before. */
  ghost predicate NoSharedSids(s: Store, ids: set<int>, g: Setting) {
    forall a, b | a in ids && b in ids && a in s.events && b in s.events && a != b ::
      FreshSid(s, a, g).Some? && FreshSid(s, a, g) == FreshSid(s, b, g) ==> Clashes(s, a, g)
  }

  // ----- one delivery

  /** A delivery is recorded, unless its SID is taken; the requests are made either way. */
  lemma ExecuteIsDelivered(t: Store, c: Claim, g: Setting)
    requires c.event in t.events && Holds(t.events[c.event], c)
    ensures var x := Execute(t, c, g.weather, g.senders, g.clock.later);
            && x.calls == CallsFor(c, g)
            && if SidOf(c, g).Some? && SidTaken(t, SidOf(c, g).value, c.event, c.index) then
                 x.store == t && x.result == Raised(IntegrityError)
               else
                 && x.store == WithEntry(t, c.event, DeliveredEntry(t.events[c.event], c, g))
                 && (x.result.Ok? || x.result.error.ProviderError?)
  {
  }

  /** Without a retryable weather failure the queued path executes as the direct one. */
  lemma QueuedIsDirect(t: Store, c: Claim, receiveCount: int, g: Setting)
    requires var reply := g.weather(LookupFor(c)); reply.WeatherError? ==> !reply.retryable
    ensures var q := ExecuteQueued(t, c, receiveCount, g.gate.maxReceives, g.weather, g.senders, g.clock.later);
            var x := Execute(t, c, g.weather, g.senders, g.clock.later);
            && q.store == x.store && q.calls == x.calls
            && q.result == (if x.result.Ok? || x.result.error.ProviderError? then Ok(Acknowledge)
                            else Raised(x.result.error))
  {
  }

  /** A delivery that is over, or that a clash left claimed. */
  ghost predicate Done(y: Entry) {
    Coupled(y) && (Delivered(y) || InFlight(y))
  }

  lemma FinalEntryIsDone(s: Store, ids: set<int>, id: int, g: Setting)
    requires Ready(s, ids, g) && id in ids
    ensures var y := FinalEntry(s, id, g);
            && Done(y) && |y.attempts| == 1
            && (y.attempts[0].sid.Some? ==> !Clashes(s, id, g) && y.attempts[0].sid == FreshSid(s, id, g))
  {
    ClaimedEntryIsClaim(s.events[id], g.clock.now);
  }

  /** The store `t` is `s` with some events delivered and others claimed. */
  ghost predicate Between(s: Store, t: Store, ids: set<int>, done: set<int>, g: Setting) {
    && t.events.Keys == s.events.Keys
    && forall e :: e in s.events ==>
         if e in done then t.events[e] == FinalEntry(s, e, g)
         else if e in ids then forall j :: 0 <= j < |t.events[e].attempts| ==> t.events[e].attempts[j].sid.None?
         else t.events[e] == s.events[e]
  }

  lemma KnownSidIsTaken(s: Store, t: Store, ids: set<int>, done: set<int>, id: int, k: nat, sid: string, g: Setting)
    requires Ready(s, ids, g) && Between(s, t, ids, done, g) && done <= ids && id in ids
    requires SidKnown(s, sid)
    ensures SidTaken(t, sid, id, k)
  {
    var e :| e in s.events && SidAmong(s.events[e].attempts, sid, None);
    assert Coupled(s.events[e]);
    assert e !in ids;
    var j :| 0 <= j < |s.events[e].attempts| && s.events[e].attempts[j].sid == Some(sid);
    assert SidAmong(t.events[e].attempts, sid, None);
  }

  lemma NewSidIsFree(s: Store, t: Store, ids: set<int>, done: set<int>, id: int, k: nat, g: Setting)
    requires Ready(s, ids, g) && Between(s, t, ids, done, g) && done <= ids && id in ids && id !in done
    requires FreshSid(s, id, g).Some? && !Clashes(s, id, g)
    requires forall e :: e in done ==> FreshSid(s, e, g) != FreshSid(s, id, g)
    ensures !SidTaken(t, FreshSid(s, id, g).value, id, k)
  {
    var sid := FreshSid(s, id, g);
    forall e, j | e in t.events && 0 <= j < |t.events[e].attempts| ensures t.events[e].attempts[j].sid != sid {
      if e in done {
        FinalEntryIsDone(s, ids, e, g);
      } else if e !in ids {
        assert !SidAmong(s.events[e].attempts, sid.value, None);
      }
    }
  }

  /** Where other events are delivered, the SID of one more is taken exactly when it clashes. */
  lemma SidIsTaken(s: Store, t: Store, ids: set<int>, done: set<int>, id: int, k: nat, g: Setting)
    requires Ready(s, ids, g) && NoSharedSids(s, ids, g) && Between(s, t, ids, done, g)
    requires done <= ids && id in ids && id !in done && FreshSid(s, id, g).Some?
    ensures SidTaken(t, FreshSid(s, id, g).value, id, k) <==> Clashes(s, id, g)
  {
    if Clashes(s, id, g) {
      KnownSidIsTaken(s, t, ids, done, id, k, FreshSid(s, id, g).value, g);
    } else {
      forall e | e in done ensures FreshSid(s, e, g) != FreshSid(s, id, g) {
      }
      NewSidIsFree(s, t, ids, done, id, k, g);
    }
  }

  // ----- the queued path

  /** A received delivery message. */
  datatype Received = Received(event: int, receiveCount: int)

  datatype QueueResult = QueueResult(store: Store, calls: Calls)

  function ProcessEach(s: Store, messages: seq<Received>, g: Setting): QueueResult {
    if messages == [] then QueueResult(s, NO_CALLS)
    else
      var n := |messages| - 1;
      var before := ProcessEach(s, messages[..n], g);
      var q := ProcessQueued(before.store, messages[n].event, messages[n].receiveCount, g.gate, g.weather, g.senders,
                             g.clock);
      QueueResult(q.store, Joined(before.calls, q.calls))
  }

  function Events(messages: seq<Received>): set<int> {
    set m | m in messages :: m.event
  }

  /** A message for an event that was delivered before: nothing happens. */
  lemma RedeliveryIsNothing(t: Store, id: int, receiveCount: int, g: Setting)
    requires id in t.events && Done(t.events[id]) && receiveCount >= 1 && g.gate.grace >= 0 && g.gate.maxReceives >= 1
    ensures var q := ProcessQueued(t, id, receiveCount, g.gate, g.weather, g.senders, g.clock);
            q.store == t && q.calls == NO_CALLS && q.result.Ok?
  {
    LatestIsLast(t.events[id].attempts);
  }

  lemma OneMoreDone(s: Store, t: Store, done: set<int>, id: int, y: Entry, g: Setting)
    requires id in s.events && id !in done && t == Reference(s, done, g) && y == FinalEntry(s, id, g)
    ensures WithEntry(t, id, y) == Reference(s, done + {id}, g)
  {
  }

  /** The store where `id` is claimed and the events `done` are delivered. */
  function ClaimedAmong(s: Store, done: set<int>, id: int, g: Setting): Store
    requires id in s.events
  {
    WithEntry(Reference(s, done, g), id, ClaimedEntry(s.events[id], g.clock.now))
  }

  lemma ClaimedIsBetween(s: Store, ids: set<int>, done: set<int>, id: int, g: Setting)
    requires Ready(s, ids, g) && done <= ids && id in ids && id !in done
    ensures Between(s, ClaimedAmong(s, done, id, g), ids, done, g)
  {
    forall e | e in s.events && e in ids ensures s.events[e].attempts == [] {
      assert Coupled(s.events[e]);
    }
  }

  /** The first message for an event that is on time, when its SID is taken just if it clashes. */
  lemma FirstOnTime(s: Store, ids: set<int>, done: set<int>, id: int, receiveCount: int, g: Setting)
    requires Ready(s, ids, g) && NoRetryableWeather(s, ids, g)
    requires done <= ids && id in ids && id !in done && receiveCount >= 1
    requires !Late(s.events[id].row, g.clock.now, g.gate.grace)
    requires FreshSid(s, id, g).Some? ==>
               (SidTaken(ClaimedAmong(s, done, id, g), FreshSid(s, id, g).value, id, 0) <==> Clashes(s, id, g))
    ensures var u := ClaimedAmong(s, done, id, g);
            var q := ExecuteQueued(u, FreshClaim(s, id, g.clock.now), receiveCount, g.gate.maxReceives, g.weather,
                                   g.senders, g.clock.later);
            && q.store == Reference(s, done + {id}, g) && q.calls == FinalCalls(s, id, g)
            && q.result == (if Clashes(s, id, g) then Raised(IntegrityError) else Ok(Acknowledge))
  {
    var t := Reference(s, done, g);
    var x := s.events[id];
    var u := ClaimedAmong(s, done, id, g);
    var c := FreshClaim(s, id, g.clock.now);
    assert Coupled(x);
    ClaimedEntryIsClaim(x, g.clock.now);
    ExecuteIsDelivered(u, c, g);
    QueuedIsDirect(u, c, receiveCount, g);
    OneMoreDone(s, t, done, id, FinalEntry(s, id, g), g);
    assert WithEntry(u, id, FinalEntry(s, id, g)) == WithEntry(t, id, FinalEntry(s, id, g));
  }

  /** The first message for an event delivers it. */
  lemma FirstDelivery(s: Store, ids: set<int>, done: set<int>, id: int, receiveCount: int, g: Setting)
    requires Ready(s, ids, g) && NoRetryableWeather(s, ids, g) && (NoSharedSids(s, ids, g) || done == {})
    requires done <= ids && id in ids && id !in done && receiveCount >= 1
    ensures var q := ProcessQueued(Reference(s, done, g), id, receiveCount, g.gate, g.weather, g.senders, g.clock);
            && q.store == Reference(s, done + {id}, g) && q.calls == FinalCalls(s, id, g)
            && q.result == (if Clashes(s, id, g) then Raised(IntegrityError) else Ok(Acknowledge))
  {
    var t := Reference(s, done, g);
    var x := s.events[id];
    assert t.events[id] == x;
    if Late(x.row, g.clock.now, g.gate.grace) {
      OneMoreDone(s, t, done, id, MissedEntry(x, g.clock.now), g);
    } else {
      FirstSidIsTaken(s, ids, done, id, g);
      assert ClaimOn(WithEntry(t, id, ClaimedEntry(x, g.clock.now)), id) == FreshClaim(s, id, g.clock.now);
      FirstOnTime(s, ids, done, id, receiveCount, g);
    }
  }

  lemma FirstSidIsTaken(s: Store, ids: set<int>, done: set<int>, id: int, g: Setting)
    requires Ready(s, ids, g) && (NoSharedSids(s, ids, g) || done == {})
    requires done <= ids && id in ids && id !in done
    ensures FreshSid(s, id, g).Some? ==>
              (SidTaken(ClaimedAmong(s, done, id, g), FreshSid(s, id, g).value, id, 0) <==> Clashes(s, id, g))
  {
    if FreshSid(s, id, g).Some? {
      var u := ClaimedAmong(s, done, id, g);
      ClaimedIsBetween(s, ids, done, id, g);
      if Clashes(s, id, g) {
        KnownSidIsTaken(s, u, ids, done, id, 0, FreshSid(s, id, g).value, g);
      } else if done == {} {
        NewSidIsFree(s, u, ids, done, id, 0, g);
      } else {
        SidIsTaken(s, u, ids, done, id, 0, g);
      }
    }
  }

  ghost predicate OncePerEvent(sends: seq<Send>) {
    forall i, j :: 0 <= i < j < |sends| ==> sends[i].event != sends[j].event
  }

  /** The requests of a run are those of the events it delivered, one per event. */
  ghost predicate CallsOf(s: Store, done: set<int>, calls: Calls, g: Setting) {
    && OncePerEvent(calls.message) && OncePerEvent(calls.demo)
    && (forall r :: r in calls.message <==> exists e :: e in done && e in s.events && r in FinalCalls(s, e, g).message)
    && (forall r :: r in calls.demo <==> exists e :: e in done && e in s.events && r in FinalCalls(s, e, g).demo)
  }

  lemma FinalCallsName(s: Store, id: int, g: Setting)
    requires id in s.events
    ensures var calls := FinalCalls(s, id, g);
            && |calls.message| + |calls.demo| <= 1
            && (forall r :: r in calls.message || r in calls.demo ==> r.event == id)
  {
  }

  lemma OneMore(sends: seq<Send>, more: seq<Send>)
    requires OncePerEvent(sends) && |more| <= 1
    requires forall r, q :: r in sends && q in more ==> r.event != q.event
    ensures OncePerEvent(sends + more)
  {
    forall i, j | 0 <= i < j < |sends + more| ensures (sends + more)[i].event != (sends + more)[j].event {
      if j >= |sends| {
        assert (sends + more)[i] == sends[i] && (sends + more)[j] == more[j - |sends|];
      }
    }
  }

  lemma CallsGrow(s: Store, done: set<int>, calls: Calls, id: int, g: Setting)
    requires id in s.events && id !in done && CallsOf(s, done, calls, g)
    ensures CallsOf(s, done + {id}, Joined(calls, FinalCalls(s, id, g)), g)
  {
    var more := FinalCalls(s, id, g);
    FinalCallsName(s, id, g);
    forall r | r in calls.message || r in calls.demo ensures r.event in done {
      forall e | e in done && e in s.events
        ensures r in FinalCalls(s, e, g).message || r in FinalCalls(s, e, g).demo ==> r.event == e
      {
        FinalCallsName(s, e, g);
      }
    }
    OneMore(calls.message, more.message);
    OneMore(calls.demo, more.demo);
  }

  /** Whatever was delivered before, one more message leaves the reference with its event. */
  lemma OneMoreMessage(s: Store, ids: set<int>, done: set<int>, calls: Calls, m: Received, g: Setting)
    requires Ready(s, ids, g) && NoRetryableWeather(s, ids, g) && NoSharedSids(s, ids, g)
    requires done <= ids && m.event in ids && m.receiveCount >= 1 && CallsOf(s, done, calls, g)
    ensures var q := ProcessQueued(Reference(s, done, g), m.event, m.receiveCount, g.gate, g.weather, g.senders,
                                   g.clock);
            && q.store == Reference(s, done + {m.event}, g) && CallsOf(s, done + {m.event}, Joined(calls, q.calls), g)
            && (m.event in done ==> q.result.Ok?)
            && (m.event !in done ==>
                  q.result == if Clashes(s, m.event, g) then Raised(IntegrityError) else Ok(Acknowledge))
  {
    if m.event in done {
      FinalEntryIsDone(s, ids, m.event, g);
      RedeliveryIsNothing(Reference(s, done, g), m.event, m.receiveCount, g);
      assert done + {m.event} == done;
      assert Joined(calls, NO_CALLS) == calls;
    } else {
      FirstDelivery(s, ids, done, m.event, m.receiveCount, g);
      CallsGrow(s, done, calls, m.event, g);
    }
  }

  /** However the messages are ordered and repeated, the queued path ends in the reference. */
  lemma {:induction false} QueuedReachesReference(s: Store, ids: set<int>, messages: seq<Received>, g: Setting)
    requires Ready(s, ids, g) && NoRetryableWeather(s, ids, g) && NoSharedSids(s, ids, g)
    requires Events(messages) <= ids
    requires forall i :: 0 <= i < |messages| ==> messages[i].receiveCount >= 1
    ensures var r := ProcessEach(s, messages, g);
            r.store == Reference(s, Events(messages), g) && CallsOf(s, Events(messages), r.calls, g)
  {
    if messages == [] {
      assert Reference(s, Events(messages), g).events == s.events;
    } else {
      var n, m := |messages| - 1, messages[|messages| - 1];
      assert messages == messages[..n] + [m];
      assert Events(messages) == Events(messages[..n]) + {m.event};
      QueuedReachesReference(s, ids, messages[..n], g);
      OneMoreMessage(s, ids, Events(messages[..n]), ProcessEach(s, messages[..n], g).calls, m, g);
    }
  }

  // ----- the direct path

  /** The store after a batch claimed all of `ids` and executed the claims of `done`. */
  function Underway(s: Store, ids: set<int>, done: set<int>, g: Setting): Store {
    s.(events := map e | e in s.events ::
         if e in done then FinalEntry(s, e, g)
         else if e in ids then TakenEntry(s.events[e], g.clock.now, g.gate.grace)
         else s.events[e])
  }

  lemma UnderwayIsBetween(s: Store, ids: set<int>, done: set<int>, g: Setting)
    requires Ready(s, ids, g) && done <= ids
    ensures Between(s, Underway(s, ids, done, g), ids, done, g)
  {
    forall e | e in s.events && e in ids ensures s.events[e].attempts == [] {
      assert Coupled(s.events[e]);
    }
  }

  lemma DirectDelivery(s: Store, ids: set<int>, done: set<int>, id: int, g: Setting)
    requires Ready(s, ids, g) && NoSharedSids(s, ids, g)
    requires done <= ids && id in ids && id !in done && !Late(s.events[id].row, g.clock.now, g.gate.grace)
    ensures var x := Execute(Underway(s, ids, done, g), FreshClaim(s, id, g.clock.now), g.weather, g.senders,
                             g.clock.later);
            x.store == Underway(s, ids, done + {id}, g) && x.calls == FinalCalls(s, id, g)
  {
    var t := Underway(s, ids, done, g);
    var c := FreshClaim(s, id, g.clock.now);
    ClaimedEntryIsClaim(s.events[id], g.clock.now);
    if SidOf(c, g).Some? {
      UnderwayIsBetween(s, ids, done, g);
      SidIsTaken(s, t, ids, done, id, c.index, g);
    }
    ExecuteIsDelivered(t, c, g);
    assert WithEntry(t, id, FinalEntry(s, id, g)) == Underway(s, ids, done + {id}, g);
  }

  lemma {:induction false} DirectReaches(s: Store, ids: set<int>, onTime: seq<int>, g: Setting)
    requires Ready(s, ids, g) && NoSharedSids(s, ids, g)
    requires BatchClaims.Known(s, onTime) && Distinct(onTime)
    requires forall i :: 0 <= i < |onTime| ==>
               onTime[i] in ids && !Late(s.events[onTime[i]].row, g.clock.now, g.gate.grace)
    ensures var d := ExecuteEach(Underway(s, ids, {}, g), FreshClaims(s, onTime, g.clock.now), g.weather, g.senders,
                                 g.clock.later);
            d.store == Underway(s, ids, Elements(onTime), g) && CallsOf(s, Elements(onTime), d.calls, g)
  {
    var claims := FreshClaims(s, onTime, g.clock.now);
    if onTime == [] {
      assert Elements(onTime) == {};
    } else {
      var n, id := |onTime| - 1, onTime[|onTime| - 1];
      assert onTime == onTime[..n] + [id];
      assert id !in onTime[..n];
      assert Elements(onTime) == Elements(onTime[..n]) + {id};
      assert claims[..n] == FreshClaims(s, onTime[..n], g.clock.now) && claims[n] == FreshClaim(s, id, g.clock.now);
      DirectReaches(s, ids, onTime[..n], g);
      forall e | e in Elements(onTime[..n]) ensures e in ids {
      }
      DirectDelivery(s, ids, Elements(onTime[..n]), id, g);
      assert id !in Elements(onTime[..n]);
      CallsGrow(s, Elements(onTime[..n]),
                ExecuteEach(Underway(s, ids, {}, g), claims[..n], g.weather, g.senders, g.clock.later).calls, id, g);
    }
  }

  /** The batch of the direct dispatcher. */
  function DirectRun(s: Store, size: int, g: Setting): DispatchRun
    requires 1 <= size <= MAX_BATCH_SIZE && g.gate.grace >= 0
  {
    var b := ClaimBatch(s, {}, g.clock.now, size, g.gate.grace, g.gate.allowReal).value;
    ExecuteEach(b.store, b.deliveries, g.weather, g.senders, g.clock.later)
  }

  /** The ids one tick publishes. */
  function Published(s: Store, size: nat, g: Setting): seq<int> {
    OldestDue(s, {}, g.clock.now, size, g.gate.allowReal)
  }

  lemma AllTaken(s: Store, order: seq<int>, t: Store, g: Setting)
    requires t.events.Keys == s.events.Keys && t.phones == s.phones && t.sms == s.sms
    requires forall e :: e in s.events ==>
               t.events[e] == if e in order then TakenEntry(s.events[e], g.clock.now, g.gate.grace) else s.events[e]
    ensures t == Underway(s, Elements(order), {}, g)
  {
    var u := Underway(s, Elements(order), {}, g);
    forall e | e in s.events ensures t.events[e] == u.events[e] {
      assert e in order <==> e in Elements(order);
    }
    assert t.events == u.events;
  }

  /** The batch claim leaves every selected event claimed or missed. */
  lemma BatchIsUnderway(s: Store, size: int, g: Setting)
    requires StoreOk(s) && g.gate.grace >= 0 && g.gate.maxReceives >= 1 && 1 <= size <= MAX_BATCH_SIZE
    ensures var order := Published(s, size, g);
            && BatchClaims.Known(s, order)
            && Ready(s, Elements(order), g)
            && var onTime := Sifted(s, order, g.clock.now, g.gate.grace, false);
               var b := ClaimBatch(s, {}, g.clock.now, size, g.gate.grace, g.gate.allowReal).value;
               && Distinct(onTime)
               && b.store == Underway(s, Elements(order), {}, g)
               && b.deliveries == FreshClaims(s, onTime, g.clock.now)
  {
    var now, grace, includeReal := g.clock.now, g.gate.grace, g.gate.allowReal;
    var order := Published(s, size, g);
    assert DueIds(s, now, includeReal) - {} == DueIds(s, now, includeReal);
    SelectedIsTakeable(s, {}, now, size, includeReal);
    EachEntry(s, order, now, grace);
    EachSplits(s, order, now, grace);
    SiftedSplits(s, order, now, grace);
    AllTaken(s, order, ClaimEach(s, order, now, grace).store, g);
  }

  lemma OnTimeAreSelected(s: Store, order: seq<int>, now: int, grace: int)
    requires BatchClaims.Known(s, order) && Distinct(order)
    ensures forall i :: 0 <= i < |Sifted(s, order, now, grace, false)| ==>
              var e := Sifted(s, order, now, grace, false)[i];
              e in Elements(order) && e in s.events && !Late(s.events[e].row, now, grace)
  {
    SiftedSplits(s, order, now, grace);
  }

  lemma DirectReachesReference(s: Store, size: int, g: Setting)
    requires StoreOk(s) && g.gate.grace >= 0 && g.gate.maxReceives >= 1 && 1 <= size <= MAX_BATCH_SIZE
    requires NoSharedSids(s, Elements(Published(s, size, g)), g)
    ensures var ids := Elements(Published(s, size, g));
            && Ready(s, ids, g)
            && DirectRun(s, size, g).store == Reference(s, ids, g)
            && CallsOf(s, ids, DirectRun(s, size, g).calls, g)
  {
    var order := Published(s, size, g);
    var ids := Elements(order);
    BatchIsUnderway(s, size, g);
    UnlockedSelection(s, g.clock.now, size, g.gate.allowReal);
    var onTime := Sifted(s, order, g.clock.now, g.gate.grace, false);
    OnTimeAreSelected(s, order, g.clock.now, g.gate.grace);
    OnTimeOrLate(s, order, g.clock.now, g.gate.grace);
    DirectReaches(s, ids, onTime, g);
    UnderwayIsReference(s, ids, Elements(onTime), g);
    LateSendNothing(s, ids, Elements(onTime), DirectRun(s, size, g).calls, g);
  }

  lemma UnderwayIsReference(s: Store, ids: set<int>, onTime: set<int>, g: Setting)
    requires onTime <= ids && ids <= s.events.Keys
    requires forall e :: e in ids && !Late(s.events[e].row, g.clock.now, g.gate.grace) ==> e in onTime
    ensures Underway(s, ids, onTime, g) == Reference(s, ids, g)
  {
  }

  lemma {:induction false} OnTimeOrLate(s: Store, order: seq<int>, now: int, grace: int)
    requires BatchClaims.Known(s, order)
    ensures forall e :: e in order && !Late(s.events[e].row, now, grace) ==> e in Sifted(s, order, now, grace, false)
  {
    if order == [] {
    } else {
      assert order == order[..|order| - 1] + [order[|order| - 1]];
      OnTimeOrLate(s, order[..|order| - 1], now, grace);
    }
  }

  lemma LateSendNothing(s: Store, ids: set<int>, onTime: set<int>, calls: Calls, g: Setting)
    requires onTime <= ids && ids <= s.events.Keys && CallsOf(s, onTime, calls, g)
    requires forall e :: e in ids && !Late(s.events[e].row, g.clock.now, g.gate.grace) ==> e in onTime
    ensures CallsOf(s, ids, calls, g)
  {
  }

  lemma {:induction false} CountedOnce(a: seq<Send>, r: Send)
    requires OncePerEvent(a)
    ensures multiset(a)[r] == if r in a then 1 else 0
  {
    if a == [] {
    } else {
      var n := |a| - 1;
      CountedOnce(a[..n], r);
      assert a == a[..n] + [a[n]];
    }
  }

  lemma SameRequests(a: seq<Send>, b: seq<Send>)
    requires OncePerEvent(a) && OncePerEvent(b)
    requires forall r :: r in a <==> r in b
    ensures multiset(a) == multiset(b)
  {
    forall r ensures multiset(a)[r] == multiset(b)[r] {
      CountedOnce(a, r);
      CountedOnce(b, r);
    }
  }

  // ----- the theorem

  /** Publishing one tick and processing the published ids, in any order and with any
      duplicates, leaves the same store as one batch of the direct dispatcher over the same
      due events, and each sender gets the same requests, each of them as often. */
  lemma PathsAgree(s: Store, size: int, messages: seq<Received>, g: Setting)
    requires StoreOk(s) && g.gate.grace >= 0 && g.gate.maxReceives >= 1 && 1 <= size <= MAX_BATCH_SIZE
    requires Covers(s, size, messages, g)
    requires NoRetryableWeather(s, Events(messages), g) && NoSharedSids(s, Events(messages), g)
    ensures ProcessEach(s, messages, g).store == DirectRun(s, size, g).store
    ensures multiset(ProcessEach(s, messages, g).calls.message) == multiset(DirectRun(s, size, g).calls.message)
    ensures multiset(ProcessEach(s, messages, g).calls.demo) == multiset(DirectRun(s, size, g).calls.demo)
  {
    DirectReachesReference(s, size, g);
    QueuedReachesReference(s, Events(messages), messages, g);
    var queued, direct := ProcessEach(s, messages, g).calls, DirectRun(s, size, g).calls;
    SameRequests(queued.message, direct.message);
    SameRequests(queued.demo, direct.demo);
  }

  /** The messages are those of one tick, in some order and each of them at least once. */
  ghost predicate Covers(s: Store, size: nat, messages: seq<Received>, g: Setting) {
    && Events(messages) == Elements(Published(s, size, g))
    && forall i :: 0 <= i < |messages| ==> messages[i].receiveCount >= 1
  }

  // ----- the condition on SIDs is exact

  /** However the messages of a tick are ordered and repeated, both paths leave the same store. */
  ghost predicate AllOrdersAgree(s: Store, size: int, g: Setting)
    requires 1 <= size <= MAX_BATCH_SIZE && g.gate.grace >= 0
  {
    forall messages :: Covers(s, size, messages, g) ==> ProcessEach(s, messages, g).store == DirectRun(s, size, g).store
  }

  /** The store is coupled, and no event but one differs. */
  ghost predicate OnlyEvent(t: Store, u: Store, id: int) {
    StoreOk(u) && forall e :: e in t.events && e != id ==> e in u.events && u.events[e] == t.events[e]
  }

  lemma OthersAreLeft(t: Store, id: int, receiveCount: int, g: Setting)
    requires StoreOk(t)
    ensures OnlyEvent(t, ProcessQueued(t, id, receiveCount, g.gate, g.weather, g.senders, g.clock).store, id)
  {
    RaisesExactlyWhen(t, id, receiveCount, g.gate, g.weather, g.senders, g.clock);
    if !BadArguments(receiveCount, g.gate) {
      ClaimQueuedStep(t, id, g.clock.now, g.gate.grace, g.gate.allowReal);
      if ProcessQueued(t, id, receiveCount, g.gate, g.weather, g.senders, g.clock).result.Ok? {
        ActionTellsTheEvent(t, id, receiveCount, g.gate, g.weather, g.senders, g.clock);
      }
    }
  }

  /** The event is done, with this entry. */
  ghost predicate DoneAs(t: Store, e: int, y: Entry) {
    StoreOk(t) && e in t.events && t.events[e] == y && Done(y)
  }

  lemma OneMoreStays(s: Store, messages: seq<Received>, n: nat, g: Setting, e: int, y: Entry)
    requires n < |messages| && messages[n].receiveCount >= 1 && g.gate.grace >= 0 && g.gate.maxReceives >= 1
    requires DoneAs(ProcessEach(s, messages[..n], g).store, e, y)
    ensures DoneAs(ProcessEach(s, messages[..n + 1], g).store, e, y)
  {
    var t, m := ProcessEach(s, messages[..n], g).store, messages[n];
    assert messages[..n + 1][..n] == messages[..n];
    OthersAreLeft(t, m.event, m.receiveCount, g);
    if m.event == e {
      RedeliveryIsNothing(t, e, m.receiveCount, g);
    }
  }

  /** An event that is done stays as it is while more messages are processed. */
  lemma {:induction false} DoneStays(s: Store, messages: seq<Received>, i: nat, n: nat, g: Setting, e: int, y: Entry)
    requires g.gate.grace >= 0 && g.gate.maxReceives >= 1 && i <= n <= |messages|
    requires forall k :: 0 <= k < |messages| ==> messages[k].receiveCount >= 1
    requires DoneAs(ProcessEach(s, messages[..i], g).store, e, y)
    ensures DoneAs(ProcessEach(s, messages[..n], g).store, e, y)
    decreases n
  {
    if i == n {
    } else {
      DoneStays(s, messages, i, n - 1, g, e, y);
      OneMoreStays(s, messages, n - 1, g, e, y);
    }
  }

  /** The SID of the first event is taken when the second one gets it too. */
  lemma SharedSidIsTaken(s: Store, ids: set<int>, a: int, b: int, g: Setting)
    requires Ready(s, ids, g) && a in ids && b in ids && a != b
    requires FreshSid(s, a, g).Some? && FreshSid(s, a, g) == FreshSid(s, b, g) && !Clashes(s, a, g)
    ensures SidTaken(ClaimedAmong(s, {a}, b, g), FreshSid(s, b, g).value, b, 0)
  {
    var u := ClaimedAmong(s, {a}, b, g);
    assert Coupled(s.events[a]);
    assert u.events[a].attempts[0].sid == FreshSid(s, a, g);
    assert SidAmong(u.events[a].attempts, FreshSid(s, a, g).value, None);
  }

  /** Of two events that get the same new SID, the one whose message comes first has it, and the
      other one stays claimed. */
  lemma FirstTakesTheSid(s: Store, ids: set<int>, a: int, b: int, g: Setting)
    requires Ready(s, ids, g) && NoRetryableWeather(s, ids, g) && a in ids && b in ids && a != b
    requires FreshSid(s, a, g).Some? && FreshSid(s, a, g) == FreshSid(s, b, g) && !Clashes(s, a, g)
    ensures var t := Reference(s, {a}, g);
            var u := ProcessQueued(t, b, 1, g.gate, g.weather, g.senders, g.clock).store;
            && ProcessQueued(s, a, 1, g.gate, g.weather, g.senders, g.clock).store == t
            && u == ClaimedAmong(s, {a}, b, g)
  {
    assert Reference(s, {}, g).events == s.events;
    FirstDelivery(s, ids, {}, a, 1, g);
    assert {} + {a} == {a};
    SecondClashes(s, ids, a, b, g);
  }

  lemma SecondClashes(s: Store, ids: set<int>, a: int, b: int, g: Setting)
    requires Ready(s, ids, g) && NoRetryableWeather(s, ids, g) && a in ids && b in ids && a != b
    requires FreshSid(s, a, g).Some? && FreshSid(s, a, g) == FreshSid(s, b, g) && !Clashes(s, a, g)
    ensures ProcessQueued(Reference(s, {a}, g), b, 1, g.gate, g.weather, g.senders, g.clock).store
            == ClaimedAmong(s, {a}, b, g)
  {
    var t, u, c := Reference(s, {a}, g), ClaimedAmong(s, {a}, b, g), FreshClaim(s, b, g.clock.now);
    assert t.events[b] == s.events[b];
    assert Coupled(s.events[b]);
    ClaimedEntryIsClaim(s.events[b], g.clock.now);
    assert ClaimOn(u, b) == c;
    SharedSidIsTaken(s, ids, a, b, g);
    ExecuteIsDelivered(u, c, g);
    QueuedIsDirect(u, c, 1, g);
  }

  lemma FirstTwo(s: Store, ids: set<int>, messages: seq<Received>, a: int, b: int, g: Setting)
    requires Ready(s, ids, g) && NoRetryableWeather(s, ids, g) && a in ids && b in ids && a != b
    requires FreshSid(s, a, g).Some? && FreshSid(s, a, g) == FreshSid(s, b, g) && !Clashes(s, a, g)
    requires |messages| >= 2 && messages[0] == Received(a, 1) && messages[1] == Received(b, 1)
    ensures ProcessEach(s, messages[..2], g).store == ClaimedAmong(s, {a}, b, g)
  {
    FirstTakesTheSid(s, ids, a, b, g);
    var two := messages[..2];
    assert two[..1][..0] == [] && two[..1][0] == messages[0] && two[1] == messages[1];
    assert ProcessEach(s, two[..1], g).store == Reference(s, {a}, g);
  }

  lemma BothAreDone(s: Store, ids: set<int>, a: int, b: int, g: Setting)
    requires Ready(s, ids, g) && NoRetryableWeather(s, ids, g) && a in ids && b in ids && a != b
    requires FreshSid(s, a, g).Some? && FreshSid(s, a, g) == FreshSid(s, b, g) && !Clashes(s, a, g)
    ensures var u := ClaimedAmong(s, {a}, b, g);
            && StoreOk(u) && a in u.events && b in u.events
            && Delivered(u.events[a]) && InFlight(u.events[b]) && Done(u.events[a]) && Done(u.events[b])
  {
    FirstTakesTheSid(s, ids, a, b, g);
    OthersAreLeft(s, a, 1, g);
    OthersAreLeft(Reference(s, {a}, g), b, 1, g);
    FinalEntryIsDone(s, ids, a, g);
    assert Coupled(s.events[a]) && Coupled(s.events[b]);
    ClaimedEntryIsClaim(s.events[b], g.clock.now);
  }

  /** In every order that begins with `a` and then `b`, the second one stays claimed. */
  lemma SecondStaysClaimed(s: Store, ids: set<int>, messages: seq<Received>, a: int, b: int, g: Setting)
    requires Ready(s, ids, g) && NoRetryableWeather(s, ids, g) && a in ids && b in ids && a != b
    requires FreshSid(s, a, g).Some? && FreshSid(s, a, g) == FreshSid(s, b, g) && !Clashes(s, a, g)
    requires |messages| >= 2 && messages[0] == Received(a, 1) && messages[1] == Received(b, 1)
    requires forall k :: 0 <= k < |messages| ==> messages[k].receiveCount >= 1
    ensures var u := ProcessEach(s, messages, g).store;
            && a in u.events && Delivered(u.events[a])
            && b in u.events && InFlight(u.events[b])
  {
    FirstTwo(s, ids, messages, a, b, g);
    BothAreDone(s, ids, a, b, g);
    var u := ClaimedAmong(s, {a}, b, g);
    DoneStays(s, messages, 2, |messages|, g, a, u.events[a]);
    DoneStays(s, messages, 2, |messages|, g, b, u.events[b]);
    assert messages[..|messages|] == messages;
  }

  /** The messages of a tick after two others. */
  function After(first: int, second: int, order: seq<int>): seq<Received> {
    [Received(first, 1), Received(second, 1)] + seq(|order|, i requires 0 <= i < |order| => Received(order[i], 1))
  }

  lemma AfterCovers(s: Store, size: nat, a: int, b: int, g: Setting)
    requires a in Published(s, size, g) && b in Published(s, size, g)
    ensures Covers(s, size, After(a, b, Published(s, size, g)), g)
  {
    var order := Published(s, size, g);
    var messages := After(a, b, order);
    forall e ensures e in Events(messages) <==> e in Elements(order) {
      if e in Elements(order) {
        var i :| 0 <= i < |order| && order[i] == e;
        assert messages[i + 2] == Received(e, 1);
      }
    }
  }

  lemma SharedSidsDisagree(s: Store, size: int, a: int, b: int, g: Setting)
    requires 1 <= size <= MAX_BATCH_SIZE && Ready(s, Elements(Published(s, size, g)), g)
    requires NoRetryableWeather(s, Elements(Published(s, size, g)), g)
    requires a in Published(s, size, g) && b in Published(s, size, g) && a in s.events && b in s.events && a != b
    requires FreshSid(s, a, g).Some? && FreshSid(s, a, g) == FreshSid(s, b, g) && !Clashes(s, a, g)
    ensures !AllOrdersAgree(s, size, g)
  {
    var order := Published(s, size, g);
    var one, other := After(a, b, order), After(b, a, order);
    AfterCovers(s, size, a, b, g);
    AfterCovers(s, size, b, a, g);
    SecondStaysClaimed(s, Elements(order), one, a, b, g);
    SecondStaysClaimed(s, Elements(order), other, b, a, g);
    assert ProcessEach(s, one, g).store != ProcessEach(s, other, g).store;
  }

  /** Both paths leave the same store in every order exactly when no two delivered events get the
      same new provider SID. */
  lemma PathsAgreeExactlyWhen(s: Store, size: int, g: Setting)
    requires StoreOk(s) && g.gate.grace >= 0 && g.gate.maxReceives >= 1 && 1 <= size <= MAX_BATCH_SIZE
    requires NoRetryableWeather(s, Elements(Published(s, size, g)), g)
    ensures AllOrdersAgree(s, size, g) <==> NoSharedSids(s, Elements(Published(s, size, g)), g)
  {
    var ids := Elements(Published(s, size, g));
    if NoSharedSids(s, ids, g) {
      forall messages | Covers(s, size, messages, g)
        ensures ProcessEach(s, messages, g).store == DirectRun(s, size, g).store
      {
        PathsAgree(s, size, messages, g);
      }
    } else {
      var a, b :| a in ids && b in ids && a in s.events && b in s.events && a != b
                  && FreshSid(s, a, g).Some? && FreshSid(s, a, g) == FreshSid(s, b, g) && !Clashes(s, a, g);
      BatchIsUnderway(s, size, g);
      SharedSidsDisagree(s, size, a, b, g);
    }
  }
}
