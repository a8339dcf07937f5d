/** What a batch of the direct dispatcher does to the rows, and what it counts. */
module DispatchEffects {
  import opened Records
  import opened Ordering
  import opened Claims
  import opened Delivery
  import opened Coupling
  import opened BatchClaims
  import opened RowEffects

  // ----- the table

  /** The provider accepted the event under this SID. */
  ghost predicate Accepts(s: Store, id: int, sid: Option<string>, weather: WeatherProvider, senders: Senders)
    requires id in s.events
  {
    var answer := Converse(s, id, weather, senders).answer;
    answer.Delivered? && answer.sid == sid && sid.Some?
  }

  /** The SID the provider gives event number `i` is one the store knew, or one it gave an earlier
      event of the batch. */
  ghost predicate Repeated(s: Store, ids: seq<int>, i: nat, weather: WeatherProvider, senders: Senders)
    requires Known(s, ids) && i < |ids|
  {
    var answer := Converse(s, ids[i], weather, senders).answer;
    answer.Delivered? && answer.sid.Some?
    && (SidHeld(s, answer.sid) || exists j: nat :: j < i && Accepts(s, ids[j], answer.sid, weather, senders))
  }

  /** How event number `i` of a batch ends. */
  ghost function EndOf(s: Store, ids: seq<int>, i: nat, clock: Clock, weather: WeatherProvider,
                       senders: Senders): Entry
    requires Known(s, ids) && i < |ids|
  {
    match Converse(s, ids[i], weather, senders).answer
    case Failure(exc, _) => FailedFor(s.events[ids[i]], clock.now, Plain(exc), clock.later)
    case Delivered(message, sid) =>
      if Repeated(s, ids, i, weather, senders) then Underway(s.events[ids[i]], clock.now)
      else Succeeded(s.events[ids[i]], clock.now, message, sid, clock.later)
  }

  ghost function Ends(s: Store, ids: seq<int>, clock: Clock, weather: WeatherProvider, senders: Senders): seq<Entry>
    requires Known(s, ids)
  {
    seq(|ids|, i requires 0 <= i < |ids| => EndOf(s, ids, i, clock, weather, senders))
  }

  ghost function Talks(s: Store, ids: seq<int>, weather: WeatherProvider, senders: Senders): seq<Conversation>
    requires Known(s, ids)
  {
    seq(|ids|, i requires 0 <= i < |ids| => Converse(s, ids[i], weather, senders))
  }

  predicate IsSuccess(x: Entry) {
    x.row.status in {Submitted, Suppressed}
  }

  /** Everything the senders were told, each sender's requests in order. */
  ghost function CallsOf(talks: seq<Conversation>): Calls {
    if talks == [] then Calls([], [])
    else
      var n := |talks| - 1;
      var before := CallsOf(talks[..n]);
      Calls(before.message + talks[n].calls.message, before.demo + talks[n].calls.demo)
  }

  /** Everything the senders were told, in the order in which it was said. */
  ghost function RequestsOf(talks: seq<Conversation>): seq<Send> {
    if talks == [] then []
    else
      var n := |talks| - 1;
      RequestsOf(talks[..n]) + (talks[n].calls.message + talks[n].calls.demo)
  }

  // ----- the loop over any entries and conversations

  /** The events that end as a success. */
  ghost function SuccessIds(ids: seq<int>, ends: seq<Entry>): set<int>
    requires |ids| == |ends|
  {
    set i | 0 <= i < |ids| && IsSuccess(ends[i]) :: ids[i]
  }

  lemma OneSuccessMore(ids: seq<int>, ends: seq<Entry>, id: int, y: Entry)
    requires |ids| == |ends| && id !in ids
    ensures |SuccessIds(ids + [id], ends + [y])| == |SuccessIds(ids, ends)| + if IsSuccess(y) then 1 else 0
  {
    var before, after := SuccessIds(ids, ends), SuccessIds(ids + [id], ends + [y]);
    var added := if IsSuccess(y) then {id} else {};
    forall e ensures e in after <==> e in before + added {
      if e in after {
        var i :| 0 <= i < |ids + [id]| && IsSuccess((ends + [y])[i]) && (ids + [id])[i] == e;
        if i < |ids| {
          assert ids[i] == e && IsSuccess(ends[i]);
        }
      }
      if e in before {
        var i :| 0 <= i < |ids| && IsSuccess(ends[i]) && ids[i] == e;
        assert (ids + [id])[i] == e && (ends + [y])[i] == ends[i];
      }
      if e in added {
        assert (ids + [id])[|ids|] == e && (ends + [y])[|ids|] == y;
      }
    }
    assert after == before + added;
    assert id !in before;
  }

  /** `u` is `t` with these events ended. */
  ghost predicate Ended(t: Store, ids: seq<int>, ends: seq<Entry>, u: Store) {
    && |ids| == |ends|
    && u.events.Keys == t.events.Keys && u.phones == t.phones && u.sms == t.sms
    && (forall e :: e in t.events && e !in ids ==> u.events[e] == t.events[e])
    && (forall i :: 0 <= i < |ids| ==> ids[i] in t.events && u.events[ids[i]] == ends[i])
  }

  lemma OneEndMore(t: Store, ids: seq<int>, ends: seq<Entry>, u: Store, id: int, y: Entry)
    requires Ended(t, ids, ends, u) && id !in ids && id in t.events
    ensures Ended(t, ids + [id], ends + [y], Put(u, id, y))
  {
    var v := Put(u, id, y);
    forall i | 0 <= i < |ids + [id]|
      ensures (ids + [id])[i] in t.events && v.events[(ids + [id])[i]] == (ends + [y])[i]
    {
      if i < |ids| {
        assert (ids + [id])[i] == ids[i] && ids[i] in ids;
      }
    }
    forall e | e in t.events && e !in ids + [id] ensures v.events[e] == t.events[e] {
      assert (ids + [id])[|ids|] == id;
      assert e != id;
      assert e !in ids;
    }
  }

  // ----- one turn

  /** The SIDs in the store after the first `n` executions. */
  ghost predicate SidsAfter(s: Store, ids: seq<int>, n: nat, weather: WeatherProvider, senders: Senders, u: Store)
    requires Known(s, ids) && n <= |ids|
  {
    forall sid :: SidHeld(u, sid) <==>
      SidHeld(s, sid) || exists j: nat :: j < n && Accepts(s, ids[j], sid, weather, senders)
  }

  /** Replacing the last attempt of an event adds the SID of the new one. */
  lemma SidsOfPut(u: Store, id: int, attempts: seq<Attempt>, a: Attempt, y: Entry, b: Attempt, sid: Option<string>)
    requires id in u.events && u.events[id].attempts == attempts + [a] && a.sid.None?
    requires y.attempts == attempts + [b]
    ensures SidHeld(Put(u, id, y), sid) <==> SidHeld(u, sid) || (sid.Some? && b.sid == sid)
  {
    var v := Put(u, id, y);
    if SidHeld(v, sid) {
      var e, k :| e in v.events && 0 <= k < |v.events[e].attempts| && v.events[e].attempts[k].sid == sid;
      assert b.sid == sid
             || (e in u.events && k < |u.events[e].attempts| && u.events[e].attempts[k].sid == sid);
    }
    if SidHeld(u, sid) {
      var e, k :| e in u.events && 0 <= k < |u.events[e].attempts| && u.events[e].attempts[k].sid == sid;
      assert v.events[e].attempts[k].sid == sid;
    }
    if sid.Some? && b.sid == sid {
      assert v.events[id].attempts[|attempts|].sid == sid;
    }
  }

  /** The end of event number `n` carries the SID the provider gave it, unless it is repeated. */
  lemma SidOfEnd(s: Store, ids: seq<int>, n: nat, clock: Clock, weather: WeatherProvider, senders: Senders,
                 sid: Option<string>)
    requires Known(s, ids) && n < |ids|
    ensures var x, y := s.events[ids[n]], EndOf(s, ids, n, clock, weather, senders);
            && |y.attempts| == |x.attempts| + 1 && y.attempts == x.attempts + [y.attempts[|x.attempts|]]
            && (sid.Some? ==>
                  (y.attempts[|x.attempts|].sid == sid <==>
                     Accepts(s, ids[n], sid, weather, senders) && !Repeated(s, ids, n, weather, senders)))
  {
  }

  lemma SidsAfterTurn(s: Store, ids: seq<int>, n: nat, clock: Clock, weather: WeatherProvider, senders: Senders,
                      u: Store, sid: Option<string>)
    requires Known(s, ids) && n < |ids| && ids[n] in u.events
             && u.events[ids[n]] == Underway(s.events[ids[n]], clock.now)
    requires SidsAfter(s, ids, n, weather, senders, u)
    ensures SidHeld(Put(u, ids[n], EndOf(s, ids, n, clock, weather, senders)), sid) <==>
              SidHeld(s, sid) || exists j: nat :: j < n + 1 && Accepts(s, ids[j], sid, weather, senders)
  {
    var x, y := s.events[ids[n]], EndOf(s, ids, n, clock, weather, senders);
    SidOfEnd(s, ids, n, clock, weather, senders, sid);
    SidsOfPut(u, ids[n], x.attempts, Unfinished().(number := |x.attempts| + 1), y, y.attempts[|x.attempts|], sid);
    if exists j: nat :: j < n + 1 && Accepts(s, ids[j], sid, weather, senders) {
      var j: nat :| j < n + 1 && Accepts(s, ids[j], sid, weather, senders);
      assert j == n || j < n;
    }
  }

  /** The events of the claims are claimed in `t`, and every claim is the one of its row. */
  ghost predicate AllClaimed(s: Store, t: Store, claims: seq<Claim>, now: int) {
    && StoreOk(s) && Distinct(EventsOf(claims)) && Known(s, EventsOf(claims))
    && forall i :: 0 <= i < |claims| ==>
         ClaimedIn(s, t, claims[i].event, now) && IsClaim(s, claims[i].event, now, claims[i])
  }

  lemma TurnOnRows(s: Store, t: Store, claims: seq<Claim>, n: nat, clock: Clock, weather: WeatherProvider,
                   senders: Senders, u: Store)
    requires AllClaimed(s, t, claims, clock.now) && n < |claims|
    requires SidsAfter(s, EventsOf(claims), n, weather, senders, u)
    requires claims[n].event in u.events && u.events[claims[n].event] == t.events[claims[n].event]
    ensures var ids, x := EventsOf(claims), Execute(u, claims[n], weather, senders, clock.later);
            var y := EndOf(s, ids, n, clock, weather, senders);
            && x.store == Put(u, ids[n], y) && x.calls == Converse(s, ids[n], weather, senders).calls
            && (x.result.Ok? <==> IsSuccess(y))
  {
    var ids, c := EventsOf(claims), claims[n];
    assert ids[n] == c.event;
    ExecutionOnRows(s, u, c, clock.now, weather, senders, clock.later);
    var answer := Converse(s, ids[n], weather, senders).answer;
    if answer.Delivered? {
      assert SidHeld(u, answer.sid) <==> Repeated(s, ids, n, weather, senders);
      assert Put(u, ids[n], u.events[ids[n]]) == u;
    }
  }

  // ----- the loop

  /** What the first `n` executions leave, by the table. */
  ghost predicate Executed(s: Store, t: Store, ids: seq<int>, n: nat, clock: Clock, weather: WeatherProvider,
                           senders: Senders, d: DispatchRun)
    requires Known(s, ids) && n <= |ids|
  {
    var ends := Ends(s, ids, clock, weather, senders)[..n];
    && Ended(t, ids[..n], ends, d.store)
    && d.calls == CallsOf(Talks(s, ids, weather, senders)[..n])
    && d.delivered == |SuccessIds(ids[..n], ends)|
    && d.delivered + d.failed == n
  }

  /** The state of the loop: by the table so far, and with the SIDs the table says. */
  ghost predicate Reached(s: Store, t: Store, claims: seq<Claim>, n: nat, clock: Clock, weather: WeatherProvider,
                          senders: Senders, d: DispatchRun)
  {
    && Known(s, EventsOf(claims)) && n <= |claims|
    && Executed(s, t, EventsOf(claims), n, clock, weather, senders, d)
    && SidsAfter(s, EventsOf(claims), n, weather, senders, d.store)
  }

  lemma NotYet(ids: seq<int>, n: nat)
    requires Distinct(ids) && n < |ids|
    ensures ids[n] !in ids[..n]
  {
  }

  /** The run after one execution more, with these entry and conversation. */
  ghost function WithTurn(d: DispatchRun, id: int, y: Entry, talk: Conversation): DispatchRun {
    DispatchRun(Put(d.store, id, y), Joined(d.calls, talk.calls),
                d.delivered + (if IsSuccess(y) then 1 else 0), d.failed + (if IsSuccess(y) then 0 else 1))
  }

  lemma OneExecutedMore(s: Store, t: Store, ids: seq<int>, n: nat, clock: Clock, weather: WeatherProvider,
                        senders: Senders, d: DispatchRun)
    requires Known(s, ids) && Distinct(ids) && n < |ids| && ids[n] in t.events
    requires Executed(s, t, ids, n, clock, weather, senders, d)
    ensures Executed(s, t, ids, n + 1, clock, weather, senders,
                     WithTurn(d, ids[n], EndOf(s, ids, n, clock, weather, senders),
                              Converse(s, ids[n], weather, senders)))
  {
    var ends, talks := Ends(s, ids, clock, weather, senders), Talks(s, ids, weather, senders);
    NotYet(ids, n);
    OneEndMore(t, ids[..n], ends[..n], d.store, ids[n], ends[n]);
    OneSuccessMore(ids[..n], ends[..n], ids[n], ends[n]);
    assert ids[..n + 1] == ids[..n] + [ids[n]] && ends[..n + 1] == ends[..n] + [ends[n]];
    assert talks[..n + 1][..n] == talks[..n];
  }

  lemma NextIsTurn(s: Store, t: Store, claims: seq<Claim>, n: nat, clock: Clock, weather: WeatherProvider,
                   senders: Senders, d: DispatchRun)
    requires AllClaimed(s, t, claims, clock.now) && n < |claims| && Reached(s, t, claims, n, clock, weather, senders, d)
    ensures var ids := EventsOf(claims);
            ExecuteNext(d, claims[n], weather, senders, clock.later)
            == WithTurn(d, ids[n], EndOf(s, ids, n, clock, weather, senders), Converse(s, ids[n], weather, senders))
  {
    NotYet(EventsOf(claims), n);
    TurnOnRows(s, t, claims, n, clock, weather, senders, d.store);
  }

  lemma SidsStayKnown(s: Store, t: Store, claims: seq<Claim>, n: nat, clock: Clock, weather: WeatherProvider,
                      senders: Senders, d: DispatchRun)
    requires AllClaimed(s, t, claims, clock.now) && n < |claims| && Reached(s, t, claims, n, clock, weather, senders, d)
    ensures SidsAfter(s, EventsOf(claims), n + 1, weather, senders,
                      Execute(d.store, claims[n], weather, senders, clock.later).store)
  {
    var ids := EventsOf(claims);
    NotYet(ids, n);
    TurnOnRows(s, t, claims, n, clock, weather, senders, d.store);
    forall sid
      ensures SidHeld(Put(d.store, ids[n], EndOf(s, ids, n, clock, weather, senders)), sid) <==>
                SidHeld(s, sid) || exists j: nat :: j < n + 1 && Accepts(s, ids[j], sid, weather, senders)
    {
      SidsAfterTurn(s, ids, n, clock, weather, senders, d.store, sid);
    }
  }

  lemma ReachesNext(s: Store, t: Store, claims: seq<Claim>, n: nat, clock: Clock, weather: WeatherProvider,
                    senders: Senders, d: DispatchRun)
    requires AllClaimed(s, t, claims, clock.now) && n < |claims| && Reached(s, t, claims, n, clock, weather, senders, d)
    ensures Reached(s, t, claims, n + 1, clock, weather, senders,
                    ExecuteNext(d, claims[n], weather, senders, clock.later))
    ensures Execute(d.store, claims[n], weather, senders, clock.later).calls
            == Converse(s, EventsOf(claims)[n], weather, senders).calls
  {
    NotYet(EventsOf(claims), n);
    TurnOnRows(s, t, claims, n, clock, weather, senders, d.store);
    NextIsTurn(s, t, claims, n, clock, weather, senders, d);
    OneExecutedMore(s, t, EventsOf(claims), n, clock, weather, senders, d);
    SidsStayKnown(s, t, claims, n, clock, weather, senders, d);
  }

  lemma NothingYet(s: Store, t: Store, claims: seq<Claim>, clock: Clock, weather: WeatherProvider, senders: Senders)
    requires Known(s, EventsOf(claims)) && forall sid :: SidHeld(t, sid) <==> SidHeld(s, sid)
    ensures Reached(s, t, claims, 0, clock, weather, senders, DispatchRun(t, NO_CALLS, 0, 0))
  {
    assert SuccessIds([], []) == {};
  }

  lemma {:induction false} EachIsReached(s: Store, t: Store, claims: seq<Claim>, n: nat, clock: Clock,
                                         weather: WeatherProvider, senders: Senders)
    requires AllClaimed(s, t, claims, clock.now) && n <= |claims|
    requires forall sid :: SidHeld(t, sid) <==> SidHeld(s, sid)
    ensures Reached(s, t, claims, n, clock, weather, senders,
                    ExecuteEach(t, claims[..n], weather, senders, clock.later))
    ensures RequestsOfEach(t, claims[..n], weather, senders, clock.later)
            == RequestsOf(Talks(s, EventsOf(claims), weather, senders)[..n])
    decreases n
  {
    if n == 0 {
      NothingYet(s, t, claims, clock, weather, senders);
    } else {
      EachIsReached(s, t, claims, n - 1, clock, weather, senders);
      ReachesNext(s, t, claims, n - 1, clock, weather, senders,
                  ExecuteEach(t, claims[..n - 1], weather, senders, clock.later));
      var talks := Talks(s, EventsOf(claims), weather, senders);
      assert claims[..n][..n - 1] == claims[..n - 1] && talks[..n][..n - 1] == talks[..n - 1];
    }
  }

  // ----- the theorem

  lemma SidsOfBatch(s: Store, claimed: set<int>, missed: set<int>, now: int, sid: Option<string>)
    ensures SidHeld(AfterBatch(s, claimed, missed, now), sid) <==> SidHeld(s, sid)
  {
    var t := AfterBatch(s, claimed, missed, now);
    if SidHeld(t, sid) {
      var e, k :| e in t.events && 0 <= k < |t.events[e].attempts| && t.events[e].attempts[k].sid == sid;
      assert e in s.events && k < |s.events[e].attempts| && s.events[e].attempts[k].sid == sid;
    }
    if SidHeld(s, sid) {
      var e, k :| e in s.events && 0 <= k < |s.events[e].attempts| && s.events[e].attempts[k].sid == sid;
      assert t.events[e].attempts[k].sid == sid;
    }
  }

  lemma OnTimeIsNotMissed(s: Store, locked: set<int>, now: int, size: int, grace: nat, includeReal: bool, i: nat)
    requires StoreOk(s) && 1 <= size <= MAX_BATCH_SIZE
    requires i < |ClaimBatch(s, locked, now, size, grace, includeReal).value.deliveries|
    ensures var b := ClaimBatch(s, locked, now, size, grace, includeReal).value;
            b.deliveries[i].event !in b.missed && b.deliveries[i].event in s.events
  {
    var ids := OldestDue(s, locked, now, size, includeReal);
    BatchSelects(s, locked, now, size, grace, includeReal);
    SelectedIsTakeable(s, locked, now, size, includeReal);
    SiftedSplits(s, ids, now, grace);
  }

  lemma IsClaimedByBatch(s: Store, locked: set<int>, now: int, size: int, grace: nat, includeReal: bool, i: nat)
    requires StoreOk(s) && 1 <= size <= MAX_BATCH_SIZE
    requires i < |ClaimBatch(s, locked, now, size, grace, includeReal).value.deliveries|
    ensures var b := ClaimBatch(s, locked, now, size, grace, includeReal).value;
            var c := b.deliveries[i];
            c.event !in b.missed && ClaimedIn(s, b.store, c.event, now) && IsClaim(s, c.event, now, c)
  {
    var b := ClaimBatch(s, locked, now, size, grace, includeReal).value;
    BatchOnRows(s, locked, now, size, grace, includeReal);
    OnTimeIsNotMissed(s, locked, now, size, grace, includeReal, i);
    BatchHolds(s, locked, now, size, grace, includeReal);
    assert EventsOf(b.deliveries)[i] == b.deliveries[i].event;
  }

  lemma BatchIsClaimed(s: Store, locked: set<int>, now: int, size: int, grace: nat, includeReal: bool)
    requires StoreOk(s) && 1 <= size <= MAX_BATCH_SIZE
    ensures var b := ClaimBatch(s, locked, now, size, grace, includeReal).value;
            && AllClaimed(s, b.store, b.deliveries, now)
            && (forall i :: 0 <= i < |b.deliveries| ==> b.deliveries[i].event !in b.missed)
  {
    var b := ClaimBatch(s, locked, now, size, grace, includeReal).value;
    BatchHolds(s, locked, now, size, grace, includeReal);
    forall i | 0 <= i < |b.deliveries|
      ensures b.deliveries[i].event !in b.missed && ClaimedIn(s, b.store, b.deliveries[i].event, now)
              && IsClaim(s, b.deliveries[i].event, now, b.deliveries[i])
    {
      IsClaimedByBatch(s, locked, now, size, grace, includeReal, i);
    }
  }

  /** The successes of a batch, counted in the store it leaves. */
  lemma SuccessesAreCounted(t: Store, ids: seq<int>, ends: seq<Entry>, u: Store)
    requires Ended(t, ids, ends, u)
    ensures SuccessIds(ids, ends) == set e | e in ids && e in u.events && IsSuccess(u.events[e])
  {
  }

  /** What a batch of the dispatcher leaves, with the events it claimed and missed. */
  ghost predicate DispatchedAs(s: Store, ids: seq<int>, missed: seq<int>, clock: Clock, weather: WeatherProvider,
                               senders: Senders, d: DispatchRun)
    requires Known(s, ids)
  {
    && d.store.events.Keys == s.events.Keys && d.store.phones == s.phones && d.store.sms == s.sms
    && (forall i :: 0 <= i < |ids| ==>
          ids[i] in s.events && d.store.events[ids[i]] == EndOf(s, ids, i, clock, weather, senders))
    && (forall e :: e in missed && e in s.events ==> d.store.events[e] == Missed(s.events[e], clock.now))
    && (forall e :: e in s.events && e !in ids && e !in missed ==> d.store.events[e] == s.events[e])
    && d.calls == CallsOf(Talks(s, ids, weather, senders))
    && d.delivered + d.failed == |ids|
    && d.delivered == |set e | e in ids && e in d.store.events && IsSuccess(d.store.events[e])|
  }

  /** The loop of the dispatcher, run to its end. */
  lemma DispatchIsReached(s: Store, locked: set<int>, size: int, grace: nat, includeReal: bool,
                          weather: WeatherProvider, senders: Senders, clock: Clock)
    requires StoreOk(s) && 1 <= size <= MAX_BATCH_SIZE
    ensures var b := ClaimBatch(s, locked, clock.now, size, grace, includeReal).value;
            && Reached(s, b.store, b.deliveries, |b.deliveries|, clock, weather, senders,
                       ExecuteEach(b.store, b.deliveries, weather, senders, clock.later))
            && RequestsOfEach(b.store, b.deliveries, weather, senders, clock.later)
               == RequestsOf(Talks(s, EventsOf(b.deliveries), weather, senders))
  {
    var b := ClaimBatch(s, locked, clock.now, size, grace, includeReal).value;
    var n := |b.deliveries|;
    BatchOnRows(s, locked, clock.now, size, grace, includeReal);
    BatchIsClaimed(s, locked, clock.now, size, grace, includeReal);
    forall sid ensures SidHeld(b.store, sid) <==> SidHeld(s, sid) {
      SidsOfBatch(s, Elements(EventsOf(b.deliveries)), Elements(b.missed), clock.now, sid);
    }
    EachIsReached(s, b.store, b.deliveries, n, clock, weather, senders);
    WholeSeq(b.deliveries);
    WholeSeq(Talks(s, EventsOf(b.deliveries), weather, senders));
  }

  lemma WholeSeq<T>(xs: seq<T>)
    ensures xs[..|xs|] == xs
  {
  }

  /** A batch of the dispatcher does what the table says: every event it claimed ends by what the
      providers answered for its row, the first one of those that get a SID keeps it, the requests
      are made in order, and a delivery counts as delivered exactly when its event ends submitted
      or suppressed, and as failed otherwise. */
  lemma DispatchIsTheTable(s: Store, locked: set<int>, size: int, grace: nat, includeReal: bool,
                           weather: WeatherProvider, senders: Senders, clock: Clock)
    requires StoreOk(s) && 1 <= size <= MAX_BATCH_SIZE
    ensures var b := ClaimBatch(s, locked, clock.now, size, grace, includeReal).value;
            var d := ExecuteEach(b.store, b.deliveries, weather, senders, clock.later);
            var ids := EventsOf(b.deliveries);
            && Known(s, ids) && DispatchedAs(s, ids, b.missed, clock, weather, senders, d)
            && RequestsOfEach(b.store, b.deliveries, weather, senders, clock.later)
               == RequestsOf(Talks(s, ids, weather, senders))
  {
    var b := ClaimBatch(s, locked, clock.now, size, grace, includeReal).value;
    BatchOnRows(s, locked, clock.now, size, grace, includeReal);
    BatchIsClaimed(s, locked, clock.now, size, grace, includeReal);
    DispatchIsReached(s, locked, size, grace, includeReal, weather, senders, clock);
    DispatchedByTable(s, b, clock, weather, senders, ExecuteEach(b.store, b.deliveries, weather, senders, clock.later));
  }

  lemma DispatchedByTable(s: Store, b: Batch, clock: Clock, weather: WeatherProvider, senders: Senders, d: DispatchRun)
    requires Reached(s, b.store, b.deliveries, |b.deliveries|, clock, weather, senders, d)
    requires b.store == AfterBatch(s, Elements(EventsOf(b.deliveries)), Elements(b.missed), clock.now)
    requires forall i :: 0 <= i < |b.deliveries| ==> b.deliveries[i].event !in b.missed
    ensures DispatchedAs(s, EventsOf(b.deliveries), b.missed, clock, weather, senders, d)
  {
    var ids, n := EventsOf(b.deliveries), |b.deliveries|;
    var ends, talks := Ends(s, ids, clock, weather, senders), Talks(s, ids, weather, senders);
    assert ids[..n] == ids && ends[..n] == ends && talks[..n] == talks;
    SuccessesAreCounted(b.store, ids, ends, d.store);
  }
}
