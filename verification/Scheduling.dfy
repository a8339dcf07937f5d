/** The services that create, cancel, move and switch events that are still pending.

    Each service is one transaction. A specification function says what it does to the
    store, or which exception it raises; the method below it performs the reads, the
    assignments and the partial save, and is proved equal to that function. */
module Scheduling {
  import opened Records
  import opened Tables

  /** A time as a caller hands it over. `Aware` holds the instant it denotes. */
  datatype When = Aware(at: int) | Naive(local: int) | NotADatetime

  /** The last instant a UTC datetime can hold, in microseconds since 1970. Converting a
      later one to UTC raises `OverflowError`. */
  const MAX_UTC: int := 253402300799999999

  // ----- specification

  /** The locked `get`, restricted to the owner when one is given, and `_require_scheduled`. */
  function RequireScheduled(s: Store, id: int, owner: Option<int>): Outcome<Event> {
    if id !in s.events || (owner.Some? && s.events[id].row.user != owner.value) then Raised(DoesNotExist)
    else if s.events[id].row.status != Scheduled then Raised(LifecycleConflict)
    else Ok(s.events[id].row)
  }

  function Cancel(s: Store, id: int, owner: Option<int>, at: int): Outcome<Store> {
    var row :- RequireScheduled(s, id, owner);
    Ok(WithRow(s, id, Moved(row, Cancelled, at)))
  }

  function Reschedule(s: Store, id: int, owner: int, time: When, now: int): Outcome<Store> {
    var row :- RequireScheduled(s, id, Some(owner));
    match time
    case Naive(_) => Raised(ValidationError)
    case NotADatetime => Raised(ValidationError)
    case Aware(at) =>
      if at <= now then Raised(ValidationError)
      else if at > MAX_UTC then Raised(OverflowError)
      else Ok(WithRow(s, id, row.(scheduledFor := at)))
  }

  function ChangeChannel(s: Store, id: int, owner: int, channel: string): Outcome<Store> {
    var row :- RequireScheduled(s, id, Some(owner));
    match ParseChannel(channel)
    case None => Raised(ValidationError)
    case Some(c) => Ok(WithRow(s, id, row.(channel := c)))
  }

  predicate ValidZip(zip: string) {
    |zip| == 5 && forall i :: 0 <= i < 5 ==> DecimalDigit(zip[i])
  }

  predicate OwnedAndVerified(s: Store, user: int, phone: int) {
    phone in s.phones && s.phones[phone].user == user && s.phones[phone].verifiedAt.Some?
  }

  function NewEvent(user: int, phone: int, zip: string, at: int, channel: Channel): Event {
    Event(user, phone, zip, at, channel, true, Scheduled, None, None)
  }

  /** `newId` is the primary key the database assigns. */
  function Create(s: Store, newId: int, user: int, phone: int, zip: string, at: int, channel: string,
                  now: int): Outcome<Store>
  {
    if !OwnedAndVerified(s, user, phone) then Raised(ValidationError)
    else if !ValidZip(zip) || ParseChannel(channel).None? || at <= now then Raised(ValidationError)
    else Ok(WithEntry(s, newId, Entry(NewEvent(user, phone, zip, at, ParseChannel(channel).value), [])))
  }

  /** The store after a transaction that may raise: an exception rolls it back. */
  function Committed(s: Store, r: Outcome<Store>): Store {
    if r.Ok? then r.value else s
  }

  // ----- services

  method CancelScheduledEvent(db: Database, id: int, cancelledAt: int) returns (r: Outcome<ScheduledEvent>)
    modifies db
    ensures r.Ok? == Cancel(old(db.store), id, None, cancelledAt).Ok?
    ensures r.Raised? ==> r.error == Cancel(old(db.store), id, None, cancelledAt).error
    ensures db.store == Committed(old(db.store), Cancel(old(db.store), id, None, cancelledAt))
    ensures r.Ok? ==> fresh(r.value) && r.value.id == id && r.value.Row() == db.store.events[id].row
  {
    var event := db.GetEvent(id);
    if event == null {
      return Raised(DoesNotExist);
    }
    r := CancelLoaded(db, event, cancelledAt);
  }

  method CancelUserScheduledEvent(db: Database, id: int, user: int, cancelledAt: int)
    returns (r: Outcome<ScheduledEvent>)
    modifies db
    ensures r.Ok? == Cancel(old(db.store), id, Some(user), cancelledAt).Ok?
    ensures r.Raised? ==> r.error == Cancel(old(db.store), id, Some(user), cancelledAt).error
    ensures db.store == Committed(old(db.store), Cancel(old(db.store), id, Some(user), cancelledAt))
    ensures r.Ok? ==> fresh(r.value) && r.value.id == id && r.value.Row() == db.store.events[id].row
  {
    var event := db.GetEvent(id);
    if event == null || event.user != user {
      return Raised(DoesNotExist);
    }
    r := CancelLoaded(db, event, cancelledAt);
  }

  /** The part the two cancelling services share. */
  method CancelLoaded(db: Database, event: ScheduledEvent, cancelledAt: int) returns (r: Outcome<ScheduledEvent>)
    requires event.id in db.store.events && event.Row() == db.store.events[event.id].row
    modifies db, event
    ensures r == if old(event.status) == Scheduled then Ok(event) else Raised(LifecycleConflict)
    ensures db.store == if r.Ok? then WithRow(old(db.store), event.id, Moved(old(event.Row()), Cancelled, cancelledAt))
                        else old(db.store)
    ensures r.Ok? ==> event.Row() == db.store.events[event.id].row
  {
    if event.status != Scheduled {
      return Raised(LifecycleConflict);
    }
    var moved := event.TransitionTo(Cancelled, cancelledAt);
    assert moved.Ok?;
    db.SaveEvent(event, {StatusColumn, CompletedAtColumn});
    return Ok(event);
  }

  method RescheduleUserScheduledEvent(db: Database, id: int, user: int, time: When, now: int)
    returns (r: Outcome<ScheduledEvent>)
    modifies db
    ensures r.Ok? == Reschedule(old(db.store), id, user, time, now).Ok?
    ensures r.Raised? ==> r.error == Reschedule(old(db.store), id, user, time, now).error
    ensures db.store == Committed(old(db.store), Reschedule(old(db.store), id, user, time, now))
    ensures r.Ok? ==> fresh(r.value) && r.value.id == id && r.value.Row() == db.store.events[id].row
  {
    var event := db.GetEvent(id);
    if event == null || event.user != user {
      return Raised(DoesNotExist);
    }
    if event.status != Scheduled {
      return Raised(LifecycleConflict);
    }
    if !time.Aware? {
      return Raised(ValidationError);
    }
    if time.at <= now {
      return Raised(ValidationError);
    }
    if time.at > MAX_UTC {
      return Raised(OverflowError);
    }
    event.scheduledFor := time.at;
    db.SaveEvent(event, {ScheduledForColumn});
    return Ok(event);
  }

  method ChangeUserScheduledEventChannel(db: Database, id: int, user: int, channel: string)
    returns (r: Outcome<ScheduledEvent>)
    modifies db
    ensures r.Ok? == ChangeChannel(old(db.store), id, user, channel).Ok?
    ensures r.Raised? ==> r.error == ChangeChannel(old(db.store), id, user, channel).error
    ensures db.store == Committed(old(db.store), ChangeChannel(old(db.store), id, user, channel))
    ensures r.Ok? ==> fresh(r.value) && r.value.id == id && r.value.Row() == db.store.events[id].row
  {
    var event := db.GetEvent(id);
    if event == null || event.user != user {
      return Raised(DoesNotExist);
    }
    if event.status != Scheduled {
      return Raised(LifecycleConflict);
    }
    var parsed := ParseChannel(channel);
    if parsed.None? {
      return Raised(ValidationError);
    }
    event.channel := parsed.value;
    db.SaveEvent(event, {ChannelColumn});
    return Ok(event);
  }

  method CreateScheduledEvent(db: Database, newId: int, user: int, phone: int, zip: string, at: int, channel: string,
                              now: int)
    returns (r: Outcome<ScheduledEvent>)
    requires newId !in db.store.events
    modifies db
    ensures r.Ok? == Create(old(db.store), newId, user, phone, zip, at, channel, now).Ok?
    ensures r.Raised? ==> r.error == ValidationError
    ensures db.store == Committed(old(db.store), Create(old(db.store), newId, user, phone, zip, at, channel, now))
    ensures r.Ok? ==> fresh(r.value) && r.value.id == newId && r.value.Row() == db.store.events[newId].row
  {
    if phone !in db.store.phones || db.store.phones[phone].user != user || db.store.phones[phone].verifiedAt.None? {
      return Raised(ValidationError);
    }
    var parsed := ParseChannel(channel);
    if !ValidZip(zip) || parsed.None? || at <= now {
      return Raised(ValidationError);
    }
    var row := NewEvent(user, phone, zip, at, parsed.value);
    var event := new ScheduledEvent(newId, row);
    db.store := WithEntry(db.store, newId, Entry(row, []));
    return Ok(event);
  }

  // ----- what the services may and may not do

  /** `y` is `x` with at most what a service may change about a pending event. */
  ghost predicate PendingEdit(x: Event, y: Event) {
    && x.status == Scheduled
    && y == x.(scheduledFor := y.scheduledFor, channel := y.channel, status := y.status, completedAt := y.completedAt)
    && ((y.status == Scheduled && y.completedAt == x.completedAt)
        || (y.status == Cancelled && y.completedAt.Some?))
  }

  /** From `s` to `t` only event `id` changed, and only in its row. */
  ghost predicate OnlyRow(s: Store, t: Store, id: int) {
    && id in s.events
    && t.events.Keys == s.events.Keys
    && t.events[id].attempts == s.events[id].attempts
    && (forall e :: e in s.events && e != id ==> t.events[e] == s.events[e])
    && t.phones == s.phones
    && t.sms == s.sms
  }

  /** A cancellation succeeds exactly on the caller's pending event, and then changes the
      status and completion time of that row and nothing else. */
  lemma CancelOnlyPending(s: Store, id: int, owner: Option<int>, at: int)
    ensures Cancel(s, id, owner, at).Ok? <==>
              id in s.events && s.events[id].row.status == Scheduled
              && (owner.Some? ==> s.events[id].row.user == owner.value)
    ensures var r := Cancel(s, id, owner, at);
            r.Ok? ==>
              && OnlyRow(s, r.value, id)
              && PendingEdit(s.events[id].row, r.value.events[id].row)
              && r.value.events[id].row == s.events[id].row.(status := Cancelled, completedAt := Some(at))
    ensures var r := Cancel(s, id, owner, at);
            r.Raised? ==> r.error == if id in s.events && (owner.Some? ==> s.events[id].row.user == owner.value)
                                     then LifecycleConflict else DoesNotExist
  {
  }

  /** A move succeeds exactly for an aware, strictly future, representable time on the
      caller's pending event. */
  lemma RescheduleOnlyPending(s: Store, id: int, owner: int, time: When, now: int)
    ensures Reschedule(s, id, owner, time, now).Ok? <==>
              id in s.events && s.events[id].row.status == Scheduled && s.events[id].row.user == owner
              && time.Aware? && now < time.at <= MAX_UTC
    ensures var r := Reschedule(s, id, owner, time, now);
            r.Ok? ==>
              && OnlyRow(s, r.value, id)
              && PendingEdit(s.events[id].row, r.value.events[id].row)
              && r.value.events[id].row == s.events[id].row.(scheduledFor := time.at)
    ensures var r := Reschedule(s, id, owner, time, now);
            r.Raised? ==> r.error == if id !in s.events || s.events[id].row.user != owner then DoesNotExist
                                     else if s.events[id].row.status != Scheduled then LifecycleConflict
                                     else if time.Aware? && now < time.at then OverflowError
                                     else ValidationError
  {
  }

  lemma ChangeChannelOnlyPending(s: Store, id: int, owner: int, channel: string)
    ensures ChangeChannel(s, id, owner, channel).Ok? <==>
              id in s.events && s.events[id].row.status == Scheduled && s.events[id].row.user == owner
              && channel in ["sms", "voice"]
    ensures var r := ChangeChannel(s, id, owner, channel);
            r.Ok? ==>
              && OnlyRow(s, r.value, id)
              && PendingEdit(s.events[id].row, r.value.events[id].row)
              && r.value.events[id].row == s.events[id].row.(channel := if channel == "sms" then Sms else Voice)
    ensures var r := ChangeChannel(s, id, owner, channel);
            r.Raised? ==> r.error == if id !in s.events || s.events[id].row.user != owner then DoesNotExist
                                     else if s.events[id].row.status != Scheduled then LifecycleConflict
                                     else ValidationError
  {
  }

  /** A cancelled event never comes back: every later cancellation, move or switch of it, by
      anybody, is a lifecycle conflict for those who may see it, and does not exist for others. */
  lemma CancelIsFinal(s: Store, id: int, owner: Option<int>, at: int, again: Option<int>, at2: int, user: int,
                      time: When, now: int, channel: string)
    requires Cancel(s, id, owner, at).Ok?
    ensures var t := Cancel(s, id, owner, at).value;
            && id in t.events
            && Cancel(t, id, again, at2)
               == Raised(if again.None? || again.value == t.events[id].row.user then LifecycleConflict
                         else DoesNotExist)
            && Reschedule(t, id, user, time, now)
               == Raised(if user == t.events[id].row.user then LifecycleConflict else DoesNotExist)
            && ChangeChannel(t, id, user, channel)
               == Raised(if user == t.events[id].row.user then LifecycleConflict else DoesNotExist)
  {
  }

  /** An event is created exactly for a verified phone of the user, five digits, one of the channels
      and a time to come; it is pending, a demo and unstarted, and holds what was asked for. */
  lemma CreateIsSafe(s: Store, newId: int, user: int, phone: int, zip: string, at: int, channel: string, now: int)
    requires newId !in s.events
    ensures Create(s, newId, user, phone, zip, at, channel, now).Ok? <==>
              && phone in s.phones && s.phones[phone].user == user && s.phones[phone].verifiedAt.Some?
              && |zip| == 5 && (forall i :: 0 <= i < 5 ==> DecimalDigit(zip[i]))
              && channel in ["sms", "voice"] && now < at
    ensures var r := Create(s, newId, user, phone, zip, at, channel, now);
            if r.Ok? then
              var row := Event(user, phone, zip, at, if channel == "sms" then Sms else Voice, true, Scheduled, None,
                               None);
              r.value == s.(events := s.events[newId := Entry(row, [])])
            else r == Raised(ValidationError)
  {
  }
}
