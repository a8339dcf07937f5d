/** Row objects as the object mapper hands them out, and the tables they are saved to.

    `select_for_update().get(...)` gives a fresh object that holds a copy of the row; the
    services assign to its fields and `save(update_fields=[...])` writes back the named
    columns only. */
module Tables {
  import opened Records

  datatype EventColumn = StatusColumn | ScheduledForColumn | ChannelColumn | StartedAtColumn | CompletedAtColumn

  /** The row after saving the named columns of an object whose fields are `fields`. */
  function SavedRow(row: Event, fields: Event, columns: set<EventColumn>): Event {
    row.(
    status := if StatusColumn in columns then fields.status else row.status,
    scheduledFor := if ScheduledForColumn in columns then fields.scheduledFor else row.scheduledFor,
    channel := if ChannelColumn in columns then fields.channel else row.channel,
    startedAt := if StartedAtColumn in columns then fields.startedAt else row.startedAt,
    completedAt := if CompletedAtColumn in columns then fields.completedAt else row.completedAt)
  }

  class ScheduledEvent {
    const id: int
    const user: int
    const phone: int
    const zip: string
    const isDemo: bool
    var scheduledFor: int
    var channel: Channel
    var status: EventStatus
    var startedAt: Option<int>
    var completedAt: Option<int>

    function Row(): Event
      reads this
    {
      Event(user, phone, zip, scheduledFor, channel, isDemo, status, startedAt, completedAt)
    }

    constructor (id: int, row: Event)
      ensures this.id == id && Row() == row
    {
      this.id := id;
      user, phone, zip, isDemo := row.user, row.phone, row.zip, row.isDemo;
      scheduledFor, channel := row.scheduledFor, row.channel;
      status, startedAt, completedAt := row.status, row.startedAt, row.completedAt;
    }

    method TransitionTo(newStatus: EventStatus, at: int) returns (r: Outcome<()>)
      modifies this
      ensures r == if newStatus in Allowed(old(status)) then Ok(()) else Raised(ValidationError)
      ensures Row() == if r.Ok? then Moved(old(Row()), newStatus, at) else old(Row())
    {
      if newStatus !in Allowed(status) {
        return Raised(ValidationError);
      }
      status := newStatus;
      if newStatus == Processing {
        startedAt := Some(at);
      } else if newStatus in {Submitted, Failed, Suppressed, Cancelled} {
        completedAt := Some(at);
      }
      return Ok(());
    }
  }

  datatype AttemptColumn =
    | AttemptStatusColumn | AttemptCompletedAtColumn | ErrorCodeColumn | MessageColumn | SidColumn
    | ProviderStatusColumn | SequenceColumn | StatusAtColumn
    | DigitColumn | ResultColumn | TargetColumn | ActionAtColumn

  function SavedAttempt(a: Attempt, fields: Attempt, columns: set<AttemptColumn>): Attempt {
    var c, f := a.callbacks, fields.callbacks;
    a.(
    status := if AttemptStatusColumn in columns then fields.status else a.status,
    completedAt := if AttemptCompletedAtColumn in columns then fields.completedAt else a.completedAt,
    error := if ErrorCodeColumn in columns then fields.error else a.error,
    message := if MessageColumn in columns then fields.message else a.message,
    sid := if SidColumn in columns then fields.sid else a.sid,
    callbacks := Callbacks(
      if ProviderStatusColumn in columns then f.status else c.status,
      if SequenceColumn in columns then f.sequence else c.sequence,
      if StatusAtColumn in columns then f.statusAt else c.statusAt,
      if DigitColumn in columns then f.digit else c.digit,
      if ResultColumn in columns then f.result else c.result,
      if TargetColumn in columns then f.target else c.target,
      if ActionAtColumn in columns then f.actionAt else c.actionAt))
  }

  /** What `apply_provider_status` makes of a callback once it is accepted as well formed. */
  function Advanced(c: Callbacks, status: ProviderStatus, sequence: nat, at: int): Callbacks {
    if c.status.Some? && TerminalProviderStatus(c.status.value) then c
    else if c.sequence.Some? && sequence <= c.sequence.value then c
    else c.(status := Some(status), sequence := Some(sequence), statusAt := Some(at))
  }

  class DeliveryAttempt {
    const event: int
    const index: nat // the position among the attempts of the event: its identity
    const number: nat
    var status: AttemptStatus
    var error: ErrorCode
    var sid: Option<string>
    var message: string
    var completedAt: Option<int>
    var callbacks: Callbacks

    function Row(): Attempt
      reads this
    {
      Attempt(number, status, error, sid, message, completedAt, callbacks)
    }

    constructor (event: int, index: nat, a: Attempt)
      ensures this.event == event && this.index == index && Row() == a
    {
      this.event, this.index, number := event, index, a.number;
      status, error, sid := a.status, a.error, a.sid;
      message, completedAt, callbacks := a.message, a.completedAt, a.callbacks;
    }

    method TransitionTo(newStatus: AttemptStatus, at: int) returns (r: Outcome<()>)
      modifies this
      ensures r == if old(status) == AttemptProcessing && newStatus != AttemptProcessing
                   then Ok(()) else Raised(ValidationError)
      ensures Row() == if r.Ok? then Ended(old(Row()), newStatus, at) else old(Row())
    {
      if status != AttemptProcessing || newStatus !in {AttemptSubmitted, AttemptFailed, AttemptSuppressed} {
        return Raised(ValidationError);
      }
      status := newStatus;
      completedAt := Some(at);
      return Ok(());
    }

    /** `newStatus` is `None` for a text outside the provider's choices. */
    method ApplyProviderStatus(newStatus: Option<ProviderStatus>, sequence: int, at: int)
      returns (r: Outcome<bool>)
      modifies this`callbacks
      ensures newStatus.None? || sequence < 0 ==> r == Raised(ValidationError) && callbacks == old(callbacks)
      ensures newStatus.Some? && sequence >= 0 ==>
                && callbacks == Advanced(old(callbacks), newStatus.value, sequence, at)
                && r.Ok?
                && (!r.value ==> callbacks == old(callbacks))
                && (r.value ==> callbacks.status == newStatus && callbacks.sequence == Some(sequence)
                                && (old(callbacks).sequence.Some? ==> old(callbacks).sequence.value < sequence))
    {
      if newStatus.None? {
        return Raised(ValidationError);
      }
      if sequence < 0 {
        return Raised(ValidationError);
      }
      if callbacks.status.Some? && TerminalProviderStatus(callbacks.status.value) {
        return Ok(false);
      }
      if callbacks.sequence.Some? && sequence <= callbacks.sequence.value {
        return Ok(false);
      }
      callbacks := callbacks.(status := newStatus);
      callbacks := callbacks.(sequence := Some(sequence));
      callbacks := callbacks.(statusAt := Some(at));
      return Ok(true);
    }
  }

  function WithRow(s: Store, id: int, row: Event): Store
    requires id in s.events
  {
    WithEntry(s, id, s.events[id].(row := row))
  }

  function WithAttempt(s: Store, id: int, k: nat, a: Attempt): Store
    requires id in s.events && k < |s.events[id].attempts|
  {
    WithEntry(s, id, s.events[id].(attempts := s.events[id].attempts[k := a]))
  }

  class Database {
    var store: Store

    constructor (store: Store)
      ensures this.store == store
    {
      this.store := store;
    }

    method GetEvent(id: int) returns (e: ScheduledEvent?)
      ensures e == null <==> id !in store.events
      ensures e != null ==> fresh(e) && e.id == id && e.Row() == store.events[id].row
    {
      if id !in store.events {
        return null;
      }
      e := new ScheduledEvent(id, store.events[id].row);
    }

    method GetAttempt(event: int, index: nat) returns (a: DeliveryAttempt?)
      ensures a == null <==> event !in store.events || index >= |store.events[event].attempts|
      ensures a != null ==> fresh(a) && a.event == event && a.index == index
                            && a.Row() == store.events[event].attempts[index]
    {
      if event !in store.events || index >= |store.events[event].attempts| {
        return null;
      }
      a := new DeliveryAttempt(event, index, store.events[event].attempts[index]);
    }

    method SaveEvent(e: ScheduledEvent, columns: set<EventColumn>)
      requires e.id in store.events
      modifies this
      ensures store == WithRow(old(store), e.id, SavedRow(old(store).events[e.id].row, e.Row(), columns))
    {
      store := WithRow(store, e.id, SavedRow(store.events[e.id].row, e.Row(), columns));
    }

    /** `DeliveryAttempt.objects.create(event=..., attempt_number=...)`. */
    method InsertAttempt(event: int, number: nat) returns (a: DeliveryAttempt)
      requires event in store.events
      modifies this
      ensures var x := old(store).events[event];
              && store == WithEntry(old(store), event, x.(attempts := x.attempts + [NewAttempt(number)]))
              && fresh(a) && a.event == event && a.index == |x.attempts| && a.Row() == NewAttempt(number)
    {
      var x := store.events[event];
      a := new DeliveryAttempt(event, |x.attempts|, NewAttempt(number));
      store := WithEntry(store, event, x.(attempts := x.attempts + [NewAttempt(number)]));
    }

    /** The provider SID is unique over all attempts. */
    method SaveAttempt(a: DeliveryAttempt, columns: set<AttemptColumn>) returns (r: Outcome<()>)
      requires a.event in store.events && a.index < |store.events[a.event].attempts|
      modifies this
      ensures r == if SidColumn in columns && a.sid.Some? && SidTaken(old(store), a.sid.value, a.event, a.index)
                   then Raised(IntegrityError) else Ok(())
      ensures store == if r.Raised? then old(store)
                       else WithAttempt(old(store), a.event, a.index,
                                        SavedAttempt(old(store).events[a.event].attempts[a.index], a.Row(), columns))
    {
      if SidColumn in columns && a.sid.Some? && SidTaken(store, a.sid.value, a.event, a.index) {
        return Raised(IntegrityError);
      }
      store := WithAttempt(store, a.event, a.index,
                           SavedAttempt(store.events[a.event].attempts[a.index], a.Row(), columns));
      return Ok(());
    }
  }
}
