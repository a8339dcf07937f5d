/** The transactions users, staff and the provider start, seen as one kind of step: what any
    of them may do to an event that a worker may be delivering. */
module Services {
  import opened Records
  import opened Tables
  import opened Ordering
  import opened Scheduling
  import opened Coupling
  import opened VoiceCallbacks
  import opened InboundSms

  datatype Op =
    | CreateOp(newId: int, user: int, phone: int, zip: string, at: int, channel: string, now: int)
    | InsertOp(newId: int, row: Event) // a pending event, demo or real, saved by staff
    | PhonesOp(phones: map<int, Phone>) // enrolment, verification and edits of phone rows
    | CancelOp(id: int, owner: Option<int>, at: int)
    | RescheduleOp(id: int, user: int, time: When, now: int)
    | ChannelOp(id: int, user: int, channel: string)
    | StatusOp(sid: string, status: Option<ProviderStatus>, sequence: int, at: int)
    | MenuOp(sid: string, digit: string, at: int)
    | SmsOp(sid: string, sender: string, request: Request, at: int, now: int)

  predicate OpEnabled(s: Store, op: Op) {
    match op
    case CreateOp(newId, _, _, _, _, _, _) => newId !in s.events
    case InsertOp(newId, row) => newId !in s.events && row.status == Scheduled && row.startedAt.None?
                                 && row.completedAt.None?
    case _ => true
  }

  /** The committed store; an operation that raises leaves the store as it was. */
  function Apply(s: Store, op: Op): Store {
    match op
    case CreateOp(newId, user, phone, zip, at, channel, now) =>
      Committed(s, Create(s, newId, user, phone, zip, at, channel, now))
    case InsertOp(newId, row) => WithEntry(s, newId, Entry(row, []))
    case PhonesOp(phones) => s.(phones := phones)
    case CancelOp(id, owner, at) => Committed(s, Cancel(s, id, owner, at))
    case RescheduleOp(id, user, time, now) => Committed(s, Reschedule(s, id, user, time, now))
    case ChannelOp(id, user, channel) => Committed(s, ChangeChannel(s, id, user, channel))
    case StatusOp(sid, status, sequence, at) =>
      var r := VoiceStatus(s, sid, status, sequence, at);
      if r.Ok? then r.value.store else s
    case MenuOp(sid, digit, at) =>
      var r := VoiceMenu(s, sid, digit, at);
      if r.Ok? then r.value.store else s
    case SmsOp(sid, sender, request, at, now) =>
      var r := InboundCommand(s, sid, sender, request, at, now);
      if r.Ok? then r.value.store else s
  }

  /** A recorded voice action stays. */
  ghost predicate ActionsKept(x: Entry, y: Entry) {
    && |x.attempts| == |y.attempts|
    && forall k :: 0 <= k < |x.attempts| && x.attempts[k].callbacks.result.Some? ==>
         y.attempts[k].callbacks.result == x.attempts[k].callbacks.result
         && y.attempts[k].callbacks.target == x.attempts[k].callbacks.target
  }

  /** A pending event may be edited or cancelled; of any other event only callback columns
      may change. */
  ghost predicate EntryStep(x: Entry, y: Entry) {
    || (PendingEdit(x.row, y.row) && y.attempts == x.attempts)
    || (SameDelivery(x, y) && ActionsKept(x, y))
  }

  ghost predicate Unclaimed(x: Entry) {
    x.row.status in {Scheduled, Cancelled} && x.attempts == []
  }

  ghost predicate SmsKept(s: Store, t: Store) {
    forall k :: k in s.sms ==> k in t.sms && t.sms[k] == s.sms[k]
  }

  ghost predicate ServiceStep(s: Store, t: Store) {
    && StoreOk(t)
    && SmsKept(s, t)
    && (forall e :: e in s.events ==> e in t.events && EntryStep(s.events[e], t.events[e]))
    && (forall e :: e in t.events && e !in s.events ==> Unclaimed(t.events[e]))
  }

  lemma SameIsStep(s: Store)
    requires StoreOk(s)
    ensures ServiceStep(s, s)
  {
  }

  lemma RowIsStep(s: Store, t: Store, id: int)
    requires StoreOk(s) && OnlyRow(s, t, id) && PendingEdit(s.events[id].row, t.events[id].row)
    ensures ServiceStep(s, t)
  {
  }

  lemma EntryStepTransitive(x: Entry, y: Entry, z: Entry)
    requires Coupled(x) && EntryStep(x, y) && EntryStep(y, z)
    ensures EntryStep(x, z)
  {
  }

  lemma StepTransitive(s: Store, t: Store, u: Store)
    requires StoreOk(s) && ServiceStep(s, t) && ServiceStep(t, u)
    ensures ServiceStep(s, u)
  {
    forall e | e in s.events ensures e in u.events && EntryStep(s.events[e], u.events[e]) {
      EntryStepTransitive(s.events[e], t.events[e], u.events[e]);
    }
    forall e | e in u.events && e !in s.events ensures Unclaimed(u.events[e]) {
      if e in t.events {
        assert EntryStep(t.events[e], u.events[e]);
        assert Unclaimed(t.events[e]);
      }
    }
  }

  /** Writing callback columns of a submitted attempt, without touching a recorded action. */
  lemma CallbackIsStep(s: Store, id: int, k: nat, c: Callbacks)
    requires StoreOk(s) && id in s.events && k < |s.events[id].attempts|
    requires var a := s.events[id].attempts[k];
             a.status == AttemptSubmitted
             && (a.callbacks.result.Some? ==> c.result == a.callbacks.result && c.target == a.callbacks.target)
    ensures ServiceStep(s, WithAttempt(s, id, k, s.events[id].attempts[k].(callbacks := c)))
  {
    var x := s.events[id];
    var y := x.(attempts := x.attempts[k := x.attempts[k].(callbacks := c)]);
    CallbackOnEntry(x, y, k, c);
  }

  lemma CallbackOnEntry(x: Entry, y: Entry, k: nat, c: Callbacks)
    requires Coupled(x) && k < |x.attempts| && x.attempts[k].status == AttemptSubmitted
    requires x.attempts[k].callbacks.result.Some? ==>
               c.result == x.attempts[k].callbacks.result && c.target == x.attempts[k].callbacks.target
    requires y == x.(attempts := x.attempts[k := x.attempts[k].(callbacks := c)])
    ensures SameDelivery(x, y) && ActionsKept(x, y) && Coupled(y)
  {
  }

  lemma StatusIsStep(s: Store, sid: string, status: Option<ProviderStatus>, sequence: int, at: int)
    requires StoreOk(s) && VoiceStatus(s, sid, status, sequence, at).Ok?
    ensures ServiceStep(s, VoiceStatus(s, sid, status, sequence, at).value.store)
  {
    SameIsStep(s);
    var call := FindCall(s, sid).value;
    CallbackIsStep(s, call.event, call.index, Advanced(AttemptAt(s, call).callbacks, status.value, sequence, at));
  }

  lemma PressedIsStep(s: Store, user: int, digit: string, at: int)
    requires StoreOk(s) && (digit == "1" || digit == "2")
    ensures ServiceStep(s, PressedOn(s, user, digit, at).store)
  {
    SameIsStep(s);
    PressedKeepsAttempts(s, user, digit, at);
    var p := PressedOn(s, user, digit, at);
    if p.target.Some? {
      RowIsStep(s, p.store, p.target.value);
    }
  }

  lemma MenuIsStep(s: Store, sid: string, digit: string, at: int)
    requires StoreOk(s) && VoiceMenu(s, sid, digit, at).Ok?
    ensures ServiceStep(s, VoiceMenu(s, sid, digit, at).value.store)
  {
    SameIsStep(s);
    var call := FindCall(s, sid).value;
    var user := s.events[call.event].row.user;
    if AttemptAt(s, call).callbacks.result.None? {
      PressedIsStep(s, user, digit, at);
      PressedKeepsAttempts(s, user, digit, at);
      var p := PressedOn(s, user, digit, at);
      var t := VoiceMenu(s, sid, digit, at).value.store;
      CallbackIsStep(p.store, call.event, call.index, AttemptAt(t, call).callbacks);
      StepTransitive(s, p.store, t);
    }
  }

  lemma SmsIsStep(s: Store, sid: string, sender: string, request: Request, at: int, now: int)
    requires StoreOk(s) && InboundCommand(s, sid, sender, request, at, now).Ok?
    ensures ServiceStep(s, InboundCommand(s, sid, sender, request, at, now).value.store)
  {
    RecordsOnlyGrow(s, sid, sender, request, at, now);
    if sid !in s.sms {
      DecisionTouchesOnlyTarget(s, sender, request, at, now);
      var d := Decide(s, sender, request, at, now).value;
      forall e | e in s.events ensures EntryStep(s.events[e], d.store.events[e]) && Coupled(d.store.events[e]) {
        if Some(e) == d.target && d.store.events[e].row != s.events[e].row {
          assert s.events[e].row.status == Scheduled;
        }
      }
    }
  }

  /** Every operation is a step that no delivery notices. */
  lemma OpStep(s: Store, op: Op)
    requires StoreOk(s) && OpEnabled(s, op)
    ensures ServiceStep(s, Apply(s, op))
  {
    SameIsStep(s);
    match op
    case CreateOp(newId, user, phone, zip, at, channel, now) =>
      CreateIsSafe(s, newId, user, phone, zip, at, channel, now);
    case InsertOp(_, _) =>
    case PhonesOp(_) =>
    case CancelOp(id, owner, at) =>
      CancelOnlyPending(s, id, owner, at);
      if Cancel(s, id, owner, at).Ok? {
        RowIsStep(s, Apply(s, op), id);
      }
    case RescheduleOp(id, user, time, now) =>
      RescheduleOnlyPending(s, id, user, time, now);
      if Reschedule(s, id, user, time, now).Ok? {
        RowIsStep(s, Apply(s, op), id);
      }
    case ChannelOp(id, user, channel) =>
      ChangeChannelOnlyPending(s, id, user, channel);
      if ChangeChannel(s, id, user, channel).Ok? {
        RowIsStep(s, Apply(s, op), id);
      }
    case StatusOp(sid, status, sequence, at) =>
      if VoiceStatus(s, sid, status, sequence, at).Ok? {
        StatusIsStep(s, sid, status, sequence, at);
      }
    case MenuOp(sid, digit, at) =>
      if VoiceMenu(s, sid, digit, at).Ok? {
        MenuIsStep(s, sid, digit, at);
      }
    case SmsOp(sid, sender, request, at, now) =>
      if InboundCommand(s, sid, sender, request, at, now).Ok? {
        SmsIsStep(s, sid, sender, request, at, now);
      }
  }
}
