/** The two callbacks a voice call sends: its progress, and the digit the callee pressed. */
module VoiceCallbacks {
  import opened Records
  import opened Tables
  import opened Ordering
  import opened Scheduling
  import opened Coupling

  // ----- the attempt a call belongs to

  datatype Call = Call(event: int, index: nat)

  predicate IsCall(a: Attempt, sid: string) {
    a.sid == Some(sid) && a.status == AttemptSubmitted
  }

  /** The first attempt that was submitted under this SID. */
  function CallAmong(attempts: seq<Attempt>, sid: string): (r: Option<nat>)
    ensures r.Some? ==> r.value < |attempts| && IsCall(attempts[r.value], sid)
    ensures r.None? ==> forall k :: 0 <= k < |attempts| ==> !IsCall(attempts[k], sid)
  {
    if attempts == [] then None
    else
      var n := |attempts| - 1;
      match CallAmong(attempts[..n], sid)
      case Some(k) => Some(k)
      case None => if IsCall(attempts[n], sid) then Some(n) else None
  }

  function CallEvents(s: Store, sid: string): set<int> {
    set e | e in s.events && s.events[e].row.channel == Voice && CallAmong(s.events[e].attempts, sid).Some?
  }

  /** `get(provider_sid=..., event__channel=VOICE, status=SUBMITTED)`. */
  function FindCall(s: Store, sid: string): (r: Option<Call>)
    ensures r.Some? ==>
              && r.value.event in s.events && r.value.index < |s.events[r.value.event].attempts|
              && s.events[r.value.event].row.channel == Voice
              && IsCall(s.events[r.value.event].attempts[r.value.index], sid)
    ensures r.None? ==>
              forall e, k ::
                e in s.events && 0 <= k < |s.events[e].attempts| && s.events[e].row.channel == Voice ==>
                  !IsCall(s.events[e].attempts[k], sid)
  {
    var events := CallEvents(s, sid);
    if events == {} then
      NoCall(s, sid);
      None
    else
      var e := Least(events);
      Some(Call(e, CallAmong(s.events[e].attempts, sid).value))
  }

  lemma NoCall(s: Store, sid: string)
    requires CallEvents(s, sid) == {}
    ensures forall e, k :: e in s.events && 0 <= k < |s.events[e].attempts| && s.events[e].row.channel == Voice
                           ==> !IsCall(s.events[e].attempts[k], sid)
  {
    forall e, k | e in s.events && 0 <= k < |s.events[e].attempts| && s.events[e].row.channel == Voice
      ensures !IsCall(s.events[e].attempts[k], sid)
    {
      assert e !in CallEvents(s, sid);
    }
  }

  function AttemptAt(s: Store, c: Call): Attempt
    requires c.event in s.events && c.index < |s.events[c.event].attempts|
  {
    s.events[c.event].attempts[c.index]
  }

  /** The attempt was submitted as a voice call under this SID. */
  ghost predicate TheCall(s: Store, sid: string, e: int, k: nat) {
    && e in s.events && k < |s.events[e].attempts|
    && s.events[e].row.channel == Voice
    && s.events[e].attempts[k].sid == Some(sid) && s.events[e].attempts[k].status == AttemptSubmitted
  }

  /** The SIDs are unique, so a callback finds the one call it is about, and none exactly when
      there is none. */
  lemma CallIsFound(s: Store, sid: string, e: int, k: nat)
    requires UniqueSids(s)
    ensures FindCall(s, sid) == Some(Call(e, k)) <==> TheCall(s, sid, e, k)
  {
    var call := FindCall(s, sid);
    if call.Some? && TheCall(s, sid, e, k) {
      assert s.events[call.value.event].attempts[call.value.index].sid == s.events[e].attempts[k].sid;
    }
  }

  /** No voice call was submitted under this SID. */
  ghost predicate NoSuchCall(s: Store, sid: string) {
    forall e, k: nat :: !TheCall(s, sid, e, k)
  }

  lemma NoCallIsFound(s: Store, sid: string)
    ensures FindCall(s, sid).None? <==> NoSuchCall(s, sid)
  {
    var call := FindCall(s, sid);
    if call.Some? {
      assert TheCall(s, sid, call.value.event, call.value.index);
    }
  }

  /** `s` with other callback columns on one attempt. */
  ghost function WithCallbacks(s: Store, e: int, k: nat, c: Callbacks): Store
    requires e in s.events && k < |s.events[e].attempts|
  {
    var x := s.events[e];
    s.(events := s.events[e := x.(attempts := x.attempts[k := x.attempts[k].(callbacks := c)])])
  }

  // ----- progress of the call

  datatype StatusUpdate = StatusUpdate(store: Store, applied: bool)

  /** `record_voice_status_callback`. */
  function VoiceStatus(s: Store, sid: string, status: Option<ProviderStatus>, sequence: int,
                       at: int): Outcome<StatusUpdate> {
    if !("CA" <= sid) then Raised(ValidationError)
    else
      match FindCall(s, sid)
      case None => Raised(AttemptNotFound)
      case Some(call) =>
        if status.None? || sequence < 0 then Raised(ValidationError)
        else
          var a := AttemptAt(s, call);
          var updated := Advanced(a.callbacks, status.value, sequence, at);
          if updated == a.callbacks then Ok(StatusUpdate(s, false))
          else Ok(StatusUpdate(WithAttempt(s, call.event, call.index, a.(callbacks := updated)), true))
  }

  method RecordVoiceStatusCallback(db: Database, sid: string, status: Option<ProviderStatus>, sequence: int, at: int)
    returns (r: Outcome<bool>)
    modifies db
    ensures var spec := VoiceStatus(old(db.store), sid, status, sequence, at);
            if spec.Ok? then r == Ok(spec.value.applied) && db.store == spec.value.store
            else r == Raised(spec.error) && db.store == old(db.store)
  {
    if !("CA" <= sid) {
      return Raised(ValidationError);
    }
    var call := FindCall(db.store, sid);
    if call.None? {
      return Raised(AttemptNotFound);
    }
    var attempt := db.GetAttempt(call.value.event, call.value.index);
    var applied :- attempt.ApplyProviderStatus(status, sequence, at);
    if applied {
      var saved := db.SaveAttempt(attempt, {ProviderStatusColumn, SequenceColumn, StatusAtColumn});
    }
    return Ok(applied);
  }

  /** The progress of the call may still change. */
  ghost predicate Advances(c: Callbacks, sequence: int) {
    && (c.status.Some? ==> c.status.value !in {Completed, Busy, NoAnswer, ProviderFailed, Canceled})
    && (c.sequence.Some? ==> c.sequence.value < sequence)
  }

  /** A status callback of a call: an unknown status or a negative number is refused; otherwise it is
      applied exactly when the call is not over and the number is newer, and then its status, number
      and time stand on the call's attempt and nothing else changes. */
  lemma StatusOfCall(s: Store, sid: string, status: Option<ProviderStatus>, sequence: int, at: int, e: int, k: nat)
    requires UniqueSids(s) && TheCall(s, sid, e, k)
    ensures var r := VoiceStatus(s, sid, status, sequence, at);
            var c := s.events[e].attempts[k].callbacks;
            if !("CA" <= sid) || status.None? || sequence < 0 then r == Raised(ValidationError)
            else if Advances(c, sequence) then
              r == Ok(StatusUpdate(
                        WithCallbacks(s, e, k, Callbacks(status, Some(sequence), Some(at), c.digit, c.result, c.target,
                                                         c.actionAt)), true))
            else r == Ok(StatusUpdate(s, false))
  {
    CallIsFound(s, sid, e, k);
  }

  /** Without a submitted voice call under its SID a status callback raises and changes nothing. */
  lemma StatusWithoutCall(s: Store, sid: string, status: Option<ProviderStatus>, sequence: int, at: int)
    requires NoSuchCall(s, sid)
    ensures VoiceStatus(s, sid, status, sequence, at)
            == Raised(if "CA" <= sid then AttemptNotFound else ValidationError)
  {
    NoCallIsFound(s, sid);
  }

  // ----- the digit

  datatype MenuResult = MenuResult(store: Store, outcome: VoiceResult, target: Option<int>, applied: bool)

  /** What a digit does to the owner's next pending event. */
  datatype MenuEffect = MenuEffect(store: Store, outcome: VoiceResult, target: Option<int>)

  function PressedOn(s: Store, user: int, digit: string, at: int): MenuEffect
    requires digit == "1" || digit == "2"
  {
    match NextPending(s, user)
    case None => MenuEffect(s, VoiceNoPending, None)
    case Some(id) =>
      if digit == "1" then MenuEffect(Committed(s, Cancel(s, id, Some(user), at)), VoiceCancelled, Some(id))
      else MenuEffect(Committed(s, ChangeChannel(s, id, user, "sms")), VoiceSwitched, Some(id))
  }

  /** `apply_voice_menu_action`. The effect on the owner's event and the record of it on the
      attempt are one transaction. */
  function VoiceMenu(s: Store, sid: string, digit: string, at: int): Outcome<MenuResult> {
    if digit != "1" && digit != "2" then Raised(ValidationError)
    else
      match FindCall(s, sid)
      case None => Raised(AttemptNotFound)
      case Some(call) =>
        var c := AttemptAt(s, call).callbacks;
        if c.result.Some? then Ok(MenuResult(s, c.result.value, c.target, false))
        else
          var effect := PressedOn(s, s.events[call.event].row.user, digit, at);
          PressedKeepsAttempts(s, s.events[call.event].row.user, digit, at);
          var a := AttemptAt(effect.store, call);
          var pressed := a.callbacks.(digit := digit, result := Some(effect.outcome), target := effect.target,
                                      actionAt := Some(at));
          Ok(MenuResult(WithAttempt(effect.store, call.event, call.index, a.(callbacks := pressed)),
                        effect.outcome, effect.target, true))
  }

  /** The services behind the menu never refuse: the target is pending, is the owner's, and
      is locked. They change one row and no attempt. */
  lemma PressedKeepsAttempts(s: Store, user: int, digit: string, at: int)
    requires digit == "1" || digit == "2"
    ensures var p := PressedOn(s, user, digit, at);
            && p.store.events.Keys == s.events.Keys && p.store.phones == s.phones && p.store.sms == s.sms
            && (forall e :: e in s.events ==> p.store.events[e].attempts == s.events[e].attempts)
            && (p.target.None? ==> p.store == s && PendingOf(s, user) == {} && p.outcome == VoiceNoPending)
            && (p.target.Some? ==>
                  var id := p.target.value;
                  && p.target == NextPending(s, user)
                  && OnlyRow(s, p.store, id)
                  && p.store.events[id].row == (if digit == "1"
                                                then s.events[id].row.(status := Cancelled, completedAt := Some(at))
                                                else s.events[id].row.(channel := Sms))
                  && p.outcome == (if digit == "1" then VoiceCancelled else VoiceSwitched))
  {
    if NextPending(s, user).Some? {
      var id := NextPending(s, user).value;
      CancelOnlyPending(s, id, Some(user), at);
      ChangeChannelOnlyPending(s, id, user, "sms");
    }
  }

  method ApplyVoiceMenuAction(db: Database, sid: string, digit: string, at: int) returns (r: Outcome<MenuResult>)
    modifies db
    ensures r == VoiceMenu(old(db.store), sid, digit, at)
    ensures db.store == if r.Ok? then r.value.store else old(db.store)
  {
    if digit !in {"1", "2"} {
      return Raised(ValidationError);
    }
    var call := FindCall(db.store, sid);
    if call.None? {
      return Raised(AttemptNotFound);
    }
    var attempt := db.GetAttempt(call.value.event, call.value.index);
    if attempt.callbacks.result.Some? {
      return Ok(MenuResult(db.store, attempt.callbacks.result.value, attempt.callbacks.target, false));
    }
    var user := db.store.events[call.value.event].row.user;
    var outcome, target := PressDigit(db, user, digit, at);
    PressedKeepsAttempts(old(db.store), user, digit, at);
    attempt.callbacks := attempt.callbacks.(digit := digit);
    attempt.callbacks := attempt.callbacks.(result := Some(outcome));
    attempt.callbacks := attempt.callbacks.(target := target);
    attempt.callbacks := attempt.callbacks.(actionAt := Some(at));
    var saved := db.SaveAttempt(attempt, {DigitColumn, ResultColumn, TargetColumn, ActionAtColumn});
    return Ok(MenuResult(db.store, outcome, target, true));
  }

  /** The branch on the target and the digit. */
  method PressDigit(db: Database, user: int, digit: string, at: int) returns (outcome: VoiceResult, target: Option<int>)
    requires digit == "1" || digit == "2"
    modifies db
    ensures PressedOn(old(db.store), user, digit, at) == MenuEffect(db.store, outcome, target)
  {
    target := NextPending(db.store, user);
    if target.None? {
      outcome := VoiceNoPending;
    } else if digit == "1" {
      var cancelled := CancelUserScheduledEvent(db, target.value, user, at);
      outcome := VoiceCancelled;
    } else {
      var switched := ChangeUserScheduledEventChannel(db, target.value, user, "sms");
      outcome := VoiceSwitched;
    }
  }

  // ----- properties

  /** What a first digit makes of the row of its target. */
  ghost function Replied(row: Event, digit: string, at: int): Event {
    if digit == "1" then row.(status := Cancelled, completedAt := Some(at)) else row.(channel := Sms)
  }

  ghost function ReplyResult(digit: string): VoiceResult {
    if digit == "1" then VoiceCancelled else VoiceSwitched
  }

  /** The store after a digit that is applied: the row of the target, and the record on the call. */
  ghost function AfterDigit(s: Store, e: int, k: nat, digit: string, at: int, outcome: VoiceResult,
                            target: Option<int>): Store
    requires e in s.events && k < |s.events[e].attempts|
  {
    var c := s.events[e].attempts[k].callbacks;
    var t := WithCallbacks(s, e, k, Callbacks(c.status, c.sequence, c.statusAt, digit, Some(outcome), target,
                                              Some(at)));
    if target.Some? && target.value in s.events && target.value != e then
      var x := s.events[target.value];
      t.(events := t.events[target.value := x.(row := Replied(x.row, digit, at))])
    else t
  }

  /** A digit of a call: another digit than 1 and 2 is refused, a call with a recorded action gets
      that action again, and the first digit cancels or switches the owner's first pending event, if
      there is one, and is recorded on the call. */
  lemma DigitOfCall(s: Store, sid: string, digit: string, at: int, e: int, k: nat)
    requires StoreOk(s) && UniqueSids(s) && TheCall(s, sid, e, k)
    ensures var r := VoiceMenu(s, sid, digit, at);
            var c, user := s.events[e].attempts[k].callbacks, s.events[e].row.user;
            if digit != "1" && digit != "2" then r == Raised(ValidationError)
            else if c.result.Some? then r == Ok(MenuResult(s, c.result.value, c.target, false))
            else if NonePending(s, user) then
              r == Ok(MenuResult(AfterDigit(s, e, k, digit, at, VoiceNoPending, None), VoiceNoPending, None, true))
            else
              && r.Ok? && r.value.target.Some? && FirstPending(s, user, r.value.target.value)
              && r.value == MenuResult(AfterDigit(s, e, k, digit, at, ReplyResult(digit), r.value.target),
                                       ReplyResult(digit), r.value.target, true)
  {
    CallIsFound(s, sid, e, k);
    if (digit == "1" || digit == "2") && s.events[e].attempts[k].callbacks.result.None? {
      FirstDigit(s, sid, digit, at, e, k);
    }
  }

  /** What the services behind a digit make of the store. */
  lemma PressedOnRows(s: Store, user: int, digit: string, at: int)
    requires digit == "1" || digit == "2"
    ensures var p, target := PressedOn(s, user, digit, at), NextPending(s, user);
            && p.target == target
            && p.outcome == (if target.None? then VoiceNoPending else ReplyResult(digit))
            && if target.None? then p.store == s
               else
                 var x := s.events[target.value];
                 p.store == s.(events := s.events[target.value := x.(row := Replied(x.row, digit, at))])
  {
    PressedKeepsAttempts(s, user, digit, at);
    var p := PressedOn(s, user, digit, at);
    if p.target.Some? {
      var id := p.target.value;
      assert p.store.events == s.events[id := s.events[id].(row := Replied(s.events[id].row, digit, at))];
    }
  }

  lemma FirstDigit(s: Store, sid: string, digit: string, at: int, e: int, k: nat)
    requires StoreOk(s) && FindCall(s, sid) == Some(Call(e, k)) && (digit == "1" || digit == "2")
    requires s.events[e].attempts[k].callbacks.result.None?
    ensures var user := s.events[e].row.user;
            var target := NextPending(s, user);
            var outcome := if target.None? then VoiceNoPending else ReplyResult(digit);
            && VoiceMenu(s, sid, digit, at)
               == Ok(MenuResult(AfterDigit(s, e, k, digit, at, outcome, target), outcome, target, true))
            && (target.None? <==> NonePending(s, user))
            && (target.Some? ==> FirstPending(s, user, target.value) && target.value != e)
  {
    var user := s.events[e].row.user;
    NextPendingIsFirst(s, user);
    PressedOnRows(s, user, digit, at);
    assert Coupled(s.events[e]);
    var target := NextPending(s, user);
    if target.Some? {
      var x, y := s.events[target.value], s.events[e];
      UpdatesCommute(s.events, target.value, x.(row := Replied(x.row, digit, at)), e,
                     AfterDigit(s, e, k, digit, at, ReplyResult(digit), target).events[e]);
    }
  }

  lemma UpdatesCommute(m: map<int, Entry>, a: int, x: Entry, b: int, y: Entry)
    requires a != b
    ensures m[a := x][b := y] == m[b := y][a := x]
  {
  }

  lemma DigitWithoutCall(s: Store, sid: string, digit: string, at: int)
    requires NoSuchCall(s, sid)
    ensures VoiceMenu(s, sid, digit, at)
            == Raised(if digit == "1" || digit == "2" then AttemptNotFound else ValidationError)
  {
    NoCallIsFound(s, sid);
  }

  /** A digit touches the owner's earliest pending event, in the way it stands for, and the
      record on the call's attempt; a repeated call touches nothing. */
  lemma MenuTouchesOnlyTarget(s: Store, sid: string, digit: string, at: int)
    requires VoiceMenu(s, sid, digit, at).Ok?
    ensures var r := VoiceMenu(s, sid, digit, at).value;
            var call := FindCall(s, sid);
            && call.Some?
            && (!r.applied <==> AttemptAt(s, call.value).callbacks.result.Some?)
            && (!r.applied ==> r.store == s)
            && r.store.events.Keys == s.events.Keys && r.store.phones == s.phones && r.store.sms == s.sms
            && (r.applied ==>
                  && (r.target.None? <==> NonePending(s, s.events[call.value.event].row.user))
                  && (r.target.Some? ==> FirstPending(s, s.events[call.value.event].row.user, r.target.value))
                  && (forall e :: e in s.events && Some(e) != r.target ==> r.store.events[e].row == s.events[e].row)
                  && match r.target
                     case None => r.outcome == VoiceNoPending
                     case Some(id) =>
                       var row, row' := s.events[id].row, r.store.events[id].row;
                       && PendingEdit(row, row')
                       && if digit == "1" then r.outcome == VoiceCancelled
                          && row' == row.(status := Cancelled, completedAt := Some(at))
                          else r.outcome == VoiceSwitched && row' == row.(channel := Sms))
  {
    var call := FindCall(s, sid).value;
    if !AttemptAt(s, call).callbacks.result.Some? {
      PressedKeepsAttempts(s, s.events[call.event].row.user, digit, at);
      NextPendingIsFirst(s, s.events[call.event].row.user);
    }
  }

  /** An applied digit is recorded on the attempt of the call and on no other attempt. */
  lemma MenuRecords(s: Store, sid: string, digit: string, at: int)
    requires VoiceMenu(s, sid, digit, at).Ok? && VoiceMenu(s, sid, digit, at).value.applied
    ensures var r := VoiceMenu(s, sid, digit, at).value;
            var call := FindCall(s, sid).value;
            && r.store.events.Keys == s.events.Keys
            && (forall e :: e in s.events ==>
                  r.store.events[e].attempts
                  == if e == call.event then s.events[e].attempts[call.index := AttemptAt(r.store, call)]
                      else s.events[e].attempts)
            && var c, c' := AttemptAt(s, call), AttemptAt(r.store, call);
               c' == c.(callbacks := c.callbacks.(digit := digit, result := Some(r.outcome), target := r.target,
                                                  actionAt := Some(at)))
  {
    PressedKeepsAttempts(s, s.events[FindCall(s, sid).value.event].row.user, digit, at);
  }

  /** The action of the call is on record. */
  ghost predicate OnRecord(s: Store, sid: string, outcome: VoiceResult, target: Option<int>) {
    var call := FindCall(s, sid);
    && call.Some?
    && AttemptAt(s, call.value).callbacks.result == Some(outcome)
    && AttemptAt(s, call.value).callbacks.target == target
  }

  lemma AnswerOnRecord(s: Store, sid: string, digit: string, at: int, outcome: VoiceResult, target: Option<int>)
    requires OnRecord(s, sid, outcome, target) && (digit == "1" || digit == "2")
    ensures VoiceMenu(s, sid, digit, at) == Ok(MenuResult(s, outcome, target, false))
  {
  }

  lemma AppliedIsFound(s: Store, sid: string, digit: string, at: int)
    requires StoreOk(s) && VoiceMenu(s, sid, digit, at).Ok? && VoiceMenu(s, sid, digit, at).value.applied
    ensures var r := VoiceMenu(s, sid, digit, at).value; OnRecord(r.store, sid, r.outcome, r.target)
  {
    MenuTouchesOnlyTarget(s, sid, digit, at);
    MenuRecords(s, sid, digit, at);
    SameCallAfter(s, VoiceMenu(s, sid, digit, at).value.store, sid);
  }

  /** The digit pressed first decides: after any applied action the same call answers every
      later valid digit with the recorded outcome and target, and changes nothing. */
  lemma MenuAppliesOnce(s: Store, sid: string, digit: string, at: int, digit2: string, at2: int)
    requires StoreOk(s)
    requires VoiceMenu(s, sid, digit, at).Ok? && (digit2 == "1" || digit2 == "2")
    ensures var r := VoiceMenu(s, sid, digit, at).value;
            VoiceMenu(r.store, sid, digit2, at2) == Ok(MenuResult(r.store, r.outcome, r.target, false))
  {
    var r := VoiceMenu(s, sid, digit, at).value;
    if r.applied {
      AppliedIsFound(s, sid, digit, at);
    } else {
      MenuTouchesOnlyTarget(s, sid, digit, at);
    }
    AnswerOnRecord(r.store, sid, digit2, at2, r.outcome, r.target);
  }

  /** The rows a call is found by: what neither callback changes. */
  lemma SameCallAfter(s: Store, t: Store, sid: string)
    requires t.events.Keys == s.events.Keys
    requires forall e :: e in s.events ==>
               && |t.events[e].attempts| == |s.events[e].attempts|
               && (s.events[e].attempts != [] ==> t.events[e].row.channel == s.events[e].row.channel)
               && forall k :: 0 <= k < |s.events[e].attempts| ==>
                    t.events[e].attempts[k].sid == s.events[e].attempts[k].sid
                    && t.events[e].attempts[k].status == s.events[e].attempts[k].status
    ensures FindCall(t, sid) == FindCall(s, sid)
  {
    forall e | e in s.events
      ensures CallAmong(t.events[e].attempts, sid) == CallAmong(s.events[e].attempts, sid)
      ensures e in CallEvents(t, sid) <==> e in CallEvents(s, sid)
    {
      SameCallAmong(s.events[e].attempts, t.events[e].attempts, sid);
    }
    assert CallEvents(t, sid) == CallEvents(s, sid);
  }

  lemma {:induction false} SameCallAmong(a: seq<Attempt>, b: seq<Attempt>, sid: string)
    requires |a| == |b|
    requires forall k :: 0 <= k < |a| ==> a[k].sid == b[k].sid && a[k].status == b[k].status
    ensures CallAmong(a, sid) == CallAmong(b, sid)
  {
    if a == [] {
    } else {
      SameCallAmong(a[..|a| - 1], b[..|a| - 1], sid);
    }
  }
}
