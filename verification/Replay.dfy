/** Callbacks over whole runs: repeated SMS and voice callbacks, with everything else going
    on in between. */
module Replay {
  import opened Records
  import opened Tables
  import opened Ordering
  import opened Claims
  import opened Delivery
  import opened Coupling
  import opened BatchClaims
  import opened VoiceCallbacks
  import opened InboundSms
  import opened Services
  import opened Protocol
  import opened Effects
  import opened Ownership

  // ----- inbound SMS

  /** No step changes or removes an SMS record. */
  lemma RecordsStay(s: Sys, l: Label)
    requires OwnInv(s) && Enabled(s, l)
    ensures SmsKept(s.db, Next(s, l).db)
  {
    NextDb(s, l);
    if l.Service? {
      OpStep(s.db, l.op);
    } else if l.StartQueued? {
      ClaimQueuedStep(s.db, s.queue[WorkerOf(s, l.w).inbox[0].msg].event, l.now, l.grace, l.allowReal);
    } else if l.StartBatch? {
      if ClaimBatch(s.db, l.locked, l.now, l.size, l.grace, l.includeReal).Ok? {
        BatchKeeps(s.db, l.locked, l.now, l.size, l.grace, l.includeReal);
      }
    } else if l.StartDirect? {
      ClaimDirectStep(s.db, l.event, l.now);
    } else if Finishes(l) {
      FinishIsRecording(s, l);
    }
  }

  lemma {:induction false} RecordsStayOverRun(states: seq<Sys>, labels: seq<Label>, i: nat, j: nat, sid: string)
    requires IsRun(states, labels) && i <= j <= |labels| && sid in states[i].db.sms
    ensures sid in states[j].db.sms && states[j].db.sms[sid] == states[i].db.sms[sid]
    decreases j
  {
    if i == j {
    } else {
      RecordsStayOverRun(states, labels, i, j - 1, sid);
      OwnRun(states, labels, j - 1);
      assert StepAt(states, labels, j - 1);
      RecordsStay(states[j - 1], labels[j - 1]);
    }
  }

  function ReplyTo(s: Store, op: Op): Outcome<Reply>
    requires op.SmsOp?
  {
    InboundCommand(s, op.sid, op.sender, op.request, op.at, op.now)
  }

  predicate IsSms(l: Label) {
    l.Service? && l.op.SmsOp?
  }

  /** Once a call with a Message SID was answered, every later call with it gets the first
      answer, whatever its sender and body, and changes nothing. */
  lemma LaterCallsAreReplays(states: seq<Sys>, labels: seq<Label>, i: nat, j: nat)
    requires IsRun(states, labels) && i < j < |labels|
    requires IsSms(labels[i]) && IsSms(labels[j]) && labels[i].op.sid == labels[j].op.sid
    requires ReplyTo(states[i].db, labels[i].op).Ok?
    ensures var first := ReplyTo(states[i].db, labels[i].op).value;
            ReplyTo(states[j].db, labels[j].op) == Ok(Reply(states[j].db, first.result, first.target, false))
    ensures states[j + 1] == states[j]
  {
    var op := labels[i].op;
    SidConsumedExactlyWhen(states[i].db, op.sid, op.sender, op.request, op.at, op.now);
    assert StepAt(states, labels, i) && StepAt(states, labels, j);
    assert states[i + 1].db == ReplyTo(states[i].db, op).value.store;
    RecordsStayOverRun(states, labels, i + 1, j, op.sid);
  }

  /** Label `j` repeats a Message SID that an earlier call of the run was answered for. */
  ghost predicate Repeats(states: seq<Sys>, labels: seq<Label>, j: nat)
    requires |states| == |labels| + 1 && j < |labels|
  {
    IsSms(labels[j]) && exists i :: 0 <= i < j && AnsweredAt(states[i], labels[i], labels[j].op.sid)
  }

  /** A call with this SID that does not overflow. */
  ghost predicate AnsweredAt(s: Sys, l: Label, sid: string) {
    IsSms(l) && l.op.sid == sid && !RaisesOverflow(s.db, sid, l.op.sender, l.op.request, l.op.now)
  }

  /** The labels without the repeated calls. */
  ghost function FirstCalls(states: seq<Sys>, labels: seq<Label>): seq<Label>
    requires |states| == |labels| + 1
  {
    if labels == [] then []
    else
      var n := |labels| - 1;
      var before := FirstCalls(states[..n + 1], labels[..n]);
      if Repeats(states, labels, n) then before else before + [labels[n]]
  }

  /** The states a run goes through without the repeated calls. */
  ghost function FirstStates(states: seq<Sys>, labels: seq<Label>): seq<Sys>
    requires |states| == |labels| + 1
  {
    if labels == [] then states
    else
      var n := |labels| - 1;
      var before := FirstStates(states[..n + 1], labels[..n]);
      if Repeats(states, labels, n) then before else before + [states[n + 1]]
  }

  lemma RunExtends(states: seq<Sys>, labels: seq<Label>, t: Sys, l: Label)
    requires IsRun(states, labels) && Enabled(states[|labels|], l) && t == Next(states[|labels|], l)
    ensures IsRun(states + [t], labels + [l])
  {
    var more, ls := states + [t], labels + [l];
    forall i | 0 <= i < |ls| ensures StepAt(more, ls, i) {
      if i < |labels| {
        assert StepAt(states, labels, i);
      }
    }
  }

  lemma RunPrefix(states: seq<Sys>, labels: seq<Label>, n: nat)
    requires IsRun(states, labels) && n <= |labels|
    ensures IsRun(states[..n + 1], labels[..n])
  {
    var ss, ls := states[..n + 1], labels[..n];
    forall i | 0 <= i < n ensures StepAt(ss, ls, i) {
      assert StepAt(states, labels, i);
    }
  }

  /** Dropping from any run every call whose SID was answered before leaves a run that ends in the
      same state. Everything else in the run, by users and workers, stays as it was. */
  lemma {:induction false} RepeatedCallsCanBeDropped(states: seq<Sys>, labels: seq<Label>)
    requires IsRun(states, labels)
    ensures var ss, ls := FirstStates(states, labels), FirstCalls(states, labels);
            IsRun(ss, ls) && ss[|ls|] == states[|labels|]
  {
    if labels == [] {
    } else {
      var n := |labels| - 1;
      var before, ls := states[..n + 1], labels[..n];
      RunPrefix(states, labels, n);
      RepeatedCallsCanBeDropped(before, ls);
      assert StepAt(states, labels, n);
      if Repeats(states, labels, n) {
        var i :| 0 <= i < n && AnsweredAt(states[i], labels[i], labels[n].op.sid);
        var op := labels[i].op;
        SidConsumedExactlyWhen(states[i].db, op.sid, op.sender, op.request, op.at, op.now);
        LaterCallsAreReplays(states, labels, i, n);
      } else {
        RunExtends(FirstStates(before, ls), FirstCalls(before, ls), states[n + 1], labels[n]);
      }
    }
  }

  /** An earlier label is a call with the same SID, answered or not. */
  predicate NotFirst(labels: seq<Label>, j: nat)
    requires j < |labels|
  {
    IsSms(labels[j]) && exists i :: 0 <= i < j && IsSms(labels[i]) && labels[i].op.sid == labels[j].op.sid
  }

  /** The labels with one call per SID: the first. */
  function OncePerSid(labels: seq<Label>): seq<Label> {
    if labels == [] then []
    else
      var n := |labels| - 1;
      if NotFirst(labels, n) then OncePerSid(labels[..n]) else OncePerSid(labels[..n]) + [labels[n]]
  }

  /** Every repeated call comes after an answered one. */
  ghost predicate AnsweredFirst(states: seq<Sys>, labels: seq<Label>)
    requires |states| == |labels| + 1
  {
    forall j :: 0 <= j < |labels| && NotFirst(labels, j) ==> Repeats(states, labels, j)
  }

  lemma {:induction false} FirstAreOncePerSid(states: seq<Sys>, labels: seq<Label>)
    requires |states| == |labels| + 1 && AnsweredFirst(states, labels)
    ensures FirstCalls(states, labels) == OncePerSid(labels)
  {
    if labels == [] {
    } else {
      var n := |labels| - 1;
      var before, ls := states[..n + 1], labels[..n];
      forall j | 0 <= j < n && NotFirst(ls, j) ensures Repeats(before, ls, j) {
        assert NotFirst(labels, j);
        assert Repeats(states, labels, j);
        var i :| 0 <= i < j && AnsweredAt(states[i], labels[i], labels[j].op.sid);
        assert AnsweredAt(before[i], ls[i], ls[j].op.sid);
      }
      FirstAreOncePerSid(before, ls);
    }
  }

  /** Dropping every call but the first of each SID leaves a run that ends in the same state, when
      every repeated call comes after an answered one. */
  lemma OnlyFirstCallsCount(states: seq<Sys>, labels: seq<Label>) returns (ss: seq<Sys>)
    requires IsRun(states, labels) && AnsweredFirst(states, labels)
    ensures IsRun(ss, OncePerSid(labels)) && ss[|OncePerSid(labels)|] == states[|labels|]
  {
    RepeatedCallsCanBeDropped(states, labels);
    FirstAreOncePerSid(states, labels);
    ss := FirstStates(states, labels);
  }

  // ----- the voice menu

  /** The call has its action on record. */
  ghost predicate ActionRecorded(s: Store, sid: string, call: Call, outcome: VoiceResult, target: Option<int>) {
    && FindCall(s, sid) == Some(call)
    && AttemptAt(s, call).callbacks.result == Some(outcome)
    && AttemptAt(s, call).callbacks.target == target
  }

  lemma {:induction false} CallAmongExtended(a: seq<Attempt>, b: Attempt, sid: string)
    requires !IsCall(b, sid)
    ensures CallAmong(a + [b], sid) == CallAmong(a, sid)
  {
    assert (a + [b])[..|a|] == a;
  }

  /** An effect gives an event no new call under the SID, unless its last attempt just got it. */
  lemma CallStays(x: Entry, y: Entry, ended: bool, sid: string)
    requires Coupled(x) && Coupled(y) && Effect(x, y, ended)
    requires ended && EndStep(x, y) ==> !IsCall(Last(y), sid)
    ensures CallAmong(y.attempts, sid) == CallAmong(x.attempts, sid)
    ensures x.attempts != [] ==> y.row.channel == x.row.channel
  {
    if EntryStep(x, y) {
      forall k | 0 <= k < |x.attempts|
        ensures x.attempts[k].sid == y.attempts[k].sid && x.attempts[k].status == y.attempts[k].status
      {
        if SameDelivery(x, y) {
          assert Core(x.attempts[k]) == Core(y.attempts[k]);
        }
      }
      SameCallAmong(x.attempts, y.attempts, sid);
    } else if ClaimStep(x, y) {
      assert y.attempts == x.attempts + [Last(y)];
      CallAmongExtended(x.attempts, Last(y), sid);
    } else if MissStep(x, y) {
      assert y.attempts == [] + [Last(y)];
      CallAmongExtended([], Last(y), sid);
    } else {
      var n := |x.attempts| - 1;
      assert x.attempts == x.attempts[..n] + [Last(x)] && y.attempts == x.attempts[..n] + [Last(y)];
      CallAmongExtended(x.attempts[..n], Last(x), sid);
      CallAmongExtended(x.attempts[..n], Last(y), sid);
    }
  }

  /** The last attempt of the event is no call with this SID. */
  ghost predicate LastIsNoCall(t: Store, e: int, sid: string) {
    e in t.events && t.events[e].attempts != [] && !IsCall(Last(t.events[e]), sid)
  }

  /** The record a finishing step makes, if it makes one, gives this SID to no attempt. */
  ghost predicate RecordsNoCall(s: Sys, l: Label, sid: string)
    requires Finishes(l)
    requires Enabled(s, l)
  {
    var record := RecordOf(s, l);
    record.Ok? ==> LastIsNoCall(record.value, Head(WorkerOf(s, l.w).job).event, sid)
  }

  /** A provider SID that belongs to a call is refused to every other attempt. */
  lemma SidIsRefused(s: Sys, l: Label, sid: string, call: Call)
    requires Finishes(l)
    requires Enabled(s, l)
    requires OwnInv(s)
    requires RecordOf(s, l).Ok?
    requires FindCall(s.db, sid) == Some(call)
    ensures RecordsNoCall(s, l, sid)
  {
    HeadIsHeld(s, l.w);
    FinishIsRecording(s, l);
    var c := Head(WorkerOf(s, l.w).job);
    if l.SenderReturns? {
      RecordSuccessStep(s.db, c.event, c.index, TerminalStatus(c.row), WorkerOf(s, l.w).job.phase.message, l.sid, l.at);
      if l.sid == Some(sid) {
        TakenByCall(s.db, sid, call, c.event, c.index);
      }
    } else {
      NoSuccessNoCall(s, l, sid);
    }
  }

  lemma NoSuccessNoCall(s: Sys, l: Label, sid: string)
    requires OwnInv(s) && Enabled(s, l) && Finishes(l) && RecordOf(s, l).Ok? && !l.SenderReturns?
    ensures RecordsNoCall(s, l, sid)
  {
    HeadIsHeld(s, l.w);
    var job := WorkerOf(s, l.w).job;
    var c := Head(job);
    if l.WeatherFails? && job.Queued? && l.retryable && job.receipt.count < s.maxReceives {
      RecordRetryableStep(s.db, c.event, c.index, l.exc, l.at);
    } else {
      var code := if l.WeatherFails? then (if job.Queued? && l.retryable then RetryExhausted(l.exc) else Plain(l.exc))
                  else if l.SenderMissing? then Plain(NOT_CONFIGURED) else Plain(l.exc);
      RecordFailureStep(s.db, c.event, c.index, code, l.at);
    }
  }

  lemma TakenByCall(s: Store, sid: string, call: Call, e: int, k: nat)
    requires FindCall(s, sid) == Some(call)
    requires e in s.events && k < |s.events[e].attempts| && s.events[e].attempts[k].status == AttemptProcessing
    ensures SidTaken(s, sid, e, k)
  {
    var except := if call.event == e then Some(k) else None;
    assert s.events[call.event].attempts[call.index].sid == Some(sid);
    assert Some(call.index) != except;
    assert SidAmong(s.events[call.event].attempts, sid, except);
  }

  lemma CallsOfEntryStay(s: Sys, l: Label, sid: string, call: Call, e: int)
    requires OwnInv(s) && Enabled(s, l) && FindCall(s.db, sid) == Some(call) && e in s.db.events
    ensures e in DbAfter(s, l).events
    ensures CallAmong(DbAfter(s, l).events[e].attempts, sid) == CallAmong(s.db.events[e].attempts, sid)
    ensures s.db.events[e].attempts != [] ==> DbAfter(s, l).events[e].row.channel == s.db.events[e].row.channel
  {
    if EndedBy(s, l) == Some(e) {
      FinishIsRecording(s, l);
      if RecordOf(s, l).Ok? {
        SidIsRefused(s, l, sid, call);
        CallStays(s.db.events[e], RecordOf(s, l).value.events[e], true, sid);
      }
    } else {
      DbEffect(s, l);
      CallStays(s.db.events[e], DbAfter(s, l).events[e], false, sid);
    }
  }

  /** A call is found again after any step: its SID is never given to another attempt. */
  lemma CallIsFoundAgain(s: Sys, l: Label, sid: string, call: Call)
    requires OwnInv(s) && Enabled(s, l) && FindCall(s.db, sid) == Some(call)
    ensures FindCall(DbAfter(s, l), sid) == Some(call)
  {
    var t := DbAfter(s, l);
    forall e ensures e in CallEvents(t, sid) <==> e in CallEvents(s.db, sid) {
      if e in s.db.events {
        CallsOfEntryStay(s, l, sid, call, e);
      } else if e in t.events {
        DbEffect(s, l);
        assert Unclaimed(t.events[e]);
      }
    }
    assert CallEvents(t, sid) == CallEvents(s.db, sid);
    CallsOfEntryStay(s, l, sid, call, call.event);
  }

  lemma ActionStays(s: Sys, l: Label, sid: string, call: Call, outcome: VoiceResult, target: Option<int>)
    requires OwnInv(s) && Enabled(s, l) && ActionRecorded(s.db, sid, call, outcome, target)
    ensures ActionRecorded(Next(s, l).db, sid, call, outcome, target)
  {
    NextDb(s, l);
    CallIsFoundAgain(s, l, sid, call);
    DbEffect(s, l);
    var ended := EndedBy(s, l) == Some(call.event);
    SubmittedKeepsAction(s.db.events[call.event], DbAfter(s, l).events[call.event], ended, call.index);
  }

  lemma SubmittedKeepsAction(x: Entry, y: Entry, ended: bool, k: nat)
    requires Coupled(x) && Effect(x, y, ended)
    requires k < |x.attempts| && x.attempts[k].status == AttemptSubmitted && x.attempts[k].callbacks.result.Some?
    ensures k < |y.attempts|
    ensures y.attempts[k].callbacks.result == x.attempts[k].callbacks.result
    ensures y.attempts[k].callbacks.target == x.attempts[k].callbacks.target
  {
  }

  lemma {:induction false} ActionStaysOverRun(states: seq<Sys>, labels: seq<Label>, i: nat, j: nat,
                                              sid: string, call: Call, outcome: VoiceResult, target: Option<int>)
    requires IsRun(states, labels) && i <= j <= |labels|
    requires ActionRecorded(states[i].db, sid, call, outcome, target)
    ensures ActionRecorded(states[j].db, sid, call, outcome, target)
    decreases j
  {
    if i == j {
    } else {
      ActionStaysOverRun(states, labels, i, j - 1, sid, call, outcome, target);
      OwnRun(states, labels, j - 1);
      assert StepAt(states, labels, j - 1);
      ActionStays(states[j - 1], labels[j - 1], sid, call, outcome, target);
    }
  }

  predicate IsMenu(l: Label) {
    l.Service? && l.op.MenuOp?
  }

  function MenuReply(s: Store, op: Op): Outcome<MenuResult>
    requires op.MenuOp?
  {
    VoiceMenu(s, op.sid, op.digit, op.at)
  }

  lemma RecordedAnswers(s: Store, sid: string, call: Call, outcome: VoiceResult, target: Option<int>, digit: string,
                        at: int)
    requires ActionRecorded(s, sid, call, outcome, target)
    ensures VoiceMenu(s, sid, digit, at)
            == if digit in ["1", "2"] then Ok(MenuResult(s, outcome, target, false)) else Raised(ValidationError)
  {
  }

  lemma MenuLeavesRecord(s: Store, op: Op)
    requires StoreOk(s) && op.MenuOp? && MenuReply(s, op).Ok?
    ensures FindCall(s, op.sid).Some?
    ensures var r := MenuReply(s, op).value;
            ActionRecorded(r.store, op.sid, FindCall(s, op.sid).value, r.outcome, r.target)
  {
    var r := MenuReply(s, op).value;
    if r.applied {
      MenuTouchesOnlyTarget(s, op.sid, op.digit, op.at);
      MenuRecords(s, op.sid, op.digit, op.at);
      SameCallAfter(s, r.store, op.sid);
    }
  }

  /** A digit for a call whose action is on record. */
  lemma RecordedIsReplayed(s: Sys, l: Label, call: Call, outcome: VoiceResult, target: Option<int>)
    requires IsMenu(l) && Enabled(s, l) && ActionRecorded(s.db, l.op.sid, call, outcome, target)
    ensures MenuReply(s.db, l.op)
            == if l.op.digit in ["1", "2"] then Ok(MenuResult(s.db, outcome, target, false))
                else Raised(ValidationError)
    ensures Next(s, l) == s
  {
    RecordedAnswers(s.db, l.op.sid, call, outcome, target, l.op.digit, l.op.at);
  }

  /** After the first answered digit of a call, every later digit of that call is answered
      with the first outcome and target, is not applied, and changes nothing, even when the
      first one found no pending event. So a call changes at most one event. */
  lemma LaterDigitsAreReplays(states: seq<Sys>, labels: seq<Label>, i: nat, j: nat)
    requires IsRun(states, labels) && i < j < |labels|
    requires IsMenu(labels[i]) && IsMenu(labels[j]) && labels[i].op.sid == labels[j].op.sid
    requires MenuReply(states[i].db, labels[i].op).Ok?
    ensures var first := MenuReply(states[i].db, labels[i].op).value;
            MenuReply(states[j].db, labels[j].op)
            == if labels[j].op.digit in ["1", "2"] then Ok(MenuResult(states[j].db, first.outcome, first.target, false))
               else Raised(ValidationError)
    ensures states[j + 1] == states[j]
  {
    OwnRun(states, labels, i);
    assert StepAt(states, labels, i) && StepAt(states, labels, j);
    var first := MenuReply(states[i].db, labels[i].op).value;
    MenuLeavesRecord(states[i].db, labels[i].op);
    var call := FindCall(states[i].db, labels[i].op.sid).value;
    ActionStaysOverRun(states, labels, i + 1, j, labels[i].op.sid, call, first.outcome, first.target);
    RecordedIsReplayed(states[j], labels[j], call, first.outcome, first.target);
  }
}
