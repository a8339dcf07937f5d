/** Commands a user texts back: the text grammar, the effect, and the record by Message SID. */
module InboundSms {
  import opened Records
  import opened Tables
  import opened Ordering
  import opened Scheduling

  // ----- the text

  /** The characters `str.strip` and `str.isspace` treat as white space. */
  predicate IsSpace(c: char) {
    ('\t' <= c <= '\r') || ('\U{1c}' <= c <= ' ') || c == '\U{85}' || c == '\U{a0}' || c == '\U{1680}'
    || ('\U{2000}' <= c <= '\U{200a}') || c == '\U{2028}' || c == '\U{2029}' || c == '\U{202f}'
    || c == '\U{205f}' || c == '\U{3000}'
  }

  function TrimLeft(s: string): (r: string)
    ensures r == [] || !IsSpace(r[0])
    ensures |r| <= |s| && r == s[|s| - |r|..]
    ensures forall i :: 0 <= i < |s| - |r| ==> IsSpace(s[i])
  {
    if s != [] && IsSpace(s[0]) then TrimLeft(s[1..]) else s
  }

  function TrimRight(s: string): (r: string)
    ensures r == [] || !IsSpace(r[|r| - 1])
    ensures r <= s
    ensures forall i :: |r| <= i < |s| ==> IsSpace(s[i])
  {
    if s != [] && IsSpace(s[|s| - 1]) then TrimRight(s[..|s| - 1]) else s
  }

  /** `str.strip()`. */
  function Strip(s: string): string {
    TrimRight(TrimLeft(s))
  }

  /** The position of the first space, or the length. */
  function FirstSpace(s: string): (i: nat)
    ensures i <= |s| && (i < |s| ==> s[i] == ' ')
    ensures forall j :: 0 <= j < i ==> s[j] != ' '
  {
    if s == [] || s[0] == ' ' then 0 else 1 + FirstSpace(s[1..])
  }

  /** `str.upper()`, exact on every character whose upper case is spelled with the letters of the
      three keywords alone; any other character stays as it is. */
  function UpperChar(c: char): string {
    if 'a' <= c <= 'z' then [c - 'a' + 'A']
    else if c == '\U{df}' then "SS"
    else if c == '\U{131}' then "I"
    else if c == '\U{17f}' then "S"
    else if c == '\U{fb05}' || c == '\U{fb06}' then "ST"
    else [c]
  }

  function Upper(s: string): string {
    if s == [] then [] else UpperChar(s[0]) + Upper(s[1..])
  }

  /** What a text asks for. A time that is missing could not be read. */
  datatype Request = Request(command: SmsCommand, time: Option<When>)

  /** `datetime.fromisoformat`: `None` for a `ValueError`. */
  type TimeParser = string -> Option<When>

  predicate HasSpace(s: string) {
    exists i :: 0 <= i < |s| && IsSpace(s[i])
  }

  /** `_parse_inbound_sms_command`: the text is cut at its first space. */
  function ParseCommand(body: string, parse: TimeParser): Request {
    var normalized := Strip(body);
    var cut := FirstSpace(normalized);
    ParseCut(Upper(normalized[..cut]), if cut < |normalized| then Some(normalized[cut + 1..]) else None, parse)
  }

  /** The keyword, and the argument when there is a space. */
  function ParseCut(keyword: string, argument: Option<string>, parse: TimeParser): Request {
    if keyword == "STOP" && argument.None? then Request(StopCommand, None)
    else if keyword == "SMS" && argument.None? then Request(SmsCommand.SmsCommand, None)
    else if keyword != "TIME" || argument.None? || Strip(argument.value) == "" then Request(InvalidCommand, None)
    else if HasSpace(Strip(argument.value)) then Request(TimeCommand, None)
    else Request(TimeCommand, parse(Strip(argument.value)))
  }

  // ----- the effect

  /** The verified phone with this number; numbers are unique. */
  function VerifiedPhone(s: Store, number: string): Option<int> {
    var ids := set p | p in s.phones && s.phones[p].number == number && s.phones[p].verifiedAt.Some?;
    if ids == {} then None else Some(Least(ids))
  }

  datatype Decision = Decision(store: Store, result: SmsResult, target: Option<int>)

  /** The service a command stands for. `at` is the completion time, `now` the clock the
      rescheduling service reads. */
  function Serve(s: Store, command: SmsCommand, time: Option<When>, id: int, user: int, at: int,
                 now: int): Outcome<Store>
    requires command.StopCommand? || command.SmsCommand? || (command.TimeCommand? && time.Some?)
  {
    match command
    case StopCommand => Cancel(s, id, Some(user), at)
    case SmsCommand => ChangeChannel(s, id, user, "sms")
    case TimeCommand => Reschedule(s, id, user, time.value, now)
  }

  function Success(command: SmsCommand): SmsResult {
    match command
    case StopCommand => SmsCancelled
    case SmsCommand => SmsSwitched
    case TimeCommand => SmsRescheduled
    case InvalidCommand => SmsInvalidCommand
  }

  function Decide(s: Store, sender: string, request: Request, at: int, now: int): Outcome<Decision> {
    match VerifiedPhone(s, sender)
    case None => Ok(Decision(s, SmsUnknownSender, None))
    case Some(phone) =>
      if request.command == InvalidCommand then Ok(Decision(s, SmsInvalidCommand, None))
      else if request.command == TimeCommand && request.time.None? then Ok(Decision(s, SmsInvalidTime, None))
      else
        var user := s.phones[phone].user;
        match NextPending(s, user)
        case None => Ok(Decision(s, SmsNoPending, None))
        case Some(id) =>
          match Serve(s, request.command, request.time, id, user, at, now)
          case Ok(t) => Ok(Decision(t, Success(request.command), Some(id)))
          case Raised(LifecycleConflict) => Ok(Decision(s, SmsLifecycleConflict, Some(id)))
          case Raised(ValidationError) => Ok(Decision(s, SmsInvalidTime, Some(id)))
          case Raised(e) => Raised(e)
  }

  datatype Reply = Reply(store: Store, result: SmsResult, target: Option<int>, applied: bool)

  /** `apply_inbound_sms_command` on the parsed text. */
  function InboundCommand(s: Store, sid: string, sender: string, request: Request, at: int, now: int): Outcome<Reply> {
    if sid in s.sms then Ok(Reply(s, s.sms[sid].result, s.sms[sid].target, false))
    else
      var d :- Decide(s, sender, request, at, now);
      Ok(Reply(d.store.(sms := d.store.sms[sid := SmsRecord(request.command, d.result, d.target, at)]),
               d.result, d.target, true))
  }

  method ApplyInboundSmsCommand(db: Database, sid: string, sender: string, body: string, parse: TimeParser, at: int,
                                now: int)
    returns (r: Outcome<Reply>)
    modifies db
    ensures r == InboundCommand(old(db.store), sid, sender, ParseCommand(body, parse), at, now)
    ensures db.store == if r.Ok? then r.value.store else old(db.store)
  {
    if sid in db.store.sms {
      var record := db.store.sms[sid];
      return Ok(Reply(db.store, record.result, record.target, false));
    }
    var before := db.store;
    var request := ParseCommand(body, parse);
    var decided := DecideCommand(db, sender, request, at, now);
    if decided.Raised? {
      db.store := before; // the transaction rolls back
      return Raised(decided.error);
    }
    var result, target := decided.value.result, decided.value.target;
    db.store := db.store.(sms := db.store.sms[sid := SmsRecord(request.command, result, target, at)]);
    return Ok(Reply(db.store, result, target, true));
  }

  method DecideCommand(db: Database, sender: string, request: Request, at: int, now: int) returns (r: Outcome<Decision>)
    modifies db
    ensures r == Decide(old(db.store), sender, request, at, now)
    ensures db.store == if r.Ok? then r.value.store else old(db.store)
  {
    var phone := VerifiedPhone(db.store, sender);
    if phone.None? {
      return Ok(Decision(db.store, SmsUnknownSender, None));
    }
    if request.command == InvalidCommand {
      return Ok(Decision(db.store, SmsInvalidCommand, None));
    }
    if request.command == TimeCommand && request.time.None? {
      return Ok(Decision(db.store, SmsInvalidTime, None));
    }
    var user := db.store.phones[phone.value].user;
    var target := NextPending(db.store, user);
    if target.None? {
      return Ok(Decision(db.store, SmsNoPending, None));
    }
    var served: Outcome<ScheduledEvent>;
    if request.command == StopCommand {
      served := CancelUserScheduledEvent(db, target.value, user, at);
    } else if request.command == SmsCommand.SmsCommand {
      served := ChangeUserScheduledEventChannel(db, target.value, user, "sms");
    } else {
      served := RescheduleUserScheduledEvent(db, target.value, user, request.time.value, now);
    }
    if served.Ok? {
      return Ok(Decision(db.store, Success(request.command), target));
    }
    match served.error
    case LifecycleConflict => return Ok(Decision(db.store, SmsLifecycleConflict, target));
    case ValidationError => return Ok(Decision(db.store, SmsInvalidTime, target));
    case e => return Raised(e);
  }

  // ----- properties of the text

  lemma FirstSpaceIs(text: string, i: nat)
    requires i <= |text| && ' ' !in text[..i] && (i < |text| ==> text[i] == ' ')
    ensures FirstSpace(text) == i
  {
    forall j | 0 <= j < i ensures text[j] != ' ' {
      assert text[..i][j] == text[j];
    }
  }

  lemma CutResults(keyword: string, argument: Option<string>, parse: TimeParser)
    ensures var r := ParseCut(keyword, argument, parse);
            && (r.command == StopCommand <==> keyword == "STOP" && argument.None?)
            && (r.command == SmsCommand.SmsCommand <==> keyword == "SMS" && argument.None?)
            && (r.time.Some? ==> r.command == TimeCommand)
  {
    assert "STOP"[1] != "SMS"[1];
  }

  /** STOP and SMS stand for themselves only when nothing follows them. */
  lemma LoneKeywords(body: string, parse: TimeParser)
    ensures var r, text := ParseCommand(body, parse), Strip(body);
            && (r.command == StopCommand <==> ' ' !in text && Upper(text) == "STOP")
            && (r.command == SmsCommand.SmsCommand <==> ' ' !in text && Upper(text) == "SMS")
            && (r.time.Some? ==> r.command == TimeCommand)
            && (' ' !in text && Upper(text) != "STOP" && Upper(text) != "SMS" ==> r == Request(InvalidCommand, None))
  {
    var text := Strip(body);
    var cut := FirstSpace(text);
    NoSpace(text);
    CutResults(Upper(text[..cut]), if cut < |text| then Some(text[cut + 1..]) else None, parse);
  }

  lemma NoSpace(text: string)
    ensures ' ' in text <==> FirstSpace(text) < |text|
    ensures ' ' !in text ==> text[..FirstSpace(text)] == text
  {
    if ' ' !in text {
      FirstSpaceIs(text, |text|);
    }
  }

  lemma CutTime(keyword: string, argument: string, parse: TimeParser)
    requires Strip(argument) != ""
    ensures var r := ParseCut(keyword, Some(argument), parse);
            && (r.command == TimeCommand <==> keyword == "TIME")
            && (r.command == TimeCommand ==>
                  r.time == if HasSpace(Strip(argument)) then None else parse(Strip(argument)))
  {
  }

  /** Every text that starts with TIME and a space is a TIME command: its argument is never
      blank, and a time is read from it unless white space splits it. */
  lemma TimeCommands(body: string, parse: TimeParser, i: nat)
    requires var text := Strip(body); i < |text| && text[i] == ' ' && ' ' !in text[..i]
    ensures var r, text := ParseCommand(body, parse), Strip(body);
            && (r.command == TimeCommand <==> Upper(text[..i]) == "TIME")
            && (r.command == TimeCommand ==>
                  var argument := Strip(text[i + 1..]);
                  argument != "" && r.time == if HasSpace(argument) then None else parse(argument))
  {
    var text := Strip(body);
    FirstSpaceIs(text, i);
    ArgumentIsNotBlank(text, i);
    CutTime(Upper(text[..i]), text[i + 1..], parse);
  }

  lemma ArgumentIsNotBlank(text: string, cut: nat)
    requires cut < |text| && text[cut] == ' ' && !IsSpace(text[|text| - 1])
    ensures Strip(text[cut + 1..]) != ""
  {
    var argument := text[cut + 1..];
    assert argument != [] by {
      assert IsSpace(' ');
    }
    assert !IsSpace(argument[|argument| - 1]);
    var left := TrimLeft(argument);
    assert left != [];
    assert left[|left| - 1] == argument[|argument| - 1];
  }

  /** A text cut at its front and then at its end. */
  lemma CutTwice(text: string, left: string, right: string)
    requires |left| <= |text| && left == text[|text| - |left|..] && right <= left
    ensures var i := |text| - |left|; i + |right| <= |text| && right == text[i..i + |right|]
  {
  }

  lemma SpacesBehind(text: string, k: nat)
    requires |text| - |TrimLeft(text)| + |Strip(text)| <= k < |text|
    ensures IsSpace(text[k])
  {
    var left := TrimLeft(text);
    assert text[k] == left[k - (|text| - |left|)];
  }

  /** What is left begins and ends with no white space. */
  lemma StrippedEnds(text: string)
    requires Strip(text) != []
    ensures !IsSpace(Strip(text)[0]) && !IsSpace(Strip(text)[|Strip(text)| - 1])
  {
    assert Strip(text)[0] == TrimLeft(text)[0];
  }

  /** Stripping takes the white space off both ends and leaves the rest as it is. */
  lemma StripTakesTheEnds(text: string) returns (i: nat, j: nat)
    ensures i <= j <= |text| && Strip(text) == text[i..j]
    ensures forall k :: 0 <= k < i || j <= k < |text| ==> IsSpace(text[k])
    ensures i < j ==> !IsSpace(Strip(text)[0]) && !IsSpace(Strip(text)[j - i - 1])
  {
    i := |text| - |TrimLeft(text)|;
    j := i + |Strip(text)|;
    CutTwice(text, TrimLeft(text), Strip(text));
    forall k | j <= k < |text| ensures IsSpace(text[k]) {
      SpacesBehind(text, k);
    }
    if i < j {
      StrippedEnds(text);
    }
  }

  /** The white space of ASCII: tab to carriage return, the four separators, and the blank. */
  lemma AsciiSpaces(c: char)
    requires c as int < 128
    ensures IsSpace(c) <==> 9 <= c as int <= 13 || 28 <= c as int <= 32
  {
  }

  /** `c` is this capital letter, or its small form. */
  predicate SameLetter(c: char, letter: char) {
    c == letter || c as int == letter as int + 32
  }

  /** An ASCII text is a keyword exactly when it is that word letter by letter, in any case. */
  lemma {:induction false} KeywordInAnyCase(text: string, word: string)
    requires forall i :: 0 <= i < |text| ==> text[i] as int < 128
    requires forall i :: 0 <= i < |word| ==> 'A' <= word[i] <= 'Z'
    ensures Upper(text) == word <==>
              |text| == |word| && forall i :: 0 <= i < |text| ==> SameLetter(text[i], word[i])
    decreases |text|
  {
    if text == [] {
    } else if word == [] {
      assert |UpperChar(text[0])| == 1;
    } else {
      KeywordInAnyCase(text[1..], word[1..]);
      var c := UpperChar(text[0]);
      assert |c| == 1 && (c[0] == word[0] <==> SameLetter(text[0], word[0]));
      assert (c + Upper(text[1..]))[1..] == Upper(text[1..]) && word == [word[0]] + word[1..];
      assert Upper(text) == word <==> c[0] == word[0] && Upper(text[1..]) == word[1..];
    }
  }

  // ----- the sender

  /** The verified phone with this number, the one with the least id should there be several. */
  ghost predicate SenderPhone(s: Store, sender: string, p: int) {
    && p in s.phones && s.phones[p].number == sender && s.phones[p].verifiedAt.Some?
    && forall q :: q in s.phones && s.phones[q].number == sender && s.phones[q].verifiedAt.Some? ==> p <= q
  }

  /** No verified phone has this number. */
  ghost predicate UnknownSender(s: Store, sender: string) {
    forall p :: p in s.phones && s.phones[p].number == sender ==> s.phones[p].verifiedAt.None?
  }

  lemma SenderIsFound(s: Store, sender: string)
    ensures VerifiedPhone(s, sender).None? <==> UnknownSender(s, sender)
    ensures forall p :: VerifiedPhone(s, sender) == Some(p) <==> SenderPhone(s, sender, p)
  {
    var ids := set p | p in s.phones && s.phones[p].number == sender && s.phones[p].verifiedAt.Some?;
    if ids == {} {
      forall p | p in s.phones && s.phones[p].number == sender ensures s.phones[p].verifiedAt.None? {
        assert p !in ids;
      }
    } else {
      var least := Least(ids);
      forall q | q in s.phones && s.phones[q].number == sender && s.phones[q].verifiedAt.Some? ensures least <= q {
        assert q in ids;
      }
    }
  }

  // ----- properties of one call

  /** The service rejects the new time, or the conversion to UTC overflows. */
  predicate RejectsTime(time: When, now: int) {
    !time.Aware? || time.at <= now
  }

  predicate Overflows(time: When, now: int) {
    time.Aware? && now < time.at && MAX_UTC < time.at
  }

  /** How a command with a target changes the target's row. */
  predicate ChangesAs(result: SmsResult, request: Request, row: Event, row': Event, at: int, now: int) {
    match result
    case SmsCancelled => request.command == StopCommand && row' == row.(status := Cancelled, completedAt := Some(at))
    case SmsSwitched => request.command == SmsCommand.SmsCommand && row' == row.(channel := Sms)
    case SmsRescheduled =>
      && request.command == TimeCommand && request.time.Some?
      && request.time.value.Aware? && now < request.time.value.at <= MAX_UTC
      && row' == row.(scheduledFor := request.time.value.at)
    case SmsInvalidTime =>
      && request.command == TimeCommand && request.time.Some?
      && RejectsTime(request.time.value, now) && row' == row
    case _ => false
  }

  /** What the service behind a command makes of its target. */
  lemma ServedOnTarget(s: Store, request: Request, id: int, user: int, at: int, now: int)
    requires request.command.StopCommand? || request.command.SmsCommand?
             || (request.command.TimeCommand? && request.time.Some?)
    requires id in s.events && s.events[id].row.user == user && s.events[id].row.status == Scheduled
    ensures var r := Serve(s, request.command, request.time, id, user, at, now);
            if r.Ok? then
              && OnlyRow(s, r.value, id)
              && ChangesAs(Success(request.command), request, s.events[id].row, r.value.events[id].row, at, now)
            else if r.error == ValidationError then
              ChangesAs(SmsInvalidTime, request, s.events[id].row, s.events[id].row, at, now)
            else r.error != LifecycleConflict
  {
    match request.command
    case StopCommand => CancelOnlyPending(s, id, Some(user), at);
    case SmsCommand => ChangeChannelOnlyPending(s, id, user, "sms");
    case TimeCommand => RescheduleOnlyPending(s, id, user, request.time.value, now);
  }

  lemma DecisionTouchesOnlyTarget(s: Store, sender: string, request: Request, at: int, now: int)
    requires Decide(s, sender, request, at, now).Ok?
    ensures var d := Decide(s, sender, request, at, now).value;
            && d.store.events.Keys == s.events.Keys && d.store.phones == s.phones && d.store.sms == s.sms
            && (forall e :: e in s.events ==> d.store.events[e].attempts == s.events[e].attempts)
            && (forall e :: e in s.events && Some(e) != d.target ==> d.store.events[e] == s.events[e])
            && (d.target.Some? ==>
                  var phone, id := VerifiedPhone(s, sender), d.target.value;
                  && phone.Some? && d.target == NextPending(s, s.phones[phone.value].user)
                  && ChangesAs(d.result, request, s.events[id].row, d.store.events[id].row, at, now))
            && (d.target.None? ==> d.store == s)
  {
    var phone := VerifiedPhone(s, sender);
    if phone.Some? && NextPending(s, s.phones[phone.value].user).Some? {
      var user := s.phones[phone.value].user;
      var id := NextPending(s, user).value;
      if request.command != InvalidCommand && (request.command == TimeCommand ==> request.time.Some?) {
        ServedOnTarget(s, request, id, user, at, now);
      }
    }
  }

  /** The answer of a call that is applied: these events, and the record of the call. */
  ghost function Answered(s: Store, events: map<int, Entry>, sid: string, command: SmsCommand, result: SmsResult,
                          target: Option<int>, at: int): Outcome<Reply> {
    Ok(Reply(Store(events, s.phones, s.sms[sid := SmsRecord(command, result, target, at)]), result, target, true))
  }

  /** A call whose SID is on record gets the recorded answer, and nothing changes. */
  lemma RepeatedSid(s: Store, sid: string, sender: string, request: Request, at: int, now: int)
    requires sid in s.sms
    ensures InboundCommand(s, sid, sender, request, at, now)
            == Ok(Reply(s, s.sms[sid].result, s.sms[sid].target, false))
  {
  }

  /** The answers of a new SID that name no target, with the exact condition of each of them: a number
      that is no verified phone's, a text that is no command, a time that cannot be read, and an owner
      without a pending event. Nothing but the record changes. */
  lemma AnswersWithoutTarget(s: Store, sid: string, sender: string, request: Request, at: int, now: int)
    requires sid !in s.sms
    ensures var r := InboundCommand(s, sid, sender, request, at, now);
            var unread := request.command == TimeCommand && request.time.None?;
            && (r == Answered(s, s.events, sid, request.command, SmsUnknownSender, None, at)
                <==> UnknownSender(s, sender))
            && (r == Answered(s, s.events, sid, request.command, SmsInvalidCommand, None, at)
                <==> !UnknownSender(s, sender) && request.command == InvalidCommand)
            && (r == Answered(s, s.events, sid, request.command, SmsInvalidTime, None, at)
                <==> !UnknownSender(s, sender) && unread)
            && (r == Answered(s, s.events, sid, request.command, SmsNoPending, None, at)
                <==> request.command != InvalidCommand && !unread
                     && exists p :: SenderPhone(s, sender, p) && NonePending(s, s.phones[p].user))
            && (r.Ok? && r.value.target.None? ==>
                  r.value.result in {SmsUnknownSender, SmsInvalidCommand, SmsInvalidTime, SmsNoPending})
  {
    SenderIsFound(s, sender);
    if !UnknownSender(s, sender) {
      var p := VerifiedPhone(s, sender).value;
      NextPendingIsFirst(s, s.phones[p].user);
    }
  }

  /** A command with a target: STOP cancels it, SMS switches it, and TIME moves it to a time with an
      offset that is to come and that UTC can hold. A time without an offset or not to come is
      recorded as invalid, and one beyond UTC raises. */
  lemma CommandOnTarget(s: Store, sid: string, sender: string, request: Request, at: int, now: int, p: int, id: int)
    requires sid !in s.sms && SenderPhone(s, sender, p) && FirstPending(s, s.phones[p].user, id)
    requires request.command != InvalidCommand && (request.command == TimeCommand ==> request.time.Some?)
    ensures var r, x := InboundCommand(s, sid, sender, request, at, now), s.events[id];
            match request.command
            case StopCommand =>
              r == Answered(s, s.events[id := x.(row := x.row.(status := Cancelled, completedAt := Some(at)))], sid,
                            StopCommand, SmsCancelled, Some(id), at)
            case SmsCommand =>
              r == Answered(s, s.events[id := x.(row := x.row.(channel := Sms))], sid, SmsCommand.SmsCommand,
                            SmsSwitched, Some(id), at)
            case TimeCommand =>
              var time := request.time.value;
              if !time.Aware? || time.at <= now then
                r == Answered(s, s.events, sid, TimeCommand, SmsInvalidTime, Some(id), at)
              else if time.at > 253402300799999999 then r == Raised(OverflowError)
              else
                r == Answered(s, s.events[id := x.(row := x.row.(scheduledFor := time.at))], sid, TimeCommand,
                              SmsRescheduled, Some(id), at)
            case InvalidCommand => true
  {
    SenderIsFound(s, sender);
    NextPendingIsFirst(s, s.phones[p].user);
  }

  /** A call that is answered changes events only for a verified phone with the sender's number. The
      target is the first pending event of that phone's user, it changes only as the command says, and
      no other row changes; a repeated SID and a call without a target change no event. */
  lemma CommandTouchesOnlyTarget(s: Store, sid: string, sender: string, request: Request, at: int, now: int)
    requires InboundCommand(s, sid, sender, request, at, now).Ok?
    ensures var r := InboundCommand(s, sid, sender, request, at, now).value;
            && r.store.events.Keys == s.events.Keys && r.store.phones == s.phones
            && (forall e :: e in s.events ==> r.store.events[e].attempts == s.events[e].attempts)
            && (forall e :: e in s.events && Some(e) != r.target ==> r.store.events[e] == s.events[e])
            && (!r.applied ==> r.store == s)
            && (r.applied && r.target.Some? ==>
                  exists p ::
                    && p in s.phones && s.phones[p].number == sender && s.phones[p].verifiedAt.Some?
                    && FirstPending(s, s.phones[p].user, r.target.value)
                    && ChangesAs(r.result, request, s.events[r.target.value].row,
                                 r.store.events[r.target.value].row, at, now))
  {
    if sid !in s.sms {
      DecisionTouchesOnlyTarget(s, sender, request, at, now);
      SenderIsFound(s, sender);
      if Decide(s, sender, request, at, now).value.target.Some? {
        var p := VerifiedPhone(s, sender).value;
        NextPendingIsFirst(s, s.phones[p].user);
        assert SenderPhone(s, sender, p);
      }
    }
  }

  /** The row lock makes a lifecycle conflict impossible, and a rejected time comes only from
      a TIME command. */
  lemma ImpossibleResults(s: Store, sid: string, sender: string, request: Request, at: int, now: int)
    requires sid !in s.sms && InboundCommand(s, sid, sender, request, at, now).Ok?
    ensures InboundCommand(s, sid, sender, request, at, now).value.result != SmsLifecycleConflict
    ensures InboundCommand(s, sid, sender, request, at, now).value.result == SmsInvalidTime ==>
              request.command == TimeCommand
  {
    if Decide(s, sender, request, at, now).value.target.Some? {
      DecisionTouchesOnlyTarget(s, sender, request, at, now);
    }
  }

  /** The call that is not answered: a TIME command from a verified sender with a pending
      event, whose time is aware and in the future but cannot be expressed in UTC. */
  ghost predicate RaisesOverflow(s: Store, sid: string, sender: string, request: Request, now: int) {
    && sid !in s.sms
    && request.command == TimeCommand && request.time.Some? && Overflows(request.time.value, now)
    && exists p :: SenderPhone(s, sender, p) && !NonePending(s, s.phones[p].user)
  }

  /** A Message SID is consumed by its first call exactly unless that call overflows; a call
      that overflows raises and leaves no trace. */
  lemma SidConsumedExactlyWhen(s: Store, sid: string, sender: string, request: Request, at: int, now: int)
    ensures var r := InboundCommand(s, sid, sender, request, at, now);
            && (r.Ok? <==> !RaisesOverflow(s, sid, sender, request, now))
            && (r.Ok? ==> sid in r.value.store.sms
                          && r.value.store.sms[sid].result == r.value.result
                          && r.value.store.sms[sid].target == r.value.target
                          && (r.value.applied <==> sid !in s.sms))
            && (r.Raised? ==> r.error == OverflowError)
  {
    var phone := VerifiedPhone(s, sender);
    SenderIsFound(s, sender);
    if phone.Some? {
      NextPendingIsFirst(s, s.phones[phone.value].user);
    }
    if phone.Some? && NextPending(s, s.phones[phone.value].user).Some? {
      var user := s.phones[phone.value].user;
      var id := NextPending(s, user).value;
      CancelOnlyPending(s, id, Some(user), at);
      ChangeChannelOnlyPending(s, id, user, "sms");
      if request.time.Some? {
        RescheduleOnlyPending(s, id, user, request.time.value, now);
      }
    }
  }

  /** Records are written once: no call changes or removes a record that is there. */
  lemma RecordsOnlyGrow(s: Store, sid: string, sender: string, request: Request, at: int, now: int)
    requires InboundCommand(s, sid, sender, request, at, now).Ok?
    ensures var t := InboundCommand(s, sid, sender, request, at, now).value.store;
            forall k :: k in s.sms ==> k in t.sms && t.sms[k] == s.sms[k]
  {
    if sid !in s.sms {
      DecisionTouchesOnlyTarget(s, sender, request, at, now);
    }
  }

  predicate HexDigit(c: char) {
    '0' <= c <= '9' || 'a' <= c <= 'f' || 'A' <= c <= 'F'
  }

  /** The Message SIDs the webhook lets through. */
  predicate WebhookSid(sid: string) {
    |sid| == 34 && sid[..2] == "SM" && forall i :: 2 <= i < 34 ==> HexDigit(sid[i])
  }

  const LATE_TIME := "9999-12-31T23:59:59-01:00"
  const LATE_INSTANT: int := 253402304399000000 // that time in UTC, one hour past the last year

  lemma StripsToItself(text: string)
    requires text != [] && !IsSpace(text[0]) && !IsSpace(text[|text| - 1])
    ensures Strip(text) == text
  {
  }

  lemma TimeIsUpper()
    ensures Upper("TIME") == "TIME"
  {
    assert "TIME"[1..] == "IME" && "IME"[1..] == "ME" && "ME"[1..] == "E" && "E"[1..] == "";
  }

  lemma TimeTextIsTime(time: string, parse: TimeParser)
    requires time != [] && !HasSpace(time)
    ensures ParseCommand("TIME " + time, parse) == Request(TimeCommand, parse(time))
  {
    var text := "TIME " + time;
    assert text[|text| - 1] == time[|time| - 1];
    StripsToItself(text);
    StripsToItself(time);
    assert text[..4] == "TIME" && text[5..] == time;
    TimeIsUpper();
    TimeCommands(text, parse, 4);
  }

  lemma LateTimeHasNoSpace()
    ensures !HasSpace(LATE_TIME)
  {
  }

  lemma LoneStop(text: string, parse: TimeParser)
    requires text != [] && !HasSpace(text) && Upper(text) == "STOP"
    ensures ParseCommand(text, parse) == Request(StopCommand, None)
  {
    StripsToItself(text);
    forall i | 0 <= i < |text| ensures text[i] != ' ' {
      assert IsSpace(' ');
    }
    LoneKeywords(text, parse);
  }

  lemma StopIsUpper()
    ensures Upper("STOP") == "STOP" && !HasSpace("STOP")
  {
    assert "STOP"[1..] == "TOP" && "TOP"[1..] == "OP" && "OP"[1..] == "P" && "P"[1..] == "";
  }

  lemma StopIsStop(parse: TimeParser)
    ensures ParseCommand("STOP", parse) == Request(StopCommand, None)
  {
    StopIsUpper();
    LoneStop("STOP", parse);
  }

  /** A pending event of a verified sender. */
  function OnePending(sender: string): Store {
    Store(map[1 := Entry(Event(7, 3, "94107", 5, Voice, true, Scheduled, None, None), [])],
          map[3 := Phone(7, sender, Some(0))], map[])
  }

  lemma OnePendingIsFound(sender: string)
    ensures VerifiedPhone(OnePending(sender), sender) == Some(3) && NextPending(OnePending(sender), 7) == Some(1)
  {
    var s := OnePending(sender);
    assert 3 in s.phones && s.phones[3].number == sender && s.phones[3].verifiedAt.Some?;
    var ids := set p | p in s.phones && s.phones[p].number == sender && s.phones[p].verifiedAt.Some?;
    assert 3 in ids;
    assert 1 in PendingOf(s, 7);
  }

  lemma OverflowOnRequests(sender: string, sid: string, first: Request, second: Request)
    requires first == Request(TimeCommand, Some(Aware(LATE_INSTANT))) && second == Request(StopCommand, None)
    ensures InboundCommand(OnePending(sender), sid, sender, first, 0, 0) == Raised(OverflowError)
    ensures var r := InboundCommand(OnePending(sender), sid, sender, second, 0, 0);
            r.Ok? && r.value.applied && r.value.result == SmsCancelled
  {
    OnePendingIsFound(sender);
  }

  /** A store and two texts, as the webhook may deliver them: the first call of the SID raises and
      leaves no record, so that the second call with the same SID and another text is applied. */
  lemma OverflowCounterexample(parse: TimeParser) returns (s: Store, sender: string, sid: string)
    requires parse(LATE_TIME) == Some(Aware(LATE_INSTANT))
    ensures WebhookSid(sid)
    ensures InboundCommand(s, sid, sender, ParseCommand("TIME " + LATE_TIME, parse), 0, 0) == Raised(OverflowError)
    ensures var second := InboundCommand(s, sid, sender, ParseCommand("STOP", parse), 0, 0);
            second.Ok? && second.value.applied && second.value.result == SmsCancelled
  {
    sender := "+14155552671";
    sid := SomeSid();
    s := OnePending(sender);
    LateTimeHasNoSpace();
    TimeTextIsTime(LATE_TIME, parse);
    StopIsStop(parse);
    OverflowOnRequests(sender, sid, ParseCommand("TIME " + LATE_TIME, parse), ParseCommand("STOP", parse));
  }

  lemma SomeSid() returns (sid: string)
    ensures WebhookSid(sid)
  {
    sid := "SM" + seq(32, _ => '0');
    assert sid[..2] == "SM";
  }
}
