/** The rows the services work on and the lifecycle rules of the two models.

    A `Store` is the content of the database: one entry for every scheduled event, which
    holds the event row and its delivery attempts in the order they were inserted, the
    phone rows, and the inbound SMS records by provider SID. Instants are integers. */
module Records {

  datatype Option<+T> = None | Some(value: T)

  /** The exceptions the services raise. `LifecycleConflict` and `EventNotDue` are the two
      subclasses of `ValidationError` the source declares. */
  datatype Error =
    | ValidationError
    | LifecycleConflict
    | EventNotDue
    | DoesNotExist
    | AttemptNotFound
    | IntegrityError
    | OverflowError
    | ValueError
    | QueueUnavailable
    | RuntimeError
    | VerificationInputInvalid
    | PhoneNumberChanged
    | ProviderError(exc: ClassName)

  datatype Outcome<+T> = Ok(value: T) | Raised(error: Error) {
    predicate IsFailure() {
      Raised?
    }
    function PropagateFailure<U>(): Outcome<U>
      requires Raised?
    {
      Raised(error)
    }
    function Extract(): T
      requires Ok?
    {
      value
    }
  }

  // ----- error codes

  /** The name of an exception class: an identifier, so it holds no colon. */
  type ClassName = s: string | ':' !in s witness "Error"

  /** What the services write to `error_code`. */
  datatype ErrorCode =
    | NoCode
    | QueueRetryable(exc: ClassName)
    | RetryExhausted(exc: ClassName)
    | Plain(exc: ClassName)

  const MISSED: ErrorCode := Plain("MissedDeliveryWindow")

  const RETRYABLE_PREFIX := "QueueRetryable:"
  const EXHAUSTED_PREFIX := "RetryExhausted:"

  function Cut(s: string): string {
    if |s| <= 64 then s else s[..64]
  }

  /** The text of the column. */
  function CodeText(code: ErrorCode): string {
    match code
    case NoCode => ""
    case QueueRetryable(exc) => Cut(RETRYABLE_PREFIX + exc)
    case RetryExhausted(exc) => Cut(EXHAUSTED_PREFIX + exc)
    case Plain(exc) => exc
  }

  /** `startswith` on the stored text tells the three kinds of code apart, although the
      text is cut to 64 characters and class names are arbitrary. */
  lemma PrefixTestIsExact(code: ErrorCode)
    ensures RETRYABLE_PREFIX <= CodeText(code) <==> code.QueueRetryable?
    ensures EXHAUSTED_PREFIX <= CodeText(code) <==> code.RetryExhausted?
  {
    assert RETRYABLE_PREFIX[14] == ':' && EXHAUSTED_PREFIX[14] == ':';
    match code
    case NoCode =>
    case QueueRetryable(exc) =>
      assert CodeText(code)[..15] == RETRYABLE_PREFIX;
      assert CodeText(code)[0] != EXHAUSTED_PREFIX[0];
    case RetryExhausted(exc) =>
      assert CodeText(code)[..15] == EXHAUSTED_PREFIX;
      assert CodeText(code)[0] != RETRYABLE_PREFIX[0];
    case Plain(exc) =>
  }

  /** The stored text of a code names the class as far as 64 characters go. */
  lemma CodeTextNamesTheClass(code: ErrorCode)
    ensures code.QueueRetryable? ==>
              CodeText(code) <= "QueueRetryable:" + code.exc && |CodeText(code)| == Least64(15 + |code.exc|)
    ensures code.RetryExhausted? ==>
              CodeText(code) <= "RetryExhausted:" + code.exc && |CodeText(code)| == Least64(15 + |code.exc|)
    ensures code.Plain? ==> CodeText(code) == code.exc
    ensures code.NoCode? ==> CodeText(code) == ""
  {
  }

  function Least64(n: nat): nat {
    if n <= 64 then n else 64
  }

  // ----- decimal digits

  predicate Ten(n: int, zero: int) {
    zero <= n <= zero + 9
  }

  /** What `\d` matches: a decimal digit of any script in Unicode 15.0. */
  predicate DecimalDigit(c: char) {
    var n := c as int;
    Ten(n, 0x30) || Ten(n, 0x660) || Ten(n, 0x6F0) || Ten(n, 0x7C0) || Ten(n, 0x966) || Ten(n, 0x9E6)
    || Ten(n, 0xA66) || Ten(n, 0xAE6) || Ten(n, 0xB66) || Ten(n, 0xBE6) || Ten(n, 0xC66)
    || Ten(n, 0xCE6) || Ten(n, 0xD66) || Ten(n, 0xDE6) || Ten(n, 0xE50) || Ten(n, 0xED0)
    || Ten(n, 0xF20) || Ten(n, 0x1040) || Ten(n, 0x1090) || Ten(n, 0x17E0) || Ten(n, 0x1810)
    || Ten(n, 0x1946) || Ten(n, 0x19D0) || Ten(n, 0x1A80) || Ten(n, 0x1A90) || Ten(n, 0x1B50)
    || Ten(n, 0x1BB0) || Ten(n, 0x1C40) || Ten(n, 0x1C50) || Ten(n, 0xA620) || Ten(n, 0xA8D0)
    || Ten(n, 0xA900) || Ten(n, 0xA9D0) || Ten(n, 0xA9F0) || Ten(n, 0xAA50) || Ten(n, 0xABF0)
    || Ten(n, 0xFF10) || Ten(n, 0x104A0) || Ten(n, 0x10D30) || Ten(n, 0x11066) || Ten(n, 0x110F0)
    || Ten(n, 0x11136) || Ten(n, 0x111D0) || Ten(n, 0x112F0) || Ten(n, 0x11450) || Ten(n, 0x114D0)
    || Ten(n, 0x11650) || Ten(n, 0x116C0) || Ten(n, 0x11730) || Ten(n, 0x118E0) || Ten(n, 0x11950)
    || Ten(n, 0x11C50) || Ten(n, 0x11D50) || Ten(n, 0x11DA0) || Ten(n, 0x11F50) || Ten(n, 0x16A60)
    || Ten(n, 0x16AC0) || Ten(n, 0x16B50) || Ten(n, 0x1D7CE) || Ten(n, 0x1D7D8) || Ten(n, 0x1D7E2)
    || Ten(n, 0x1D7EC) || Ten(n, 0x1D7F6) || Ten(n, 0x1E140) || Ten(n, 0x1E2F0) || Ten(n, 0x1E4F0)
    || Ten(n, 0x1E950) || Ten(n, 0x1FBF0)
  }

  predicate AsciiDigit(c: char) {
    '0' <= c <= '9'
  }

  lemma AsciiDigits(c: char)
    ensures AsciiDigit(c) <==> DecimalDigit(c) && c as int < 128
  {
  }

  // ----- scheduled events

  datatype Channel = Sms | Voice

  /** A channel as callers name it: a text outside the two choices has no channel. */
  function ParseChannel(text: string): Option<Channel> {
    if text == "sms" then Some(Sms) else if text == "voice" then Some(Voice) else None
  }

  datatype EventStatus = Scheduled | Processing | Submitted | Failed | Suppressed | Cancelled

  datatype Event = Event(
    user: int,
    phone: int,
    zip: string,
    scheduledFor: int,
    channel: Channel,
    isDemo: bool,
    status: EventStatus,
    startedAt: Option<int>,
    completedAt: Option<int>)

  /** `ScheduledEvent.ALLOWED_TRANSITIONS`. */
  function Allowed(status: EventStatus): set<EventStatus> {
    match status
    case Scheduled => {Processing, Cancelled}
    case Processing => {Submitted, Failed, Suppressed}
    case _ => {}
  }

  /** The row after a legal `ScheduledEvent.transition_to`. */
  function Moved(row: Event, status: EventStatus, at: int): Event {
    if status == Processing then row.(status := status, startedAt := Some(at))
    else if status == Scheduled then row.(status := status)
    else row.(status := status, completedAt := Some(at))
  }

  /** How far an event has come. A cancelled event is at its end. */
  function Stage(status: EventStatus): nat {
    match status
    case Scheduled => 0
    case Processing => 1
    case Cancelled => 1
    case _ => 2
  }

  /** A transition goes one stage on, from any status but a cancelled one: there is no way back, none
      past processing, and none out of an end. */
  lemma TransitionsGoOn(from: EventStatus, to: EventStatus)
    ensures to in Allowed(from) <==> from != Cancelled && Stage(to) == Stage(from) + 1
  {
  }

  // ----- delivery attempts

  datatype AttemptStatus = AttemptProcessing | AttemptSubmitted | AttemptFailed | AttemptSuppressed

  datatype ProviderStatus =
    | Queued | Initiated | Ringing | InProgress
    | Completed | Busy | NoAnswer | ProviderFailed | Canceled

  predicate TerminalProviderStatus(status: ProviderStatus) {
    status in {Completed, Busy, NoAnswer, ProviderFailed, Canceled}
  }

  datatype VoiceResult = VoiceCancelled | VoiceSwitched | VoiceNoPending

  /** The columns a voice callback writes. They say nothing about the delivery itself. */
  datatype Callbacks = Callbacks(
    status: Option<ProviderStatus>,
    sequence: Option<nat>,
    statusAt: Option<int>,
    digit: string,
    result: Option<VoiceResult>,
    target: Option<int>,
    actionAt: Option<int>)

  const NO_CALLBACKS := Callbacks(None, None, None, "", None, None, None)

  datatype Attempt = Attempt(
    number: nat,
    status: AttemptStatus,
    error: ErrorCode,
    sid: Option<string>,
    message: string,
    completedAt: Option<int>,
    callbacks: Callbacks)

  function NewAttempt(number: nat): Attempt {
    Attempt(number, AttemptProcessing, NoCode, None, "", None, NO_CALLBACKS)
  }

  /** The attempt after a legal `DeliveryAttempt.transition_to`. */
  function Ended(a: Attempt, status: AttemptStatus, at: int): Attempt {
    a.(status := status, completedAt := Some(at))
  }

  /** The attempt without what callbacks write. */
  function Core(a: Attempt): Attempt {
    a.(callbacks := NO_CALLBACKS)
  }

  /** `order_by("-attempt_number").first()`: the attempt with the highest number. */
  function Latest(attempts: seq<Attempt>): Option<Attempt>
  {
    if attempts == [] then None
    else
      var last := attempts[|attempts| - 1];
      match Latest(attempts[..|attempts| - 1])
      case None => Some(last)
      case Some(other) => if other.number > last.number then Some(other) else Some(last)
  }

  predicate RetryableFailure(a: Attempt) {
    a.status == AttemptFailed && a.error.QueueRetryable?
  }

  // ----- the store

  datatype Entry = Entry(row: Event, attempts: seq<Attempt>)

  datatype Phone = Phone(user: int, number: string, verifiedAt: Option<int>)

  datatype SmsCommand = StopCommand | SmsCommand | TimeCommand | InvalidCommand

  datatype SmsResult =
    | SmsCancelled | SmsSwitched | SmsRescheduled | SmsNoPending
    | SmsUnknownSender | SmsInvalidCommand | SmsInvalidTime | SmsLifecycleConflict

  datatype SmsRecord = SmsRecord(
    command: SmsCommand, result: SmsResult, target: Option<int>, completedAt: int)

  datatype Store = Store(
    events: map<int, Entry>,
    phones: map<int, Phone>,
    sms: map<string, SmsRecord>)

  function WithEntry(s: Store, id: int, x: Entry): Store {
    s.(events := s.events[id := x])
  }

  /** The phone numbers are unique. */
  ghost predicate UniqueNumbers(s: Store) {
    forall p, q ::
      p in s.phones && q in s.phones && s.phones[p].number == s.phones[q].number ==> p == q
  }

  /** The provider SIDs are unique. */
  ghost predicate UniqueSids(s: Store) {
    forall e, k, f, j ::
      e in s.events && f in s.events && 0 <= k < |s.events[e].attempts| && 0 <= j < |s.events[f].attempts|
      && s.events[e].attempts[k].sid.Some? && s.events[e].attempts[k].sid == s.events[f].attempts[j].sid
      ==> e == f && k == j
  }

  /** Another attempt than `attempts[k]` of event `id` already holds this provider SID. */
  predicate SidTaken(s: Store, sid: string, id: int, k: nat) {
    exists e :: e in s.events && SidAmong(s.events[e].attempts, sid, if e == id then Some(k) else None)
  }

  predicate SidAmong(attempts: seq<Attempt>, sid: string, except: Option<nat>) {
    exists j :: 0 <= j < |attempts| && Some(j) != except && attempts[j].sid == Some(sid)
  }
}
