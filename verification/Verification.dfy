/** Phone verification: a provider call between two reads of the phone row.

    The functions and methods are the services of `apps/accounts/services.py`; the state
    machine below them runs any number of checks at once, with enrolments, edits of phone
    rows and every service on events in between. */
module Verification {
  import opened Records
  import opened Tables
  import opened Scheduling
  import opened InboundSms
  import opened Coupling
  import opened Services

  datatype VerificationStatus = PendingCheck | Approved | Rejected

  datatype GatewayReply = Replied(status: VerificationStatus) | GatewayError(exc: ClassName)

  /** A gateway replies to a number and a code. */
  type Gateway = (string, string) -> GatewayReply

  // ----- specification

  /** `fullmatch` of four to ten digits. */
  predicate ValidCode(code: string) {
    4 <= |code| <= 10 && forall i :: 0 <= i < |code| ==> DecimalDigit(code[i])
  }

  /** A plus sign, a digit from 1 to 9, and one to fourteen characters `\d` matches. */
  predicate MatchesPattern(number: string) {
    && 3 <= |number| <= 16 && number[0] == '+' && '1' <= number[1] <= '9'
    && forall i :: 2 <= i < |number| ==> DecimalDigit(number[i])
  }

  /** The validator searches, so its `$` lets a final line break through; the column is 16
      characters wide. */
  predicate ValidNumber(number: string) {
    |number| <= 16
    && (MatchesPattern(number)
        || (number != [] && number[|number| - 1] == '\n' && MatchesPattern(number[..|number| - 1])))
  }

  /** E.164: a plus sign and at most fifteen digits from 0 to 9, the first of them not 0. */
  predicate E164(number: string) {
    && 3 <= |number| <= 16 && number[0] == '+' && '1' <= number[1] <= '9'
    && forall i :: 2 <= i < |number| ==> AsciiDigit(number[i])
  }

  function WithPhone(s: Store, id: int, row: Phone): Store {
    s.(phones := s.phones[id := row])
  }

  /** `create_phone_number`: the number is unique among all users. */
  function Enroll(s: Store, newId: int, user: int, number: string): Outcome<Store> {
    if !ValidNumber(number) then Raised(ValidationError)
    else if exists p :: p in s.phones && s.phones[p].number == number then Raised(ValidationError)
    else Ok(WithPhone(s, newId, Phone(user, number, None)))
  }

  /** The guards and the first read of a check: the number to ask about, or nothing when the
      row is verified already. `owner` is given when a user may check only phones of theirs. */
  function Ask(s: Store, id: int, owner: Option<int>, code: Option<string>): Outcome<Option<string>> {
    if code.None? || !ValidCode(code.value) then Raised(VerificationInputInvalid)
    else if id !in s.phones || (owner.Some? && s.phones[id].user != owner.value) then Raised(DoesNotExist)
    else if s.phones[id].verifiedAt.Some? then Ok(None)
    else Ok(Some(s.phones[id].number))
  }

  /** `_mark_phone_verified`. */
  function Mark(s: Store, id: int, expected: string, at: int): Outcome<Store> {
    if id !in s.phones then Raised(DoesNotExist)
    else if s.phones[id].number != expected then Raised(PhoneNumberChanged)
    else if s.phones[id].verifiedAt.None? then Ok(WithPhone(s, id, s.phones[id].(verifiedAt := Some(at))))
    else Ok(s)
  }

  datatype Checked = Checked(store: Store, result: Outcome<VerificationStatus>)

  /** A check that nothing comes between. */
  function Check(s: Store, id: int, owner: Option<int>, code: Option<string>, gateway: Option<Gateway>,
                 at: int): Checked {
    match Ask(s, id, owner, code)
    case Raised(e) => Checked(s, Raised(e))
    case Ok(None) => Checked(s, Ok(Approved))
    case Ok(Some(number)) =>
      if gateway.None? then Checked(s, Raised(ValueError))
      else
        match gateway.value(number, code.value)
        case GatewayError(exc) => Checked(s, Raised(ProviderError(exc)))
        case Replied(status) =>
          if status != Approved then Checked(s, Ok(status))
          else
            var marked := Mark(s, id, number, at);
            if marked.Ok? then Checked(marked.value, Ok(status)) else Checked(s, Raised(marked.error))
  }

  // ----- services

  class PhoneNumber {
    const id: int
    const user: int
    const number: string
    var verifiedAt: Option<int>

    function Row(): Phone
      reads this
    {
      Phone(user, number, verifiedAt)
    }

    constructor (id: int, row: Phone)
      ensures this.id == id && Row() == row
    {
      this.id, user, number, verifiedAt := id, row.user, row.number, row.verifiedAt;
    }
  }

  method GetPhone(db: Database, id: int) returns (p: PhoneNumber?)
    ensures p == null <==> id !in db.store.phones
    ensures p != null ==> fresh(p) && p.id == id && p.Row() == db.store.phones[id]
  {
    if id !in db.store.phones {
      return null;
    }
    p := new PhoneNumber(id, db.store.phones[id]);
  }

  /** `newId` is the primary key the database assigns. */
  method CreatePhoneNumber(db: Database, newId: int, user: int, number: string) returns (r: Outcome<PhoneNumber>)
    requires newId !in db.store.phones
    modifies db
    ensures r.Ok? == Enroll(old(db.store), newId, user, number).Ok?
    ensures db.store == Committed(old(db.store), Enroll(old(db.store), newId, user, number))
    ensures r.Ok? ==> r.value.id == newId && db.store.phones[newId] == r.value.Row() == Phone(user, number, None)
    ensures r.Raised? ==> r.error == ValidationError
  {
    if !ValidNumber(number) {
      return Raised(ValidationError);
    }
    if exists p :: p in db.store.phones && db.store.phones[p].number == number {
      return Raised(ValidationError);
    }
    var phone := new PhoneNumber(newId, Phone(user, number, None));
    db.store := WithPhone(db.store, newId, phone.Row());
    return Ok(phone);
  }

  method MarkPhoneVerified(db: Database, id: int, expectedNumber: string, verifiedAt: int) returns (r: Outcome<()>)
    modifies db
    ensures var spec := Mark(old(db.store), id, expectedNumber, verifiedAt);
            && r == (if spec.Ok? then Ok(()) else Raised(spec.error))
            && db.store == Committed(old(db.store), spec)
  {
    var phone := GetPhone(db, id);
    if phone == null {
      return Raised(DoesNotExist);
    }
    if phone.number != expectedNumber {
      return Raised(PhoneNumberChanged);
    }
    if phone.verifiedAt.None? {
      phone.verifiedAt := Some(verifiedAt);
      db.store := WithPhone(db.store, id, db.store.phones[id].(verifiedAt := phone.verifiedAt));
    }
    return Ok(());
  }

  method CheckPhoneVerification(db: Database, id: int, code: Option<string>, gateway: Gateway, verifiedAt: int)
    returns (r: Outcome<VerificationStatus>)
    modifies db
    ensures Checked(db.store, r) == Check(old(db.store), id, None, code, Some(gateway), verifiedAt)
  {
    if code.None? || !ValidCode(code.value) {
      return Raised(VerificationInputInvalid);
    }
    var phone := GetPhone(db, id);
    if phone == null {
      return Raised(DoesNotExist);
    }
    if phone.verifiedAt.Some? {
      return Ok(Approved);
    }
    r := AskAndMark(db, phone, code.value, gateway, verifiedAt);
  }

  method CheckUserPhoneVerification(db: Database, id: int, code: Option<string>, user: int, gateway: Option<Gateway>,
                                    verifiedAt: int)
    returns (r: Outcome<VerificationStatus>)
    modifies db
    ensures Checked(db.store, r) == Check(old(db.store), id, Some(user), code, gateway, verifiedAt)
  {
    if code.None? || !ValidCode(code.value) {
      return Raised(VerificationInputInvalid);
    }
    var phone := GetPhone(db, id);
    if phone == null || phone.user != user {
      return Raised(DoesNotExist);
    }
    if phone.verifiedAt.Some? {
      return Ok(Approved);
    }
    if gateway.None? {
      return Raised(ValueError);
    }
    r := AskAndMark(db, phone, code.value, gateway.value, verifiedAt);
  }

  /** The part the two checks share: the call of the gateway, and the mark. */
  method AskAndMark(db: Database, phone: PhoneNumber, code: string, gateway: Gateway, verifiedAt: int)
    returns (r: Outcome<VerificationStatus>)
    requires phone.id in db.store.phones && phone.Row() == db.store.phones[phone.id] && phone.verifiedAt.None?
    modifies db
    ensures var reply := gateway(phone.number, code);
            && db.store == (if reply == Replied(Approved)
                            then Mark(old(db.store), phone.id, phone.number, verifiedAt).value
                            else old(db.store))
            && r == if reply.GatewayError? then Raised(ProviderError(reply.exc)) else Ok(reply.status)
  {
    var reply := gateway(phone.number, code);
    if reply.GatewayError? {
      return Raised(ProviderError(reply.exc));
    }
    if reply.status != Approved {
      return Ok(reply.status);
    }
    var marked := MarkPhoneVerified(db, phone.id, phone.number, verifiedAt);
    assert marked.Ok?;
    return Ok(reply.status);
  }

  // ----- a check and an enrolment on the rows

  /** `s` with phone row `id` verified at this time. */
  ghost function VerifiedIn(s: Store, id: int, at: int): Store
    requires id in s.phones
  {
    s.(phones := s.phones[id := Phone(s.phones[id].user, s.phones[id].number, Some(at))])
  }

  /** A check that nothing comes between, with the exact condition of each answer: a code of four to
      ten digits, a row the caller owns, nothing to do on a verified row, a gateway, and the word of the
      gateway on the row's number and the code. Only an approval changes anything: it verifies that row. */
  lemma CheckOnRows(s: Store, id: int, owner: Option<int>, code: Option<string>, gateway: Option<Gateway>, at: int)
    ensures var x := Check(s, id, owner, code, gateway, at);
            if code.None? || !(4 <= |code.value| <= 10)
               || exists i :: 0 <= i < |code.value| && !DecimalDigit(code.value[i]) then
              x == Checked(s, Raised(VerificationInputInvalid))
            else if id !in s.phones || (owner.Some? && owner.value != s.phones[id].user) then
              x == Checked(s, Raised(DoesNotExist))
            else if s.phones[id].verifiedAt.Some? then x == Checked(s, Ok(Approved))
            else if gateway.None? then x == Checked(s, Raised(ValueError))
            else
              match gateway.value(s.phones[id].number, code.value)
              case GatewayError(exc) => x == Checked(s, Raised(ProviderError(exc)))
              case Replied(status) =>
                x == Checked(if status == Approved then VerifiedIn(s, id, at) else s, Ok(status))
  {
  }

  /** A mark is refused for a row that is gone or holds another number, and keeps the first time. */
  lemma MarkOnRows(s: Store, id: int, expected: string, at: int)
    ensures Mark(s, id, expected, at)
            == if id !in s.phones then Raised(DoesNotExist)
               else if s.phones[id].number != expected then Raised(PhoneNumberChanged)
               else Ok(if s.phones[id].verifiedAt.Some? then s else VerifiedIn(s, id, at))
  {
  }

  /** A plus sign, a digit from 1 to 9, and one to fourteen digits of any script. */
  ghost predicate Dialable(number: string) {
    && 3 <= |number| <= 16 && number[0] == '+' && number[1] in {'1', '2', '3', '4', '5', '6', '7', '8', '9'}
    && forall i :: 2 <= i < |number| ==> DecimalDigit(number[i])
  }

  /** An enrolment succeeds exactly for a number nobody has that is dialable, or is so but for a line
      break at its end within the width of the column; it adds one row that is not verified. */
  lemma EnrolledExactlyWhen(s: Store, newId: int, user: int, number: string)
    ensures var r := Enroll(s, newId, user, number);
            if (Dialable(number)
                || (1 <= |number| <= 16 && Dialable(number[..|number| - 1]) && number[|number| - 1] == '\n'))
               && forall p :: p in s.phones ==> s.phones[p].number != number
            then r == Ok(s.(phones := s.phones[newId := Phone(user, number, None)]))
            else r == Raised(ValidationError)
  {
  }

  // ----- what a number may look like

  /** A number that ends in a line break or has a character outside ASCII. */
  predicate Unusual(number: string) {
    number != [] && (number[|number| - 1] == '\n' || exists i :: 0 <= i < |number| && number[i] as int >= 128)
  }

  lemma ValidIsE164ExactlyWhen(number: string)
    requires ValidNumber(number)
    ensures E164(number) <==> !Unusual(number)
  {
    forall c ensures AsciiDigit(c) <==> DecimalDigit(c) && c as int < 128 {
      AsciiDigits(c);
    }
    if MatchesPattern(number) && !Unusual(number) {
      assert E164(number);
    }
    if MatchesPattern(number) {
      assert number[|number| - 1] != '\n';
    }
  }

  /** An enrolled number is in E.164 format exactly when it neither ends in a line break nor has a
      digit of another script; without surrounding white space only the second can happen. */
  lemma EnrolledIsE164ExactlyWhen(s: Store, newId: int, user: int, number: string)
    requires Enroll(s, newId, user, number).Ok?
    ensures E164(number) <==> !Unusual(number)
    ensures Strip(number) == number ==>
              (E164(number) <==> forall i :: 0 <= i < |number| ==> number[i] as int < 128)
  {
    ValidIsE164ExactlyWhen(number);
    if number != [] && number[|number| - 1] == '\n' {
      assert IsSpace('\n');
    }
  }

  const OTHER_SCRIPT := "+1\U{661}"
  const LINE_BREAK := "+12\n"

  lemma ArabicOne()
    ensures DecimalDigit('\U{661}') && !IsSpace('\U{661}')
  {
    assert Ten(0x661, 0x660);
  }

  lemma OtherScriptIsValid(c: char)
    requires DecimalDigit(c) && !AsciiDigit(c) && !IsSpace(c)
    ensures var number := ['+', '1', c];
            ValidNumber(number) && !E164(number) && Strip(number) == number
  {
    var number := ['+', '1', c];
    assert number[2] == c;
    StripsToItself(number);
  }

  lemma LineBreakIsValid()
    ensures ValidNumber(LINE_BREAK) && !E164(LINE_BREAK) && Strip(LINE_BREAK) != LINE_BREAK
  {
    assert LINE_BREAK[..3] == "+12";
    AsciiDigits('2');
    assert MatchesPattern("+12");
    var stripped := Strip(LINE_BREAK);
    assert LINE_BREAK[3] == '\n' && IsSpace('\n');
  }

  lemma ArabicNumber()
    ensures ValidNumber(OTHER_SCRIPT) && !E164(OTHER_SCRIPT) && Strip(OTHER_SCRIPT) == OTHER_SCRIPT
  {
    ArabicOne();
    var c := '\U{661}';
    OtherScriptIsValid(c);
    assert OTHER_SCRIPT == ['+', '1', c];
  }

  lemma ValidIsEnrolled(s: Store, newId: int, user: int, number: string)
    requires s.phones == map[] && ValidNumber(number)
    ensures Enroll(s, newId, user, number).Ok?
  {
  }

  /** Two numbers that are enrolled and are not in E.164 format. The first one passes the form and
      the serializer, which strip white space; the second one only reaches a direct call. */
  lemma NumbersOutsideE164(s: Store, newId: int, user: int)
    requires s.phones == map[]
    ensures Enroll(s, newId, user, OTHER_SCRIPT).Ok? && !E164(OTHER_SCRIPT) && Strip(OTHER_SCRIPT) == OTHER_SCRIPT
    ensures Enroll(s, newId, user, LINE_BREAK).Ok? && !E164(LINE_BREAK) && Strip(LINE_BREAK) != LINE_BREAK
  {
    ArabicNumber();
    LineBreakIsValid();
    ValidIsEnrolled(s, newId, user, OTHER_SCRIPT);
    ValidIsEnrolled(s, newId, user, LINE_BREAK);
  }

  // ----- concurrent checks

  /** A check under way: the row it read and the number it asked about; the gateway's word
      when it has it. */
  datatype Running = Running(id: int, number: string, approved: bool)

  /** A write of `verified_at`, with the number the row held in that transaction. */
  datatype Write = Write(id: int, number: string, at: int)

  /** `approvals`, `writes` and `created` are histories: the numbers the gateway approved, the
      writes of `verified_at`, and the events `create_scheduled_event` made. `edited` holds the
      phone rows somebody changed by hand. Nothing reads them. */
  datatype Sys = Sys(
    db: Store,
    running: map<int, Running>,
    approvals: set<string>,
    writes: seq<Write>,
    created: set<int>,
    edited: set<int>)

  datatype Label =
    | Begin(c: int, id: int, owner: Option<int>, code: Option<string>)
    | GatewaySays(c: int, reply: GatewayReply)
    | Commit(c: int, at: int)
    | Die(c: int)
    | EnrollPhone(newId: int, user: int, number: string)
    | EditPhone(id: int, user: int, number: string)
    | EventService(op: Op)

  predicate Enabled(s: Sys, l: Label) {
    match l
    case Begin(c, _, _, _) => c !in s.running
    case GatewaySays(c, _) => c in s.running && !s.running[c].approved
    case Commit(c, _) => c in s.running && s.running[c].approved
    case Die(c) => true
    case EnrollPhone(newId, _, _) => newId !in s.db.phones
    case EditPhone(id, _, number) =>
      id in s.db.phones && forall p :: p in s.db.phones && s.db.phones[p].number == number ==> p == id
    case EventService(op) => OpEnabled(s.db, op) && !op.PhonesOp?
  }

  function DoBegin(s: Sys, c: int, id: int, owner: Option<int>, code: Option<string>): Sys {
    var asked := Ask(s.db, id, owner, code);
    if asked.Ok? && asked.value.Some? then s.(running := s.running[c := Running(id, asked.value.value, false)]) else s
  }

  function DoGatewaySays(s: Sys, c: int, reply: GatewayReply): Sys
    requires c in s.running
  {
    if reply == Replied(Approved) then
      s.(running := s.running[c := s.running[c].(approved := true)], approvals := s.approvals + {s.running[c].number})
    else s.(running := s.running - {c})
  }

  function DoCommit(s: Sys, c: int, at: int): Sys
    requires c in s.running
  {
    var r := s.running[c];
    var t := s.(db := Committed(s.db, Mark(s.db, r.id, r.number, at)), running := s.running - {c});
    if t.db == s.db then t else t.(writes := s.writes + [Write(r.id, s.db.phones[r.id].number, at)])
  }

  function DoEventService(s: Sys, op: Op): Sys {
    var t := s.(db := Apply(s.db, op));
    if op.CreateOp? && op.newId in t.db.events then t.(created := s.created + {op.newId}) else t
  }

  function Next(s: Sys, l: Label): Sys
    requires Enabled(s, l)
  {
    match l
    case Begin(c, id, owner, code) => DoBegin(s, c, id, owner, code)
    case GatewaySays(c, reply) => DoGatewaySays(s, c, reply)
    case Commit(c, at) => DoCommit(s, c, at)
    case Die(c) => s.(running := s.running - {c})
    case EnrollPhone(newId, user, number) => s.(db := Committed(s.db, Enroll(s.db, newId, user, number)))
    case EditPhone(id, user, number) =>
      s.(db := WithPhone(s.db, id, s.db.phones[id].(user := user, number := number)), edited := s.edited + {id})
    case EventService(op) => DoEventService(s, op)
  }

  ghost predicate Init(s: Sys) {
    && s.running == map[] && s.approvals == {} && s.writes == [] && s.created == {} && s.edited == {}
    && StoreOk(s.db) && UniqueNumbers(s.db)
    && forall p :: p in s.db.phones ==> s.db.phones[p].verifiedAt.None?
  }

  ghost predicate StepAt(states: seq<Sys>, labels: seq<Label>, i: nat) {
    && i < |labels| && i + 1 < |states|
    && Enabled(states[i], labels[i])
    && states[i + 1] == Next(states[i], labels[i])
  }

  ghost predicate IsRun(states: seq<Sys>, labels: seq<Label>) {
    && |states| == |labels| + 1
    && Init(states[0])
    && forall i :: 0 <= i < |labels| ==> StepAt(states, labels, i)
  }

  // ----- the invariant

  ghost predicate WrittenOnce(writes: seq<Write>) {
    forall i, j :: 0 <= i < j < |writes| ==> writes[i].id != writes[j].id
  }

  /** The row is verified by exactly the write on record; unless somebody edited it, it still
      holds the number that was approved. */
  ghost predicate Backed(s: Sys, w: Write) {
    && w.number in s.approvals
    && w.id in s.db.phones && s.db.phones[w.id].verifiedAt == Some(w.at)
    && (w.id !in s.edited ==> s.db.phones[w.id].number == w.number)
  }

  ghost predicate PhonesOk(s: Sys) {
    && (forall c :: c in s.running && s.running[c].approved ==> s.running[c].number in s.approvals)
    && WrittenOnce(s.writes)
    && (forall i :: 0 <= i < |s.writes| ==> Backed(s, s.writes[i]))
    && (forall p :: p in s.db.phones && s.db.phones[p].verifiedAt.Some? ==>
          exists i :: 0 <= i < |s.writes| && s.writes[i].id == p)
  }

  ghost predicate EventsOk(s: Sys) {
    && StoreOk(s.db)
    && forall e :: e in s.created ==>
         && e in s.db.events
         && var row := s.db.events[e].row;
            && row.phone in s.db.phones && s.db.phones[row.phone].verifiedAt.Some?
            && (row.phone !in s.edited ==> OwnedAndVerified(s.db, row.user, row.phone))
  }

  lemma PhonesKept(s: Store, op: Op)
    requires !op.PhonesOp?
    ensures Apply(s, op).phones == s.phones
  {
  }

  lemma OwnersKept(s: Store, t: Store)
    requires ServiceStep(s, t)
    ensures forall e :: e in s.events ==>
              e in t.events && t.events[e].row.user == s.events[e].row.user
                  && t.events[e].row.phone == s.events[e].row.phone
  {
  }

  /** Events keep their user and phone, and the services on events leave the phones alone. */
  lemma EventServiceFrame(s: Store, op: Op, t: Store)
    requires StoreOk(s) && OpEnabled(s, op) && !op.PhonesOp? && t == Apply(s, op)
    ensures StoreOk(t) && t.phones == s.phones
    ensures forall e :: e in s.events ==>
              e in t.events && t.events[e].row.user == s.events[e].row.user
                  && t.events[e].row.phone == s.events[e].row.phone
  {
    OpStep(s, op);
    OwnersKept(s, t);
    PhonesKept(s, op);
  }

  /** What a commit writes. */
  lemma CommitWrites(s: Sys, c: int, at: int)
    requires PhonesOk(s) && c in s.running && s.running[c].approved
    ensures PhonesOk(DoCommit(s, c, at))
  {
    var r, t := s.running[c], DoCommit(s, c, at);
    if t.db != s.db {
      var w := Write(r.id, r.number, at);
      assert t.writes == s.writes + [w];
      forall i | 0 <= i < |s.writes| ensures s.writes[i].id != r.id {
        assert Backed(s, s.writes[i]);
      }
      assert forall i :: 0 <= i < |s.writes| ==> t.writes[i] == s.writes[i] && Backed(s, s.writes[i]);
      assert t.writes[|s.writes|] == w && Backed(t, w);
      forall p | p in t.db.phones && t.db.phones[p].verifiedAt.Some?
        ensures exists i :: 0 <= i < |t.writes| && t.writes[i].id == p
      {
        if p == r.id {
          assert t.writes[|s.writes|].id == p;
        } else {
          var i :| 0 <= i < |s.writes| && s.writes[i].id == p;
          assert t.writes[i].id == p;
        }
      }
    }
  }

  lemma OtherStepsKeepPhonesOk(s: Sys, l: Label)
    requires PhonesOk(s) && Enabled(s, l) && !l.Commit? && !l.EventService?
    ensures PhonesOk(Next(s, l))
  {
    var t := Next(s, l);
    forall i | 0 <= i < |s.writes| ensures Backed(t, t.writes[i]) {
      assert Backed(s, s.writes[i]);
    }
  }

  lemma EventServiceKeepsPhonesOk(s: Sys, op: Op)
    requires PhonesOk(s) && !op.PhonesOp?
    ensures PhonesOk(DoEventService(s, op))
  {
    PhonesKept(s.db, op);
    forall i | 0 <= i < |s.writes| ensures Backed(DoEventService(s, op), s.writes[i]) {
      assert Backed(s, s.writes[i]);
    }
  }

  lemma PhonesStep(s: Sys, l: Label)
    requires PhonesOk(s) && Enabled(s, l)
    ensures PhonesOk(Next(s, l))
  {
    if l.Commit? {
      CommitWrites(s, l.c, l.at);
    } else if l.EventService? {
      EventServiceKeepsPhonesOk(s, l.op);
    } else {
      OtherStepsKeepPhonesOk(s, l);
    }
  }

  /** How a step may change a phone row: the number and owner only by hand, and `verified_at`
      only from nothing to something. */
  ghost predicate RowStep(s: Sys, t: Sys, p: int)
    requires p in s.db.phones
  {
    && p in t.db.phones
    && (s.db.phones[p].verifiedAt.Some? ==> t.db.phones[p].verifiedAt == s.db.phones[p].verifiedAt)
    && (p !in t.edited ==> t.db.phones[p].number == s.db.phones[p].number && t.db.phones[p].user == s.db.phones[p].user)
  }

  lemma RowSteps(s: Sys, l: Label)
    requires Enabled(s, l)
    ensures forall p :: p in s.db.phones ==> RowStep(s, Next(s, l), p)
    ensures s.edited <= Next(s, l).edited
  {
    if l.EventService? {
      PhonesKept(s.db, l.op);
    }
  }

  lemma CreatedStaysOk(s: Sys, t: Sys)
    requires EventsOk(s) && StoreOk(t.db) && t.created == s.created && s.edited <= t.edited
    requires forall p :: p in s.db.phones ==> RowStep(s, t, p)
    requires forall e :: e in s.db.events ==>
               e in t.db.events && t.db.events[e].row.user == s.db.events[e].row.user
               && t.db.events[e].row.phone == s.db.events[e].row.phone
    ensures EventsOk(t)
  {
    forall e | e in t.created
      ensures var row := t.db.events[e].row;
              && row.phone in t.db.phones && t.db.phones[row.phone].verifiedAt.Some?
              && (row.phone !in t.edited ==> OwnedAndVerified(t.db, row.user, row.phone))
    {
      assert RowStep(s, t, s.db.events[e].row.phone);
    }
  }

  lemma CreateEventStep(s: Sys, op: Op)
    requires EventsOk(s) && OpEnabled(s.db, op) && op.CreateOp?
    ensures EventsOk(DoEventService(s, op))
  {
    CreateIsSafe(s.db, op.newId, op.user, op.phone, op.zip, op.at, op.channel, op.now);
    EventServiceFrame(s.db, op, Apply(s.db, op));
    var t := DoEventService(s, op);
    forall e | e in t.created
      ensures e in t.db.events
              && var row := t.db.events[e].row;
                 && row.phone in t.db.phones && t.db.phones[row.phone].verifiedAt.Some?
                 && (row.phone !in t.edited ==> OwnedAndVerified(t.db, row.user, row.phone))
    {
      if e in s.created {
        assert e in s.db.events;
      }
    }
  }

  lemma EventsStep(s: Sys, l: Label)
    requires EventsOk(s) && Enabled(s, l)
    ensures EventsOk(Next(s, l))
  {
    RowSteps(s, l);
    if l.EventService? && l.op.CreateOp? {
      CreateEventStep(s, l.op);
    } else if l.EventService? {
      EventServiceFrame(s.db, l.op, Apply(s.db, l.op));
      CreatedStaysOk(s, Next(s, l));
    } else {
      CreatedStaysOk(s, Next(s, l));
    }
  }

  lemma {:induction false} RunKeeps(states: seq<Sys>, labels: seq<Label>, n: nat)
    requires IsRun(states, labels) && n <= |labels|
    ensures PhonesOk(states[n]) && EventsOk(states[n])
  {
    if n == 0 {
    } else {
      RunKeeps(states, labels, n - 1);
      assert StepAt(states, labels, n - 1);
      PhonesStep(states[n - 1], labels[n - 1]);
      EventsStep(states[n - 1], labels[n - 1]);
    }
  }

  // ----- theorems

  ghost predicate NumbersValid(s: Sys) {
    forall p :: p in s.db.phones && p !in s.edited ==> ValidNumber(s.db.phones[p].number)
  }

  lemma ValidStep(s: Sys, l: Label)
    requires NumbersValid(s) && Enabled(s, l)
    ensures NumbersValid(Next(s, l))
  {
    if l.EventService? {
      PhonesKept(s.db, l.op);
    }
  }

  /** In every state of every run that starts with valid numbers, a number that was not edited by
      hand is valid, and in E.164 format exactly when it is not unusual. */
  lemma {:induction false} NumbersStayValid(states: seq<Sys>, labels: seq<Label>, n: nat, p: int)
    requires IsRun(states, labels) && n <= |labels| && NumbersValid(states[0])
    requires p in states[n].db.phones && p !in states[n].edited
    ensures ValidNumber(states[n].db.phones[p].number)
    ensures E164(states[n].db.phones[p].number) <==> !Unusual(states[n].db.phones[p].number)
  {
    ValidOverRun(states, labels, n);
    ValidIsE164ExactlyWhen(states[n].db.phones[p].number);
  }

  lemma {:induction false} ValidOverRun(states: seq<Sys>, labels: seq<Label>, n: nat)
    requires IsRun(states, labels) && n <= |labels| && NumbersValid(states[0])
    ensures NumbersValid(states[n])
  {
    if n == 0 {
    } else {
      ValidOverRun(states, labels, n - 1);
      assert StepAt(states, labels, n - 1);
      ValidStep(states[n - 1], labels[n - 1]);
    }
  }

  lemma UniqueStep(s: Sys, l: Label)
    requires UniqueNumbers(s.db) && Enabled(s, l)
    ensures UniqueNumbers(Next(s, l).db)
  {
    if l.EventService? {
      PhonesKept(s.db, l.op);
    }
  }

  /** A number belongs to at most one phone row in every state of every run, so a text from it
      names one sender. */
  lemma {:induction false} NumbersAreUnique(states: seq<Sys>, labels: seq<Label>, n: nat)
    requires IsRun(states, labels) && n <= |labels|
    ensures UniqueNumbers(states[n].db)
  {
    if n == 0 {
    } else {
      NumbersAreUnique(states, labels, n - 1);
      assert StepAt(states, labels, n - 1);
      UniqueStep(states[n - 1], labels[n - 1]);
    }
  }

  /** In every interleaving, a row becomes verified only in the commit of a check of that row,
      which finds there the very number the gateway approved for it, however the row was edited in
      between, and the commit leaves the number as it is. */
  lemma VerifiedMeansApproved(states: seq<Sys>, labels: seq<Label>, n: nat, p: int)
    requires IsRun(states, labels) && n < |labels|
    requires p in states[n + 1].db.phones && states[n + 1].db.phones[p].verifiedAt.Some?
    requires p in states[n].db.phones ==> states[n].db.phones[p].verifiedAt.None?
    ensures p in states[n].db.phones && labels[n].Commit?
    ensures labels[n].c in states[n].running
            && states[n].running[labels[n].c] == Running(p, states[n].db.phones[p].number, true)
    ensures states[n].db.phones[p].number in states[n].approvals
    ensures states[n + 1].db.phones[p] == states[n].db.phones[p].(verifiedAt := Some(labels[n].at))
  {
    RunKeeps(states, labels, n);
    assert StepAt(states, labels, n);
    if labels[n].EventService? {
      PhonesKept(states[n].db, labels[n].op);
    }
  }

  /** `verified_at` is written at most once: it never changes again. */
  lemma {:induction false} VerifiedForever(states: seq<Sys>, labels: seq<Label>, i: nat, j: nat, p: int)
    requires IsRun(states, labels) && i <= j <= |labels|
    requires p in states[i].db.phones && states[i].db.phones[p].verifiedAt.Some?
    ensures p in states[j].db.phones && states[j].db.phones[p].verifiedAt == states[i].db.phones[p].verifiedAt
    decreases j
  {
    if i == j {
    } else {
      VerifiedForever(states, labels, i, j - 1, p);
      assert StepAt(states, labels, j - 1);
      RowSteps(states[j - 1], labels[j - 1]);
    }
  }

  /** Unless somebody edits the row by hand, a verified phone holds a number the gateway
      approved. */
  lemma VerifiedNumberWasApproved(states: seq<Sys>, labels: seq<Label>, n: nat, p: int)
    requires IsRun(states, labels) && n <= |labels|
    requires p in states[n].db.phones && states[n].db.phones[p].verifiedAt.Some? && p !in states[n].edited
    ensures states[n].db.phones[p].number in states[n].approvals
  {
    RunKeeps(states, labels, n);
    var i :| 0 <= i < |states[n].writes| && states[n].writes[i].id == p;
    assert Backed(states[n], states[n].writes[i]);
  }

  /** Every event `create_scheduled_event` made keeps a verified phone for good, and one its
      user owns unless the phone row was edited by hand. */
  lemma CreatedEventsKeepTheirPhone(states: seq<Sys>, labels: seq<Label>, n: nat, e: int)
    requires IsRun(states, labels) && n <= |labels| && e in states[n].created
    ensures e in states[n].db.events
    ensures var row := states[n].db.events[e].row;
            && row.phone in states[n].db.phones && states[n].db.phones[row.phone].verifiedAt.Some?
            && (row.phone !in states[n].edited ==> OwnedAndVerified(states[n].db, row.user, row.phone))
  {
    RunKeeps(states, labels, n);
  }

  // ----- who asked

  /** Step `i` began the check of this row for its owner, with a code in the right form, and read the
      number of a row that was not verified. */
  ghost predicate BegunAt(states: seq<Sys>, labels: seq<Label>, i: nat, c: int, r: Running) {
    && i < |labels| && i < |states| && labels[i].Begin? && labels[i].c == c && labels[i].id == r.id
    && r.id in states[i].db.phones
    && states[i].db.phones[r.id].number == r.number && states[i].db.phones[r.id].verifiedAt.None?
    && (labels[i].owner.Some? ==> states[i].db.phones[r.id].user == labels[i].owner.value)
    && labels[i].code.Some? && 4 <= |labels[i].code.value| <= 10
  }

  /** Every check under way was begun by a step of the run. */
  lemma {:induction false} CheckWasBegun(states: seq<Sys>, labels: seq<Label>, n: nat, c: int)
    requires IsRun(states, labels) && n <= |labels| && c in states[n].running
    ensures exists i: nat :: i < n && BegunAt(states, labels, i, c, states[n].running[c])
    decreases n
  {
    if n == 0 {
    } else {
      var s, l, t := states[n - 1], labels[n - 1], states[n];
      assert StepAt(states, labels, n - 1);
      if c in s.running {
        RunningStays(s, l, c);
        CheckWasBegun(states, labels, n - 1, c);
        var i: nat :| i < n - 1 && BegunAt(states, labels, i, c, s.running[c]);
        assert BegunAt(states, labels, i, c, t.running[c]);
      } else {
        BeginReads(s, l, c);
        assert BegunAt(states, labels, n - 1, c, t.running[c]);
      }
    }
  }

  lemma RunningStays(s: Sys, l: Label, c: int)
    requires Enabled(s, l) && c in s.running && c in Next(s, l).running
    ensures Next(s, l).running[c].id == s.running[c].id && Next(s, l).running[c].number == s.running[c].number
  {
  }

  lemma BeginReads(s: Sys, l: Label, c: int)
    requires Enabled(s, l) && c !in s.running && c in Next(s, l).running
    ensures l.Begin? && l.c == c && l.id == Next(s, l).running[c].id && l.id in s.db.phones
    ensures Next(s, l).running[c].number == s.db.phones[l.id].number && s.db.phones[l.id].verifiedAt.None?
    ensures l.owner.Some? ==> s.db.phones[l.id].user == l.owner.value
    ensures l.code.Some? && 4 <= |l.code.value| <= 10
  {
  }

  /** In every interleaving, a row that becomes verified was checked by a caller who owned it when the
      check began, if the caller had to own it, and holds the number the check read then. */
  lemma VerifiedForItsOwner(states: seq<Sys>, labels: seq<Label>, n: nat, p: int)
    requires IsRun(states, labels) && n < |labels|
    requires p in states[n + 1].db.phones && states[n + 1].db.phones[p].verifiedAt.Some?
    requires p in states[n].db.phones ==> states[n].db.phones[p].verifiedAt.None?
    ensures p in states[n].db.phones && labels[n].Commit?
    ensures exists i: nat :: i < n && BegunAt(states, labels, i, labels[n].c,
                                              Running(p, states[n].db.phones[p].number, true))
  {
    VerifiedMeansApproved(states, labels, n, p);
    CheckWasBegun(states, labels, n, labels[n].c);
  }

  // ----- the services are runs

  /** An uninterrupted check takes these steps, as far as they are enabled. Without a gateway the
      check dies after its read. */
  function CheckSteps(s: Sys, c: int, id: int, owner: Option<int>, code: Option<string>, gateway: Option<Gateway>,
                      at: int): Sys
    requires c !in s.running
  {
    var asked := Next(s, Begin(c, id, owner, code));
    if c !in asked.running then asked
    else if gateway.None? || code.None? then Next(asked, Die(c))
    else
      var said := Next(asked, GatewaySays(c, gateway.value(asked.running[c].number, code.value)));
      if c !in said.running then said else Next(said, Commit(c, at))
  }

  /** The steps end in the store of the check, and record its approval and its write when it makes
      them. A check answers approved exactly for a row that is verified afterwards. */
  lemma CheckIsRun(s: Sys, c: int, id: int, owner: Option<int>, code: Option<string>, gateway: Option<Gateway>, at: int)
    requires c !in s.running
    ensures var t := CheckSteps(s, c, id, owner, code, gateway, at);
            var x := Check(s.db, id, owner, code, gateway, at);
            && t.db == x.store && t.running == s.running && t.created == s.created && t.edited == s.edited
            && (x.result == Ok(Approved) ==> id in t.db.phones && t.db.phones[id].verifiedAt.Some?)
            && (x.result != Ok(Approved) ==> t == s)
            && (t.db == s.db ==> t == s)
            && (t.db != s.db ==>
                  && id in s.db.phones && t.approvals == s.approvals + {s.db.phones[id].number}
                  && t.writes == s.writes + [Write(id, s.db.phones[id].number, at)])
  {
    var asked := Next(s, Begin(c, id, owner, code));
    if c in asked.running {
      assert asked.running - {c} == s.running;
      if gateway.Some? && code.Some? {
        var said := Next(asked, GatewaySays(c, gateway.value(asked.running[c].number, code.value)));
        assert said.running - {c} == s.running;
      }
    } else {
      assert asked == s;
    }
  }
}
