/** The messages of the delivery queue, printed and parsed.

    The five names the texts use are kept in a record, so that what is proved does not
    depend on how they are spelled, only on how long they are and that they differ. */
module Envelope {
  import opened Records
  import opened Json

  const ENVELOPE_VERSION := 1
  const MAX_BODY := 4096

  /** The keys, and the two message types. */
  datatype Vocabulary = Vocabulary(eventId: Text, messageType: Text, version: Text, tick: Text, deliver: Text)

  const WORDS := Vocabulary(Codes("event_id"), Codes("type"), Codes("version"), Codes("dispatch_due_events"),
                            Codes("deliver_scheduled_event"))

  datatype QueueEnvelope = QueueEnvelope(messageType: Text, eventId: Option<int>, version: int)

  function TickOf(w: Vocabulary): QueueEnvelope {
    QueueEnvelope(w.tick, None, ENVELOPE_VERSION)
  }

  function DeliveryOf(w: Vocabulary, eventId: int): QueueEnvelope {
    QueueEnvelope(w.deliver, Some(eventId), ENVELOPE_VERSION)
  }

  /** `dispatch_tick`. */
  function DispatchTick(): QueueEnvelope {
    TickOf(WORDS)
  }

  /** `deliver_event` takes any object; a boolean is not an integer here. */
  function DeliverEvent(eventId: Value): Outcome<QueueEnvelope> {
    if !eventId.Int? || eventId.n <= 0 then Raised(ValueError) else Ok(DeliveryOf(WORDS, eventId.n))
  }

  // ----- printing

  /** `json.dumps` without spaces and with sorted keys: `event_id`, `type`, `version`. */
  function ToJson(e: QueueEnvelope): string {
    Printed(WORDS, e)
  }

  function Printed(w: Vocabulary, e: QueueEnvelope): string {
    "{" + (if e.eventId.Some? then EventIdText(w, e.eventId.value, TypeText(w, e)) else TypeText(w, e))
  }

  function EventIdText(w: Vocabulary, eventId: int, tail: string): string {
    PrintString(w.eventId, [':'] + (PrintInt(eventId) + ([','] + tail)))
  }

  function TypeText(w: Vocabulary, e: QueueEnvelope): string {
    PrintString(w.messageType, [':'] + PrintString(e.messageType, [','] + VersionText(w, e.version)))
  }

  function VersionText(w: Vocabulary, version: int): string {
    PrintString(w.version, [':'] + (PrintInt(version) + "}"))
  }

  // ----- parsing

  /** `value == 1` in Python: booleans and floats compare with integers, and a decimal is
      first rounded to the nearest double. */
  predicate EqualsOne(v: Value) {
    match v
    case Int(n) => n == 1
    case Bool(b) => b
    case Float(decimal) => 1.0 - 1.0 / 18014398509481984.0 <= decimal <= 1.0 + 1.0 / 9007199254740992.0
    case _ => false
  }

  /** `from_json`, with `None` for `MalformedQueueMessage`. */
  function FromJson(body: string): (e: Option<QueueEnvelope>)
    ensures e.Some? && e.value.messageType != WORDS.tick ==>
              && e.value.messageType == WORDS.deliver
              && e.value.eventId.Some? && e.value.eventId.value > 0
  {
    Parsed(WORDS, body)
  }

  function Parsed(w: Vocabulary, body: string): Option<QueueEnvelope> {
    if |body| > MAX_BODY then None
    else
      match Loads(body)
      case Some(Obj(members)) =>
        FromPayload(w, Get(members, w.version), Get(members, w.messageType),
                    Get(members, w.eventId), Keys(members))
      case _ => None
  }

  /** The checks on the payload: what it holds under the three keys, and all its keys. */
  function FromPayload(w: Vocabulary, version: Option<Value>, messageType: Option<Value>, eventId: Option<Value>,
                       keys: set<seq<int>>): Option<QueueEnvelope>
  {
    if version.None? || !EqualsOne(version.value) then None
    else if messageType == Some(Str(w.tick)) then
      if keys != {w.version, w.messageType} then None else Some(TickOf(w))
    else if messageType == Some(Str(w.deliver)) then
      if keys != {w.version, w.messageType, w.eventId} then None
      else if eventId.Some? && eventId.value.Int? && eventId.value.n > 0 then Some(DeliveryOf(w, eventId.value.n))
      else None
    else None
  }

  // ----- facts about the names

  /** All the proofs use of the names: they differ, have these lengths, and need no escapes. */
  ghost predicate Usable(w: Vocabulary) {
    && w.eventId != w.messageType && w.messageType != w.version
    && w.eventId != w.version && w.tick != w.deliver
    && |w.eventId| == 8 && |w.messageType| == 4 && |w.version| == 7 && |w.tick| == 19 && |w.deliver| == 23
    && AllPlain(w.eventId) && AllPlain(w.messageType) && AllPlain(w.version) && AllPlain(w.tick) && AllPlain(w.deliver)
  }

  predicate AllPlain(t: Text) {
    forall i :: 0 <= i < |t| ==> Printable(t[i]) && !ShortEscape(t[i])
  }

  lemma {:induction false} PlainLength(t: Text, rest: string)
    requires AllPlain(t)
    ensures |PrintString(t, rest)| == |t| + 2 + |rest|
  {
    if t == [] {
    } else {
      PlainLength(t[1..], rest);
      assert |Escaped(t[0])| == 1;
    }
  }

  lemma KeysArePlain()
    ensures AllPlain(Codes("event_id")) && AllPlain(Codes("type")) && AllPlain(Codes("version"))
  {
  }

  lemma TypesArePlain()
    ensures AllPlain(Codes("dispatch_due_events")) && AllPlain(Codes("deliver_scheduled_event"))
  {
  }

  lemma WordsAreUsable()
    ensures Usable(WORDS)
  {
    KeysArePlain();
    TypesArePlain();
    assert |WORDS.eventId| == 8 && |WORDS.messageType| == 4 && |WORDS.version| == 7;
    assert |WORDS.tick| == 19 && |WORDS.deliver| == 23;
  }

  lemma TypeLength(w: Vocabulary, e: QueueEnvelope)
    requires Usable(w) && AllPlain(e.messageType) && e.version == 1
    ensures |TypeText(w, e)| == 22 + |e.messageType|
  {
    assert |PrintInt(1)| == 1;
    var version := [':'] + (PrintInt(1) + "}");
    PlainLength(w.version, version);
    PlainLength(e.messageType, [','] + VersionText(w, 1));
    PlainLength(w.messageType, [':'] + PrintString(e.messageType, [','] + VersionText(w, 1)));
  }

  /** A printed tick has 42 characters, a printed delivery 58 and the digits of its id. */
  lemma BodyLength(w: Vocabulary, n: nat)
    requires Usable(w)
    ensures |Printed(w, TickOf(w))| == 42
    ensures |Printed(w, DeliveryOf(w, n))| == 58 + |PrintNat(n)|
  {
    var delivery := DeliveryOf(w, n);
    TypeLength(w, TickOf(w));
    TypeLength(w, delivery);
    PlainLength(w.eventId, [':'] + (PrintInt(n) + ([','] + TypeText(w, delivery))));
  }

  // ----- the printed texts

  function Quoted(text: string): string {
    "\"" + text + "\""
  }

  /** A text without escapes is printed as it is, between quotes. */
  lemma {:induction false} PlainIsQuoted(text: string, rest: string)
    requires AllPlain(Codes(text))
    ensures PrintChars(Codes(text), rest) == text + "\"" + rest
  {
    if text == "" {
    } else {
      assert Codes(text)[1..] == Codes(text[1..]);
      PlainIsQuoted(text[1..], rest);
      assert Escaped(Codes(text)[0]) == [text[0]];
      assert [text[0]] + (text[1..] + "\"" + rest) == text + "\"" + rest;
    }
  }

  lemma PlainPrints(text: string, rest: string)
    requires AllPlain(Codes(text))
    ensures PrintString(Codes(text), rest) == Quoted(text) + rest
  {
    PlainIsQuoted(text, rest);
    assert ['"'] + (text + "\"" + rest) == Quoted(text) + rest;
  }

  /** The members after the event id, for any type. */
  lemma TypeTextIs(messageType: string)
    requires AllPlain(Codes(messageType))
    ensures TypeText(WORDS, QueueEnvelope(Codes(messageType), None, 1))
            == Quoted("type") + (":" + (Quoted(messageType) + ("," + (Quoted("version") + ":1}"))))
  {
    KeysArePlain();
    assert PrintInt(1) == "1";
    var version := Quoted("version") + ":1}";
    PlainPrints("version", ":1}");
    assert [':'] + ("1" + "}") == ":1}";
    assert VersionText(WORDS, 1) == version;
    PlainPrints(messageType, "," + version);
    PlainPrints("type", ":" + (Quoted(messageType) + ("," + version)));
  }

  /** The very text of a tick, and of a delivery of event `n`. */
  lemma PrintedTexts(n: nat)
    ensures ToJson(DispatchTick())
            == "{" + (Quoted("type") + (":" + (Quoted("dispatch_due_events") + ("," + (Quoted("version") + ":1}")))))
    ensures ToJson(DeliveryOf(WORDS, n))
            == "{" + (Quoted("event_id") + (":" + (PrintNat(n) + ("," + (Quoted("type") + (":" +
               (Quoted("deliver_scheduled_event") + ("," + (Quoted("version") + ":1}")))))))))
  {
    KeysArePlain();
    TypesArePlain();
    TypeTextIs("dispatch_due_events");
    TypeTextIs("deliver_scheduled_event");
    var tail := TypeText(WORDS, QueueEnvelope(Codes("deliver_scheduled_event"), None, 1));
    assert TypeText(WORDS, DeliveryOf(WORDS, n)) == tail;
    PlainPrints("event_id", ":" + (PrintNat(n) + ("," + tail)));
  }

  // ----- what is accepted

  /** The object a body holds. */
  ghost predicate HoldsObject(body: string, members: seq<Member>) {
    |body| <= 4096 && Loads(body) == Some(Obj(members))
  }

  /** A body is accepted as a tick exactly when it is an object of at most 4096 characters with the two
      keys, a version equal to one, and the type of a tick. */
  lemma TickAcceptedExactlyWhen(body: string)
    ensures FromJson(body) == Some(DispatchTick()) <==>
              exists members ::
                && HoldsObject(body, members)
                && Keys(members) == {Codes("version"), Codes("type")}
                && Get(members, Codes("type")) == Some(Str(Codes("dispatch_due_events")))
                && Get(members, Codes("version")).Some? && EqualsOne(Get(members, Codes("version")).value)
  {
    WordsAreUsable();
    if Loads(body).Some? && Loads(body).value.Obj? {
      assert Loads(body) == Some(Obj(Loads(body).value.members));
    }
  }

  /** A body is accepted as a delivery of event `n` exactly when it is an object of at most 4096
      characters with the three keys, a version equal to one, the type of a delivery, and the positive
      integer `n` under the key of the event. */
  lemma DeliveryAcceptedExactlyWhen(body: string, n: int)
    ensures FromJson(body) == Some(DeliveryOf(WORDS, n)) <==>
              n > 0 && exists members ::
                && HoldsObject(body, members)
                && Keys(members) == {Codes("version"), Codes("type"), Codes("event_id")}
                && Get(members, Codes("type")) == Some(Str(Codes("deliver_scheduled_event")))
                && Get(members, Codes("event_id")) == Some(Int(n))
                && Get(members, Codes("version")).Some? && EqualsOne(Get(members, Codes("version")).value)
  {
    WordsAreUsable();
    if Loads(body).Some? && Loads(body).value.Obj? {
      assert Loads(body) == Some(Obj(Loads(body).value.members));
    }
  }

  /** Of equal keys the last one counts. */
  lemma {:induction false} LastKeyCounts(members: seq<Member>, m: Member, key: seq<int>)
    ensures Get(members + [m], key) == if key == m.key then Some(m.value) else Get(members, key)
  {
    if members == [] {
      assert ([] + [m])[1..] == [];
    } else {
      LastKeyCounts(members[1..], m, key);
      assert (members + [m])[1..] == members[1..] + [m];
    }
  }

  // ----- printing and parsing

  /** The members a printed envelope is read as. */
  function MembersOf(w: Vocabulary, e: QueueEnvelope): seq<Member> {
    var rest := [Member(w.messageType, Str(Paired(e.messageType)))] + [Member(w.version, Int(e.version))];
    if e.eventId.Some? then [Member(w.eventId, Int(e.eventId.value))] + rest else rest
  }

  lemma VersionIsReadBack(w: Vocabulary, version: int)
    requires Usable(w)
    ensures ParseMembers(VersionText(w, version)) == Some(Json.Parsed([Member(w.version, Int(version))], ""))
  {
    IntValueIsReadBack(version, "}");
    IntStarts(version, "}");
    MemberIsReadBack(w.version, PrintInt(version) + "}", Int(version), "}");
    assert "}" == ['}'] + "";
    MemberIsLast(VersionText(w, version), Member(w.version, Int(version)), "");
  }

  lemma TypeIsReadBack(w: Vocabulary, e: QueueEnvelope)
    requires Usable(w)
    ensures ParseMembers(TypeText(w, e)) == Some(Json.Parsed(MembersOf(w, e.(eventId := None)), ""))
  {
    var tail := VersionText(w, e.version);
    VersionIsReadBack(w, e.version);
    StringValueIsReadBack(e.messageType, [','] + tail);
    MemberIsReadBack(w.messageType, PrintString(e.messageType, [','] + tail), Str(Paired(e.messageType)), [','] + tail);
    MemberIsNotLast(TypeText(w, e), Member(w.messageType, Str(Paired(e.messageType))), tail,
                    [Member(w.version, Int(e.version))], "");
  }

  lemma EventIdIsReadBack(w: Vocabulary, e: QueueEnvelope)
    requires Usable(w) && e.eventId.Some?
    ensures ParseMembers(EventIdText(w, e.eventId.value, TypeText(w, e))) == Some(Json.Parsed(MembersOf(w, e), ""))
  {
    var tail, n := TypeText(w, e), e.eventId.value;
    TypeIsReadBack(w, e);
    IntValueIsReadBack(n, [','] + tail);
    IntStarts(n, [','] + tail);
    MemberIsReadBack(w.eventId, PrintInt(n) + ([','] + tail), Int(n), [','] + tail);
    MemberIsNotLast(EventIdText(w, n, tail), Member(w.eventId, Int(n)), tail, MembersOf(w, e.(eventId := None)), "");
  }

  lemma ObjectIsReadBack(text: string, members: seq<Member>)
    requires text != [] && text[0] == '"'
    requires ParseMembers(text) == Some(Json.Parsed(members, ""))
    ensures Loads("{" + text) == Some(Obj(members))
  {
    var s := "{" + text;
    assert s[1..] == text;
    assert SkipSpace(text) == text && SkipSpace(s) == s;
    assert ParseValue(s) == Some(Json.Parsed(Obj(members), ""));
  }

  lemma PrintedIsLoaded(w: Vocabulary, e: QueueEnvelope)
    requires Usable(w)
    ensures Loads(Printed(w, e)) == Some(Obj(MembersOf(w, e)))
  {
    TypeIsReadBack(w, e);
    if e.eventId.Some? {
      EventIdIsReadBack(w, e);
      ObjectIsReadBack(EventIdText(w, e.eventId.value, TypeText(w, e)), MembersOf(w, e));
    } else {
      assert e.(eventId := None) == e;
      ObjectIsReadBack(TypeText(w, e), MembersOf(w, e));
    }
  }

  /** Looking a key up in members with different keys. */
  lemma GetAmong(first: Member, rest: seq<Member>, key: seq<int>)
    requires first.key !in Keys(rest)
    ensures Get([first] + rest, key) == if key == first.key then Some(first.value) else Get(rest, key)
    ensures Keys([first] + rest) == {first.key} + Keys(rest)
  {
    var all := [first] + rest;
    assert all[1..] == rest;
    KeysAreThere(rest, first.key);
    forall k ensures k in Keys(all) <==> k in {first.key} + Keys(rest) {
      KeysAreThere(all, k);
      KeysAreThere(rest, k);
    }
  }

  lemma GetInTwo(w: Vocabulary, e: QueueEnvelope, key: seq<int>)
    requires Usable(w)
    ensures var m := MembersOf(w, e.(eventId := None));
            && Get(m, key) == (if key == w.messageType then Some(Str(Paired(e.messageType)))
                               else if key == w.version then Some(Int(e.version)) else None)
            && Keys(m) == {w.version, w.messageType}
  {
    var last := Member(w.version, Int(e.version));
    assert [last] + [] == [last];
    GetAmong(last, [], key);
    GetAmong(Member(w.messageType, Str(Paired(e.messageType))), [last], key);
  }

  lemma GetInMembers(w: Vocabulary, e: QueueEnvelope)
    requires Usable(w)
    ensures var m := MembersOf(w, e);
            && Get(m, w.version) == Some(Int(e.version))
            && Get(m, w.messageType) == Some(Str(Paired(e.messageType)))
            && (e.eventId.Some? ==> Get(m, w.eventId) == Some(Int(e.eventId.value)))
            && Keys(m) == {w.version, w.messageType} + (if e.eventId.Some? then {w.eventId} else {})
  {
    var rest := MembersOf(w, e.(eventId := None));
    GetInTwo(w, e, w.version);
    GetInTwo(w, e, w.messageType);
    if e.eventId.Some? {
      var first := Member(w.eventId, Int(e.eventId.value));
      GetAmong(first, rest, w.version);
      GetAmong(first, rest, w.messageType);
      GetAmong(first, rest, w.eventId);
    }
  }

  /** The envelopes the constructors make, when they fit in a message. */
  predicate Sendable(w: Vocabulary, e: QueueEnvelope) {
    || e == TickOf(w)
    || (e.eventId.Some? && e == DeliveryOf(w, e.eventId.value)
        && e.eventId.value > 0 && 58 + |PrintInt(e.eventId.value)| <= MAX_BODY)
  }

  lemma PayloadOf(w: Vocabulary, e: QueueEnvelope, keys: set<seq<int>>, eventId: Option<Value>)
    requires Usable(w)
    requires keys == {w.version, w.messageType} + (if e.eventId.Some? then {w.eventId} else {})
    requires e.eventId.Some? ==> eventId == Some(Int(e.eventId.value))
    ensures FromPayload(w, Some(Int(e.version)), Some(Str(Paired(e.messageType))), eventId, keys)
            == if e == TickOf(w) || (e.eventId.Some? && e == DeliveryOf(w, e.eventId.value) && e.eventId.value > 0)
               then Some(e) else None
  {
    PairedIsItself(w.tick);
    PairedIsItself(w.deliver);
    if Paired(e.messageType) == w.tick {
      OnlyItselfIsPaired(e.messageType, w.tick);
    }
    if Paired(e.messageType) == w.deliver {
      OnlyItselfIsPaired(e.messageType, w.deliver);
    }
    assert w.eventId !in {w.version, w.messageType};
  }

  lemma PrintedThenParsed(w: Vocabulary, e: QueueEnvelope)
    requires Usable(w)
    ensures Parsed(w, Printed(w, e)) == if Sendable(w, e) then Some(e) else None
  {
    var m := MembersOf(w, e);
    PrintedIsLoaded(w, e);
    GetInMembers(w, e);
    PayloadOf(w, e, Keys(m), Get(m, w.eventId));
    BodyLength(w, if e.eventId.Some? && e.eventId.value > 0 then e.eventId.value else 0);
  }

  /** A printed envelope is parsed to itself exactly when it is the tick, or a delivery of a
      positive event id whose body fits; every other one is malformed. */
  lemma PrintThenParse(e: QueueEnvelope)
    ensures FromJson(ToJson(e)) == if Sendable(WORDS, e) then Some(e) else None
  {
    WordsAreUsable();
    PrintedThenParsed(WORDS, e);
  }

  // ----- any accepted body

  /** An object takes the room of its braces and members. */
  lemma ObjectSize(body: string, members: seq<Member>)
    requires Loads(body) == Some(Obj(members)) && members != []
    ensures 1 + MembersSize(members) <= |body|
  {
    var start := SkipSpace(body);
    MembersTextSize(SkipSpace(start[1..]));
  }

  /** An accepted delivery needs the characters of its printed form. */
  lemma AcceptedIsLongEnough(w: Vocabulary, body: string)
    requires Usable(w) && Parsed(w, body).Some? && Parsed(w, body).value != TickOf(w)
    ensures var e := Parsed(w, body).value;
            && e.eventId.Some? && e == DeliveryOf(w, e.eventId.value) && e.eventId.value > 0
            && 58 + |PrintInt(e.eventId.value)| <= |body|
  {
    var members := Loads(body).value.members;
    ObjectSize(body, members);
    KeysTakeRoom(members, w.eventId, w.messageType, w.version);
    assert |w.eventId| == 8 && |w.messageType| == 4 && |w.version| == 7 && |w.deliver| == 23;
  }

  lemma ParsedIsSendable(w: Vocabulary, body: string)
    requires Usable(w) && Parsed(w, body).Some?
    ensures Sendable(w, Parsed(w, body).value)
    ensures Parsed(w, Printed(w, Parsed(w, body).value)) == Parsed(w, body)
  {
    var e := Parsed(w, body).value;
    if e != TickOf(w) {
      AcceptedIsLongEnough(w, body);
    }
    PrintedThenParsed(w, e);
  }

  /** Whatever body is accepted, with any white space, escapes, order of keys, duplicate keys
      or spelling of the version: printing the envelope again gives a body that parses to the
      same envelope. */
  lemma ReprintIsStable(body: string)
    requires FromJson(body).Some?
    ensures Sendable(WORDS, FromJson(body).value)
    ensures FromJson(ToJson(FromJson(body).value)) == FromJson(body)
  {
    WordsAreUsable();
    ParsedIsSendable(WORDS, body);
  }

  // ----- spellings of the version

  /** A tick whose version is spelled as `text`. */
  function TickBody(w: Vocabulary, text: string): string {
    "{" + PrintString(w.messageType, [':'] + PrintString(w.tick, [','] + VersionTail(w, text)))
  }

  lemma TickBodyLength(w: Vocabulary, text: string)
    requires Usable(w)
    ensures |TickBody(w, text)| == 41 + |text|
  {
    PlainLength(w.version, [':'] + (text + "}"));
    PlainLength(w.tick, [','] + VersionTail(w, text));
    PlainLength(w.messageType, [':'] + PrintString(w.tick, [','] + VersionTail(w, text)));
  }

  /** The last member of such a tick. */
  function VersionTail(w: Vocabulary, text: string): string {
    PrintString(w.version, [':'] + (text + "}"))
  }

  lemma VersionTailIsRead(w: Vocabulary, text: string, value: Value)
    requires Usable(w) && text != [] && !Space(text[0])
    requires ParseValue(text + "}") == Some(Json.Parsed(value, "}"))
    ensures ParseMembers(VersionTail(w, text)) == Some(Json.Parsed([Member(w.version, value)], ""))
  {
    MemberIsReadBack(w.version, text + "}", value, "}");
    assert "}" == ['}'] + "";
    MemberIsLast(VersionTail(w, text), Member(w.version, value), "");
  }

  lemma TickBodyIsLoaded(w: Vocabulary, text: string, value: Value)
    requires Usable(w) && text != [] && !Space(text[0])
    requires ParseValue(text + "}") == Some(Json.Parsed(value, "}"))
    ensures Loads(TickBody(w, text))
            == Some(Obj([Member(w.messageType, Str(w.tick))] + [Member(w.version, value)]))
  {
    var tail := VersionTail(w, text);
    VersionTailIsRead(w, text, value);
    StringValueIsReadBack(w.tick, [','] + tail);
    PairedIsItself(w.tick);
    MemberIsReadBack(w.messageType, PrintString(w.tick, [','] + tail), Str(w.tick), [','] + tail);
    var members := PrintString(w.messageType, [':'] + PrintString(w.tick, [','] + tail));
    MemberIsNotLast(members, Member(w.messageType, Str(w.tick)), tail, [Member(w.version, value)], "");
    ObjectIsReadBack(members, [Member(w.messageType, Str(w.tick))] + [Member(w.version, value)]);
  }

  lemma TickMembers(w: Vocabulary, value: Value)
    requires Usable(w)
    ensures var m := [Member(w.messageType, Str(w.tick))] + [Member(w.version, value)];
            && Get(m, w.version) == Some(value) && Get(m, w.messageType) == Some(Str(w.tick))
            && Keys(m) == {w.version, w.messageType}
  {
    var last := Member(w.version, value);
    assert [last] + [] == [last];
    GetAmong(last, [], w.version);
    GetAmong(last, [], w.messageType);
    GetAmong(Member(w.messageType, Str(w.tick)), [last], w.version);
    GetAmong(Member(w.messageType, Str(w.tick)), [last], w.messageType);
  }

  lemma TickIsParsed(w: Vocabulary, text: string, value: Value)
    requires Usable(w) && |text| <= 4000
    requires Loads(TickBody(w, text))
             == Some(Obj([Member(w.messageType, Str(w.tick))] + [Member(w.version, value)]))
    ensures Parsed(w, TickBody(w, text)) == if EqualsOne(value) then Some(TickOf(w)) else None
  {
    TickBodyLength(w, text);
    TickMembers(w, value);
  }

  /** A tick is accepted exactly when its version, however it is spelled, equals one in Python. */
  lemma VersionIsAnyOne(text: string, value: Value)
    requires text != [] && !Space(text[0]) && |text| <= 4000 && ParseValue(text + "}") == Some(Json.Parsed(value, "}"))
    ensures FromJson(TickBody(WORDS, text)) == if EqualsOne(value) then Some(DispatchTick()) else None
  {
    WordsAreUsable();
    TickBodyIsLoaded(WORDS, text, value);
    TickIsParsed(WORDS, text, value);
  }

  /** Three spellings that are accepted, and one that is not. */
  lemma AcceptedSpellings()
    ensures FromJson(TickBody(WORDS, "1")) == FromJson(TickBody(WORDS, "true")) == FromJson(TickBody(WORDS, "1.0"))
            == Some(DispatchTick())
    ensures FromJson(TickBody(WORDS, "false")) == None
  {
    TrueIsRead();
    OnePointZeroIsRead();
    IntValueIsReadBack(1, "}");
    assert PrintInt(1) == "1";
    VersionIsAnyOne("1", Int(1));
    VersionIsAnyOne("true", Bool(true));
    VersionIsAnyOne("1.0", Float(1.0));
    VersionIsAnyOne("false", Bool(false));
  }

  lemma TrueIsRead()
    ensures ParseValue("true}") == Some(Json.Parsed(Bool(true), "}")) && "true" + "}" == "true}"
    ensures ParseValue("false}") == Some(Json.Parsed(Bool(false), "}")) && "false" + "}" == "false}"
  {
  }

  lemma OneDecimalIsRead(s: string)
    requires s == ['1', '.', '0', '}']
    ensures ParseNumber(s) == Some(Json.Parsed(Float(1.0), "}"))
  {
    var fraction := s[1..];
    assert Digits(fraction) == 0 && s[0] == '1' && s[..1] == ['1'];
    assert WholeLength(s) == 1;
    assert fraction == ['.', '0', '}'] && fraction[1..] == ['0', '}'] && fraction[1..][1..] == ['}'];
    assert Digits(['}']) == 0;
    assert Digits(fraction[1..]) == 1;
    assert FractionLength(fraction) == 2 && FractionDigits(fraction) == ['0'];
    assert fraction[2..] == ['}'] && ExponentLength(['}']) == 0 && fraction[2..][0..] == "}";
    assert Decimal(['1'] + ['0']) == 10 by {
      assert (['1'] + ['0'])[..1] == ['1'] && ['1'][..0] == [];
    }
    assert TenTo(1) == 10.0;
    assert FloatValue(['1'], ['0'], 0) == 1.0;
  }

  lemma OnePointZeroIsRead()
    ensures ParseValue("1.0}") == Some(Json.Parsed(Float(1.0), "}")) && "1.0" + "}" == "1.0}"
  {
    NoWord("1.0}");
    NumberIsValue("1.0}");
    OneDecimalIsRead("1.0}");
  }
}
