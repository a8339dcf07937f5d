/** `json.loads` and the part of `json.dumps` a queue envelope needs.

    The grammar is section 2 to 7 of RFC 8259 as the library reads it: besides RFC 8259 it
    takes `NaN`, `Infinity` and `-Infinity`, and lone surrogates in escapes. Texts are
    sequences of Unicode scalar values; a decoded string is a sequence of code points. */
module Json {
  import opened Records

  datatype Value =
    | Null
    | Bool(b: bool)
    | Int(n: int)
    | Float(decimal: real) // the number as written, before rounding
    | NotFinite
    | Str(codes: seq<int>)
    | Arr(items: seq<Value>)
    | Obj(members: seq<Member>)

  datatype Member = Member(key: seq<int>, value: Value)

  /** What a parser made of the front of a text, and the text after it. */
  datatype Parsed<T> = Parsed(value: T, rest: string)

  // ----- characters

  predicate Space(c: char) {
    c == ' ' || c == '\t' || c == '\n' || c == '\r'
  }

  predicate Digit(c: char) {
    '0' <= c <= '9'
  }

  function SkipSpace(s: string): (r: string)
    ensures |r| <= |s|
    ensures r == [] || !Space(r[0])
  {
    if s != [] && Space(s[0]) then SkipSpace(s[1..]) else s
  }

  /** The number of digits at the front. */
  function Digits(s: string): (n: nat)
    ensures n <= |s| && (forall i :: 0 <= i < n ==> Digit(s[i])) && (n < |s| ==> !Digit(s[n]))
  {
    if s == [] || !Digit(s[0]) then 0 else 1 + Digits(s[1..])
  }

  function DigitValue(c: char): nat
    requires Digit(c)
  {
    c as int - '0' as int
  }

  function Decimal(s: string): nat
    requires forall i :: 0 <= i < |s| ==> Digit(s[i])
  {
    if s == [] then 0 else Decimal(s[..|s| - 1]) * 10 + DigitValue(s[|s| - 1])
  }

  function HexValue(c: char): Option<nat> {
    if '0' <= c <= '9' then Some(c as int - '0' as int)
    else if 'a' <= c <= 'f' then Some(10 + c as int - 'a' as int)
    else if 'A' <= c <= 'F' then Some(10 + c as int - 'A' as int)
    else None
  }

  /** The four hexadecimal digits at the front. */
  function Hex4(s: string): Option<nat> {
    if |s| < 4 then None
    else
      match (HexValue(s[0]), HexValue(s[1]), HexValue(s[2]), HexValue(s[3]))
      case (Some(a), Some(b), Some(c), Some(d)) => Some(a * 4096 + b * 256 + c * 16 + d)
      case _ => None
  }

  // ----- strings

  predicate HighSurrogate(n: int) {
    0xD800 <= n <= 0xDBFF
  }

  predicate LowSurrogate(n: int) {
    0xDC00 <= n <= 0xDFFF
  }

  function Joined(high: int, low: int): int {
    0x10000 + (high - 0xD800) * 0x400 + (low - 0xDC00)
  }

  function SimpleEscape(c: char): Option<int> {
    match c
    case '"' => Some(0x22)
    case '\\' => Some(0x5C)
    case '/' => Some(0x2F)
    case 'b' => Some(8)
    case 'f' => Some(12)
    case 'n' => Some(10)
    case 'r' => Some(13)
    case 't' => Some(9)
    case _ => None
  }

  /** A `\u` escape, after the `\u`: two of them join when they are a surrogate pair. */
  function UnicodeEscape(s: string): (r: Option<Parsed<int>>)
    ensures r.Some? ==> |r.value.rest| < |s|
  {
    match Hex4(s)
    case None => None
    case Some(high) =>
      var t := s[4..];
      if HighSurrogate(high) && "\\u" <= t then
        match Hex4(t[2..])
        case None => None
        case Some(low) =>
          if LowSurrogate(low) then Some(Parsed(Joined(high, low), t[6..])) else Some(Parsed(high, t))
      else Some(Parsed(high, t))
  }

  /** One character of a string, escaped or not. */
  function OneChar(s: string): (r: Option<Parsed<int>>)
    requires s != []
    ensures r.Some? ==> |r.value.rest| < |s|
  {
    if s[0] == '\\' then
      if |s| == 1 then None
      else if s[1] == 'u' then UnicodeEscape(s[2..])
      else
        var code := SimpleEscape(s[1]);
        if code.None? then None else Some(Parsed(code.value, s[2..]))
    else if s[0] < ' ' then None
    else Some(Parsed(s[0] as int, s[1..]))
  }

  /** A string after its opening quote. */
  function ParseString(s: string): (r: Option<Parsed<seq<int>>>)
    ensures r.Some? ==> |r.value.rest| + |r.value.value| < |s|
    decreases |s|
  {
    if s == [] then None
    else if s[0] == '"' then Some(Parsed([], s[1..]))
    else
      match OneChar(s)
      case None => None
      case Some(Parsed(code, rest)) =>
        match ParseString(rest)
        case None => None
        case Some(Parsed(codes, after)) => Some(Parsed([code] + codes, after))
  }

  // ----- numbers

  function TenTo(n: nat): (r: real)
    ensures r > 0.0
  {
    if n == 0 then 1.0 else 10.0 * TenTo(n - 1)
  }

  /** The number with these digits and this power of ten. */
  function Scaled(digits: nat, exponent: int): real {
    if exponent >= 0 then (digits as real) * TenTo(exponent) else (digits as real) / TenTo(-exponent)
  }

  /** The digits of a fraction at the front: how many characters with the point, or none. */
  function FractionLength(s: string): (n: nat)
    ensures n <= |s| && n != 1
  {
    if s != [] && s[0] == '.' && Digits(s[1..]) > 0 then 1 + Digits(s[1..]) else 0
  }

  function SignLength(s: string): (n: nat)
    ensures n <= |s| && n <= 1
  {
    if s != [] && (s[0] == '-' || s[0] == '+') then 1 else 0
  }

  function ExponentLength(s: string): (n: nat)
    ensures n <= |s| && n != 1
  {
    if s != [] && (s[0] == 'e' || s[0] == 'E') && Digits(s[1 + SignLength(s[1..])..]) > 0 then
      1 + SignLength(s[1..]) + Digits(s[1 + SignLength(s[1..])..])
    else 0
  }

  function ExponentOf(s: string): int {
    if ExponentLength(s) == 0 then 0
    else
      var signed := SignLength(s[1..]);
      var t := s[1 + signed..];
      var n: int := Decimal(t[..Digits(t)]);
      if signed == 1 && s[1] == '-' then -n else n
  }

  function Signed(negative: bool, n: int): int {
    if negative then -n else n
  }

  /** The digits of the whole part: a leading zero stands alone. */
  function WholeLength(s: string): (n: nat)
    ensures n <= |s| && forall i :: 0 <= i < n ==> Digit(s[i])
  {
    if s != [] && s[0] == '0' then 1 else Digits(s)
  }

  function ParseNumber(s: string): (r: Option<Parsed<Value>>)
    ensures r.Some? ==> |r.value.rest| < |s|
  {
    var negative := s != [] && s[0] == '-';
    var t := if negative then s[1..] else s;
    var whole := WholeLength(t);
    if whole == 0 then None else Some(NumberAfter(negative, t[..whole], t[whole..]))
  }

  /** The rest of a number after its whole part: with a fraction or an exponent it is a
      float. */
  function NumberAfter(negative: bool, whole: string, s: string): (r: Parsed<Value>)
    requires forall i :: 0 <= i < |whole| ==> Digit(whole[i])
    ensures |r.rest| <= |s|
  {
    var u := s[FractionLength(s)..];
    if FractionLength(s) == 0 && ExponentLength(u) == 0 then Parsed(Int(Signed(negative, Decimal(whole))), s)
    else
      var value := FloatValue(whole, FractionDigits(s), ExponentOf(u));
      Parsed(Float(if negative then -value else value), u[ExponentLength(u)..])
  }

  function FractionDigits(s: string): (r: string)
    ensures forall i :: 0 <= i < |r| ==> Digit(r[i])
  {
    if FractionLength(s) == 0 then [] else s[1..1 + Digits(s[1..])]
  }

  function FloatValue(whole: string, fraction: string, exponent: int): real
    requires forall i :: 0 <= i < |whole| ==> Digit(whole[i])
    requires forall i :: 0 <= i < |fraction| ==> Digit(fraction[i])
  {
    Scaled(Decimal(whole + fraction), exponent - |fraction|)
  }

  // ----- values

  const NULL := "null"
  const TRUE := "true"
  const FALSE := "false"
  const NAN := "NaN"
  const INFINITY := "Infinity"
  const MINUS_INFINITY := "-Infinity"

  function ParseWord(s: string): (r: Option<Parsed<Value>>)
    ensures r.Some? ==> |r.value.rest| < |s|
  {
    if NULL <= s then Some(Parsed(Null, s[4..]))
    else if TRUE <= s then Some(Parsed(Bool(true), s[4..]))
    else if FALSE <= s then Some(Parsed(Bool(false), s[5..]))
    else if NAN <= s then Some(Parsed(NotFinite, s[3..]))
    else if INFINITY <= s then Some(Parsed(NotFinite, s[8..]))
    else if MINUS_INFINITY <= s then Some(Parsed(NotFinite, s[9..]))
    else None
  }

  function ParseValue(s: string): (r: Option<Parsed<Value>>)
    ensures r.Some? ==> |r.value.rest| < |s|
    decreases |s|, 1
  {
    if s == [] then None
    else if s[0] == '"' then
      match ParseString(s[1..])
      case None => None
      case Some(Parsed(codes, rest)) => Some(Parsed(Str(codes), rest))
    else if s[0] == '{' then
      var t := SkipSpace(s[1..]);
      if t != [] && t[0] == '}' then Some(Parsed(Obj([]), t[1..]))
      else
        match ParseMembers(t)
        case None => None
        case Some(Parsed(members, rest)) => Some(Parsed(Obj(members), rest))
    else if s[0] == '[' then
      var t := SkipSpace(s[1..]);
      if t != [] && t[0] == ']' then Some(Parsed(Arr([]), t[1..]))
      else
        match ParseItems(t)
        case None => None
        case Some(Parsed(items, rest)) => Some(Parsed(Arr(items), rest))
    else
      var word := ParseWord(s);
      if word.Some? then word else ParseNumber(s)
  }

  /** A key, a colon and a value. */
  function ParseMember(s: string): (r: Option<Parsed<Member>>)
    ensures r.Some? ==> |r.value.rest| < |s|
    decreases |s|, 3
  {
    if s == [] || s[0] != '"' then None
    else
      match ParseString(s[1..])
      case None => None
      case Some(Parsed(key, rest)) => ParseAfterKey(key, rest)
  }

  function ParseAfterKey(key: seq<int>, s: string): (r: Option<Parsed<Member>>)
    ensures r.Some? ==> |r.value.rest| < |s|
    decreases |s|, 2
  {
    var t := SkipSpace(s);
    if t == [] || t[0] != ':' then None
    else
      match ParseValue(SkipSpace(t[1..]))
      case None => None
      case Some(Parsed(value, rest)) => Some(Parsed(Member(key, value), rest))
  }

  /** The members of an object, from a key to the closing brace. */
  function ParseMembers(s: string): (r: Option<Parsed<seq<Member>>>)
    ensures r.Some? ==> |r.value.rest| < |s|
    decreases |s|, 4
  {
    match ParseMember(s)
    case None => None
    case Some(Parsed(member, rest)) =>
      var t := SkipSpace(rest);
      if t == [] then None
      else if t[0] == '}' then Some(Parsed([member], t[1..]))
      else if t[0] != ',' then None
      else
        match ParseMembers(SkipSpace(t[1..]))
        case None => None
        case Some(Parsed(members, after)) => Some(Parsed([member] + members, after))
  }

  /** The items of an array, from a value to the closing bracket. */
  function ParseItems(s: string): (r: Option<Parsed<seq<Value>>>)
    ensures r.Some? ==> |r.value.rest| < |s|
    decreases |s|, 4
  {
    match ParseValue(s)
    case None => None
    case Some(Parsed(item, rest)) =>
      var t := SkipSpace(rest);
      if t == [] then None
      else if t[0] == ']' then Some(Parsed([item], t[1..]))
      else if t[0] != ',' then None
      else
        match ParseItems(SkipSpace(t[1..]))
        case None => None
        case Some(Parsed(items, after)) => Some(Parsed([item] + items, after))
  }

  /** `json.loads`, with `None` for every `ValueError`. */
  function Loads(s: string): Option<Value> {
    match ParseValue(SkipSpace(s))
    case None => None
    case Some(Parsed(value, rest)) => if SkipSpace(rest) == [] then Some(value) else None
  }

  /** `dict.get`: of equal keys the last one counts. */
  function Get(members: seq<Member>, key: seq<int>): Option<Value> {
    if members == [] then None
    else
      var later := Get(members[1..], key);
      if later.Some? then later
      else if members[0].key == key then Some(members[0].value)
      else None
  }

  function Keys(members: seq<Member>): set<seq<int>> {
    set m | m in members :: m.key
  }

  // ----- printing

  function HexDigit(n: nat): char
    requires n < 16
  {
    if n < 10 then '0' + n as char else 'a' + (n - 10) as char
  }

  function PrintHex4(n: nat): string
    requires n < 0x10000
  {
    [HexDigit(n / 16 / 16 / 16), HexDigit(n / 16 / 16 % 16), HexDigit(n / 16 % 16), HexDigit(n % 16)]
  }

  /** A Python text: any code points, lone surrogates among them. */
  type Text = t: seq<int> | forall i :: 0 <= i < |t| ==> 0 <= t[i] < 0x110000

  function Codes(t: string): Text {
    seq(|t|, i requires 0 <= i < |t| => t[i] as int)
  }

  /** One code point as `json.dumps` prints it: in ASCII. */
  function Escaped(n: int): (r: string)
    requires 0 <= n < 0x110000
    ensures r != []
  {
    if n == 0x22 then "\\\""
    else if n == 0x5C then "\\\\"
    else if n == 10 then "\\n"
    else if n == 13 then "\\r"
    else if n == 9 then "\\t"
    else if n == 12 then "\\f"
    else if n == 8 then "\\b"
    else if 0x20 <= n <= 0x7E then [n as char]
    else if n < 0x10000 then "\\u" + PrintHex4(n)
    else PrintPair(n)
  }

  /** A code point above the first plane, as a surrogate pair. */
  function PrintPair(n: int): (r: string)
    requires 0x10000 <= n < 0x110000
    ensures |r| >= 2 && r[0] == '\\' && r[1] == 'u'
  {
    "\\u" + PrintHex4(0xD800 + (n - 0x10000) / 0x400) + "\\u" + PrintHex4(0xDC00 + (n - 0x10000) % 0x400)
  }

  /** A string from its first character on, its closing quote, and the text after it. */
  function PrintChars(t: Text, rest: string): string {
    if t == [] then ['"'] + rest else Escaped(t[0]) + PrintChars(t[1..], rest)
  }

  /** A string between quotes, and the text after it. */
  function PrintString(t: Text, rest: string): (r: string)
    ensures r != [] && r[0] == '"'
  {
    ['"'] + PrintChars(t, rest)
  }

  function PrintNat(n: nat): (r: string)
    ensures r != [] && (forall i :: 0 <= i < |r| ==> Digit(r[i]))
    ensures |r| > 1 ==> r[0] != '0'
    ensures n > 0 ==> r[0] != '0'
  {
    if n < 10 then ['0' + n as char] else PrintNat(n / 10) + ['0' + (n % 10) as char]
  }

  function PrintInt(n: int): string {
    if n < 0 then "-" + PrintNat(-n) else PrintNat(n)
  }

  /** What a reader makes of a printed text: adjacent surrogates join to one code point. */
  function Paired(t: Text): seq<int> {
    if |t| >= 2 && HighSurrogate(t[0]) && LowSurrogate(t[1]) then [Joined(t[0], t[1])] + Paired(t[2..])
    else if t == [] then []
    else [t[0]] + Paired(t[1..])
  }

  // ----- what is printed is read back

  lemma HexIsReadBack(n: nat)
    requires n < 16
    ensures HexValue(HexDigit(n)) == Some(n)
  {
  }

  lemma Hex4IsReadBack(n: nat, rest: string)
    requires n < 0x10000
    ensures Hex4(PrintHex4(n) + rest) == Some(n) && (PrintHex4(n) + rest)[4..] == rest
  {
    var q := n / 16;
    var p := q / 16;
    HexIsReadBack(p / 16);
    HexIsReadBack(p % 16);
    HexIsReadBack(q % 16);
    HexIsReadBack(n % 16);
    assert n == q * 16 + n % 16 && q == p * 16 + q % 16 && p == p / 16 * 16 + p % 16;
  }

  /** A surrogate pair. */
  lemma PairIsReadBack(high: nat, low: nat, rest: string)
    requires HighSurrogate(high) && LowSurrogate(low)
    ensures UnicodeEscape(PrintHex4(high) + "\\u" + PrintHex4(low) + rest) == Some(Parsed(Joined(high, low), rest))
  {
    var second := "\\u" + PrintHex4(low) + rest;
    Hex4IsReadBack(high, second);
    Hex4IsReadBack(low, rest);
    assert PrintHex4(high) + "\\u" + PrintHex4(low) + rest == PrintHex4(high) + second;
    assert second[2..] == PrintHex4(low) + rest;
    assert second[6..] == rest;
  }

  predicate ShortEscape(n: int) {
    n == 0x22 || n == 0x5C || n == 10 || n == 13 || n == 9 || n == 12 || n == 8
  }

  predicate Printable(n: int) {
    0x20 <= n <= 0x7E
  }

  lemma ShortEscapeIsReadBack(n: int)
    requires 0 <= n < 0x110000 && ShortEscape(n)
    ensures |Escaped(n)| == 2 && Escaped(n)[0] == '\\' && Escaped(n)[1] != 'u'
    ensures SimpleEscape(Escaped(n)[1]) == Some(n)
  {
  }

  /** The text does not begin with the escape of a low surrogate, nor with a broken escape. */
  predicate Apart(rest: string) {
    "\\u" <= rest ==> Hex4(rest[2..]).Some? && !LowSurrogate(Hex4(rest[2..]).value)
  }

  /** An escape of one code point is read back, unless it is joined with what follows. */
  lemma BasicEscapeIsReadBack(n: int, rest: string)
    requires 0 <= n < 0x10000 && (HighSurrogate(n) ==> Apart(rest))
    ensures UnicodeEscape(PrintHex4(n) + rest) == Some(Parsed(n, rest))
  {
    Hex4IsReadBack(n, rest);
  }

  /** A code point outside printable ASCII and within the first plane. */
  lemma BasicCodeIsReadBack(n: int, rest: string)
    requires 0 <= n < 0x10000 && !ShortEscape(n) && !Printable(n) && (HighSurrogate(n) ==> Apart(rest))
    ensures |Escaped(n)| >= 2 && Escaped(n)[0] == '\\' && Escaped(n)[1] == 'u'
    ensures UnicodeEscape((Escaped(n) + rest)[2..]) == Some(Parsed(n, rest))
  {
    assert Escaped(n) == "\\u" + PrintHex4(n);
    assert (Escaped(n) + rest)[2..] == PrintHex4(n) + rest;
    BasicEscapeIsReadBack(n, rest);
  }

  lemma PairOf(n: int)
    requires 0x10000 <= n < 0x110000
    ensures var v := n - 0x10000;
            var high, low := 0xD800 + v / 0x400, 0xDC00 + v % 0x400;
            HighSurrogate(high) && LowSurrogate(low) && Joined(high, low) == n
  {
  }

  lemma PrintedPairIsReadBack(n: int, rest: string)
    requires 0x10000 <= n < 0x110000
    ensures UnicodeEscape((PrintPair(n) + rest)[2..]) == Some(Parsed(n, rest))
  {
    var high, low := 0xD800 + (n - 0x10000) / 0x400, 0xDC00 + (n - 0x10000) % 0x400;
    PairOf(n);
    PairIsReadBack(high, low, rest);
    assert (PrintPair(n) + rest)[2..] == PrintHex4(high) + "\\u" + PrintHex4(low) + rest;
  }

  /** Every code point is read back, unless it is a high surrogate that what follows joins. */
  lemma CodeIsReadBack(n: int, rest: string)
    requires 0 <= n < 0x110000 && (HighSurrogate(n) ==> Apart(rest))
    ensures Escaped(n)[0] != '"'
    ensures OneChar(Escaped(n) + rest) == Some(Parsed(n, rest))
  {
    if ShortEscape(n) {
      ShortEscapeIsReadBack(n);
      assert (Escaped(n) + rest)[2..] == rest;
    } else if Printable(n) {
      assert Escaped(n) == [n as char];
      assert (Escaped(n) + rest)[1..] == rest;
    } else if n < 0x10000 {
      BasicCodeIsReadBack(n, rest);
    } else {
      assert Escaped(n) == PrintPair(n);
      PrintedPairIsReadBack(n, rest);
    }
  }

  /** Two adjacent surrogates are read as one code point. */
  lemma SurrogatesAreJoined(high: int, low: int, rest: string)
    requires HighSurrogate(high) && LowSurrogate(low)
    ensures var s := Escaped(high) + (Escaped(low) + rest);
            s[0] != '"' && OneChar(s) == Some(Parsed(Joined(high, low), rest))
  {
    var s := Escaped(high) + (Escaped(low) + rest);
    assert Escaped(high) == "\\u" + PrintHex4(high) && Escaped(low) == "\\u" + PrintHex4(low);
    assert s[2..] == PrintHex4(high) + "\\u" + PrintHex4(low) + rest;
    PairIsReadBack(high, low, rest);
  }

  lemma HexBeginning(n: int, rest: string)
    requires 0 <= n < 0x10000 && !LowSurrogate(n)
    ensures Apart("\\u" + PrintHex4(n) + rest)
  {
    var s := "\\u" + PrintHex4(n) + rest;
    assert s[2..] == PrintHex4(n) + rest;
    Hex4IsReadBack(n, rest);
  }

  lemma NotUnicodeEscape(s: string)
    requires |s| >= 1 && (s[0] != '\\' || (|s| >= 2 && s[1] != 'u'))
    ensures Apart(s)
  {
    var escape := "\\u";
    assert escape[0] == '\\' && escape[1] == 'u';
  }

  /** What is printed after a high surrogate does not join it, unless a low one comes next. */
  lemma PrintIsApart(t: Text, rest: string)
    requires t == [] || !LowSurrogate(t[0])
    ensures Apart(PrintChars(t, rest))
  {
    var s := PrintChars(t, rest);
    if t == [] {
      NotUnicodeEscape(s);
    } else if ShortEscape(t[0]) {
      ShortEscapeIsReadBack(t[0]);
      NotUnicodeEscape(s);
    } else if Printable(t[0]) {
      NotUnicodeEscape(s);
    } else {
      LongIsApart(t[0], PrintChars(t[1..], rest));
    }
  }

  lemma LongIsApart(n: int, rest: string)
    requires 0 <= n < 0x110000 && !ShortEscape(n) && !Printable(n) && !LowSurrogate(n)
    ensures Apart(Escaped(n) + rest)
  {
    if n < 0x10000 {
      HexBeginning(n, rest);
    } else {
      var high, low := 0xD800 + (n - 0x10000) / 0x400, 0xDC00 + (n - 0x10000) % 0x400;
      PairOf(n);
      HexBeginning(high, "\\u" + PrintHex4(low) + rest);
      assert Escaped(n) + rest == "\\u" + PrintHex4(high) + ("\\u" + PrintHex4(low) + rest);
    }
  }

  lemma OneCharMore(s: string, code: int, after: string, codes: seq<int>, rest: string)
    requires s != [] && s[0] != '"' && OneChar(s) == Some(Parsed(code, after))
    requires ParseString(after) == Some(Parsed(codes, rest))
    ensures ParseString(s) == Some(Parsed([code] + codes, rest))
  {
  }

  /** Every text is read back, with adjacent surrogates joined. */
  lemma {:induction false} StringIsReadBack(t: Text, rest: string)
    ensures ParseString(PrintChars(t, rest)) == Some(Parsed(Paired(t), rest))
    decreases |t|
  {
    if t == [] {
      assert (['"'] + rest)[1..] == rest;
    } else if |t| >= 2 && HighSurrogate(t[0]) && LowSurrogate(t[1]) {
      var after := PrintChars(t[2..], rest);
      StringIsReadBack(t[2..], rest);
      SurrogatesAreJoined(t[0], t[1], after);
      assert t[1..][1..] == t[2..];
      OneCharMore(Escaped(t[0]) + (Escaped(t[1]) + after), Joined(t[0], t[1]), after, Paired(t[2..]), rest);
    } else {
      var after := PrintChars(t[1..], rest);
      StringIsReadBack(t[1..], rest);
      if HighSurrogate(t[0]) {
        PrintIsApart(t[1..], rest);
      }
      CodeIsReadBack(t[0], after);
      OneCharMore(Escaped(t[0]) + after, t[0], after, Paired(t[1..]), rest);
    }
  }

  predicate NoSurrogates(t: Text) {
    forall i :: 0 <= i < |t| ==> !HighSurrogate(t[i]) && !LowSurrogate(t[i])
  }

  /** Without surrogates nothing is joined. */
  lemma {:induction false} PairedIsItself(t: Text)
    requires NoSurrogates(t)
    ensures Paired(t) == t
    decreases |t|
  {
    if t == [] {
    } else {
      PairedIsItself(t[1..]);
    }
  }

  lemma JoinedIsHigh(t: Text)
    requires |t| >= 2 && HighSurrogate(t[0]) && LowSurrogate(t[1])
    ensures Paired(t) != [] && Paired(t)[0] >= 0x10000
  {
  }

  /** Only a text that is ASCII itself is read as that ASCII text. */
  lemma {:induction false} OnlyItselfIsPaired(t: Text, u: Text)
    requires Paired(t) == u && forall i :: 0 <= i < |u| ==> u[i] < 0x80
    ensures t == u
    decreases |t|
  {
    if t == [] {
    } else if |t| >= 2 && HighSurrogate(t[0]) && LowSurrogate(t[1]) {
      JoinedIsHigh(t);
    } else {
      assert u == [t[0]] + Paired(t[1..]) && u[1..] == Paired(t[1..]);
      OnlyItselfIsPaired(t[1..], u[1..]);
    }
  }

  lemma {:induction false} DigitsOf(s: string, rest: string)
    requires forall i :: 0 <= i < |s| ==> Digit(s[i])
    requires rest == [] || !Digit(rest[0])
    ensures Digits(s + rest) == |s|
  {
    if s == [] {
      assert s + rest == rest;
    } else {
      DigitsOf(s[1..], rest);
      assert (s + rest)[1..] == s[1..] + rest;
    }
  }

  lemma {:induction false} NatIsReadBack(n: nat)
    ensures Decimal(PrintNat(n)) == n
  {
    if n < 10 {
      assert [('0' + n as char)][..0] == [];
    } else {
      NatIsReadBack(n / 10);
      var s := PrintNat(n / 10) + ['0' + (n % 10) as char];
      assert s[..|s| - 1] == PrintNat(n / 10);
    }
  }

  /** After a number comes something that does not continue it. */
  predicate EndsNumber(rest: string) {
    rest == [] || !(Digit(rest[0]) || rest[0] in {'.', 'e', 'E'})
  }

  lemma WholeIsReadBack(n: nat, rest: string)
    requires EndsNumber(rest)
    ensures var t := PrintNat(n) + rest;
            && WholeLength(t) == |PrintNat(n)|
            && t[..WholeLength(t)] == PrintNat(n) && t[WholeLength(t)..] == rest
  {
    DigitsOf(PrintNat(n), rest);
    assert (PrintNat(n) + rest)[0] == PrintNat(n)[0];
  }

  lemma NatNumberIsReadBack(negative: bool, n: nat, rest: string)
    requires EndsNumber(rest)
    ensures NumberAfter(negative, PrintNat(n), rest) == Parsed(Int(Signed(negative, n)), rest)
  {
    NatIsReadBack(n);
    assert FractionLength(rest) == 0;
    assert rest[0..] == rest;
  }

  lemma NumberOf(s: string, negative: bool, t: string)
    requires negative == (s != [] && s[0] == '-') && t == (if negative then s[1..] else s) && WholeLength(t) > 0
    ensures ParseNumber(s) == Some(NumberAfter(negative, t[..WholeLength(t)], t[WholeLength(t)..]))
  {
  }

  lemma IntIsReadBack(n: int, rest: string)
    requires EndsNumber(rest)
    ensures ParseNumber(PrintInt(n) + rest) == Some(Parsed(Int(n), rest))
  {
    var m := if n < 0 then -n else n;
    var t := PrintNat(m) + rest;
    WholeIsReadBack(m, rest);
    NatNumberIsReadBack(n < 0, m, rest);
    if n < 0 {
      assert ("-" + PrintNat(m) + rest)[1..] == t;
    } else {
      assert t[0] == PrintNat(m)[0];
    }
    NumberOf(PrintInt(n) + rest, n < 0, t);
  }

  lemma OtherStart(word: string, s: string)
    requires word != [] && s != [] && word[0] != s[0]
    ensures !(word <= s)
  {
  }

  /** A text that starts like a number is no word. */
  lemma NoWord(s: string)
    requires s != [] && (Digit(s[0]) || (s[0] == '-' && |s| > 1 && Digit(s[1])))
    ensures ParseWord(s) == None
  {
    OtherStart(NULL, s);
    OtherStart(TRUE, s);
    OtherStart(FALSE, s);
    OtherStart(NAN, s);
    OtherStart(INFINITY, s);
    if Digit(s[0]) {
      OtherStart(MINUS_INFINITY, s);
    } else {
      assert MINUS_INFINITY[1] != s[1];
    }
  }

  lemma NumberIsValue(s: string)
    requires s != [] && s[0] != '"' && s[0] != '{' && s[0] != '[' && ParseWord(s) == None
    ensures ParseValue(s) == ParseNumber(s)
  {
  }

  lemma IntStarts(n: int, rest: string)
    ensures var s := PrintInt(n) + rest;
            s != [] && (Digit(s[0]) || (s[0] == '-' && |s| > 1 && Digit(s[1])))
  {
    var s := PrintInt(n) + rest;
    if n < 0 {
      assert s[0] == '-' && s[1] == PrintNat(-n)[0];
    } else {
      assert s[0] == PrintNat(n)[0];
    }
  }

  lemma IntValueIsReadBack(n: int, rest: string)
    requires EndsNumber(rest)
    ensures ParseValue(PrintInt(n) + rest) == Some(Parsed(Int(n), rest))
  {
    var s := PrintInt(n) + rest;
    IntStarts(n, rest);
    NoWord(s);
    NumberIsValue(s);
    IntIsReadBack(n, rest);
  }

  lemma QuotedIsString(s: string, codes: seq<int>, rest: string)
    requires s != [] && s[0] == '"' && ParseString(s[1..]) == Some(Parsed(codes, rest))
    ensures ParseValue(s) == Some(Parsed(Str(codes), rest))
  {
  }

  lemma StringValueIsReadBack(t: Text, rest: string)
    ensures ParseValue(PrintString(t, rest)) == Some(Parsed(Str(Paired(t)), rest))
  {
    StringIsReadBack(t, rest);
    QuotedIsString(PrintString(t, rest), Paired(t), rest);
  }

  lemma KeyThenRest(s: string, key: seq<int>, after: string)
    requires s != [] && s[0] == '"' && ParseString(s[1..]) == Some(Parsed(key, after))
    ensures ParseMember(s) == ParseAfterKey(key, after)
  {
  }

  lemma ColonThenValue(key: seq<int>, text: string, value: Value, rest: string)
    requires text != [] && !Space(text[0])
    requires ParseValue(text) == Some(Parsed(value, rest))
    ensures ParseAfterKey(key, [':'] + text) == Some(Parsed(Member(key, value), rest))
  {
    assert ([':'] + text)[1..] == text;
  }

  /** A printed key, a colon, and the text of a value that is read back. */
  lemma MemberIsReadBack(key: Text, text: string, value: Value, rest: string)
    requires NoSurrogates(key) && text != [] && !Space(text[0])
    requires ParseValue(text) == Some(Parsed(value, rest))
    ensures ParseMember(PrintString(key, [':'] + text)) == Some(Parsed(Member(key, value), rest))
  {
    StringIsReadBack(key, [':'] + text);
    PairedIsItself(key);
    KeyThenRest(PrintString(key, [':'] + text), key, [':'] + text);
    ColonThenValue(key, text, value, rest);
  }

  lemma MemberIsLast(s: string, member: Member, rest: string)
    requires ParseMember(s) == Some(Parsed(member, ['}'] + rest))
    ensures ParseMembers(s) == Some(Parsed([member], rest))
  {
    assert (['}'] + rest)[1..] == rest;
  }

  lemma MemberIsNotLast(s: string, member: Member, tail: string, members: seq<Member>, rest: string)
    requires ParseMember(s) == Some(Parsed(member, [','] + tail)) && tail != [] && !Space(tail[0])
    requires ParseMembers(tail) == Some(Parsed(members, rest))
    ensures ParseMembers(s) == Some(Parsed([member] + members, rest))
  {
    assert ([','] + tail)[1..] == tail;
  }

  // ----- how long a text is at least

  /** A bound on the length of any text that is read as this value. */
  function Size(v: Value): nat {
    match v
    case Null => 4
    case Bool(_) => 4
    case Int(n) => |PrintInt(n)|
    case Float(_) => 1
    case NotFinite => 3
    case Str(codes) => |codes| + 2
    case Arr(_) => 2
    case Obj(members) => 2
  }

  function MemberSize(m: Member): nat {
    |m.key| + 3 + Size(m.value)
  }

  /** Every member is followed by a comma or the closing brace. */
  function MembersSize(members: seq<Member>): nat {
    if members == [] then 0 else MemberSize(members[0]) + 1 + MembersSize(members[1..])
  }

  lemma {:induction false} DecimalIsShort(s: string)
    requires s != [] && forall i :: 0 <= i < |s| ==> Digit(s[i])
    ensures |PrintNat(Decimal(s))| <= |s|
  {
    var n := |s| - 1;
    if n == 0 {
      assert Decimal(s[..0]) == 0;
    } else {
      DecimalIsShort(s[..n]);
      assert Decimal(s) / 10 == Decimal(s[..n]);
    }
  }

  lemma NumberSize(s: string)
    requires ParseNumber(s).Some?
    ensures var p := ParseNumber(s).value; |p.rest| + Size(p.value) <= |s|
  {
    var negative := s[0] == '-';
    var t := if negative then s[1..] else s;
    DecimalIsShort(t[..WholeLength(t)]);
  }

  lemma ValueSize(s: string)
    requires ParseValue(s).Some?
    ensures var p := ParseValue(s).value; |p.rest| + Size(p.value) <= |s|
  {
    if s[0] != '"' && s[0] != '{' && s[0] != '[' {
      if ParseWord(s) == None {
        NumberSize(s);
      }
    }
  }

  lemma MemberTextSize(s: string)
    requires ParseMember(s).Some?
    ensures var p := ParseMember(s).value; |p.rest| + MemberSize(p.value) <= |s|
  {
    var key := ParseString(s[1..]).value;
    ValueSize(SkipSpace(SkipSpace(key.rest)[1..]));
  }

  lemma {:induction false} MembersTextSize(s: string)
    requires ParseMembers(s).Some?
    ensures var p := ParseMembers(s).value; |p.rest| + MembersSize(p.value) <= |s|
    decreases |s|
  {
    var p := ParseMembers(s).value;
    MemberTextSize(s);
    var first := ParseMember(s).value;
    var t := SkipSpace(first.rest);
    if t[0] == ',' {
      MembersTextSize(SkipSpace(t[1..]));
    }
    assert p.value[0] == first.value;
  }

  /** What the member that counts for a key takes. */
  function TakenBy(members: seq<Member>, key: seq<int>): nat {
    var v := Get(members, key);
    if v.Some? then MemberSize(Member(key, v.value)) + 1 else 0
  }

  /** Different keys take room of their own. */
  lemma {:induction false} KeysTakeRoom(members: seq<Member>, a: seq<int>, b: seq<int>, c: seq<int>)
    requires a != b && b != c && a != c
    ensures TakenBy(members, a) + TakenBy(members, b) + TakenBy(members, c) <= MembersSize(members)
  {
    if members == [] {
    } else {
      KeysTakeRoom(members[1..], a, b, c);
    }
  }

  lemma {:induction false} KeysAreThere(members: seq<Member>, key: seq<int>)
    ensures key in Keys(members) <==> Get(members, key).Some?
  {
    if members == [] {
    } else {
      KeysAreThere(members[1..], key);
      assert members == [members[0]] + members[1..];
      assert Keys(members) == {members[0].key} + Keys(members[1..]);
    }
  }
}
