/**
 * JSON text as the browser writes and reads it: strings are sequences of UTF-16
 * code units, JSON.stringify escapes as section 25.5.2 of ECMA-262 says (quotes,
 * backslashes, control characters and lone surrogates), and the parser accepts
 * the grammar of RFC 8259.
 */
module Json {
  import opened Optional

  type Unit = u: nat | u < 0x1_0000
  type Text16 = seq<Unit>

  datatype Value =
    | Null | Bool(b: bool) | Int(n: int) | Fraction | Str(s: Text16)
    | Arr(items: seq<Value>) | Obj(members: seq<Member>)
  datatype Member = Member(key: Text16, value: Value)

  datatype Parsed<T> = Fail | Done(value: T, rest: Text16)

  const QUOTE: Unit := 0x22
  const BACKSLASH: Unit := 0x5C
  const COMMA: Unit := 0x2C
  const COLON: Unit := 0x3A
  const MINUS: Unit := 0x2D
  const OPEN: Unit := 0x7B
  const CLOSE: Unit := 0x7D
  const OPEN_ARRAY: Unit := 0x5B
  const CLOSE_ARRAY: Unit := 0x5D

  // ---------- writing ----------

  predicate High(u: Unit) { 0xD800 <= u < 0xDC00 }
  predicate Low(u: Unit) { 0xDC00 <= u < 0xE000 }

  function HexDigit(d: nat): (u: Unit)
    requires d < 16
  {
    if d < 10 then 0x30 + d else 0x61 + d - 10
  }

  function Hex4(u: Unit): (r: Text16)
    ensures |r| == 4
  {
    [HexDigit(u / 16 / 16 / 16), HexDigit(u / 16 / 16 % 16), HexDigit(u / 16 % 16), HexDigit(u % 16)]
  }

  function EscapeUnit(u: Unit): (r: Text16)
    ensures 1 <= |r| <= 6
  {
    if u == QUOTE || u == BACKSLASH then [BACKSLASH, u]
    else if u == 8 then [BACKSLASH, 0x62]
    else if u == 9 then [BACKSLASH, 0x74]
    else if u == 10 then [BACKSLASH, 0x6E]
    else if u == 12 then [BACKSLASH, 0x66]
    else if u == 13 then [BACKSLASH, 0x72]
    else if u < 0x20 || High(u) || Low(u) then [BACKSLASH, 0x75] + Hex4(u)
    else [u]
  }

  predicate Pair(s: Text16) {
    |s| >= 2 && High(s[0]) && Low(s[1])
  }

  function Escape(s: Text16): (r: Text16)
    ensures |r| <= 6 * |s|
  {
    if s == [] then []
    else if Pair(s) then s[..2] + Escape(s[2..])
    else EscapeUnit(s[0]) + Escape(s[1..])
  }

  function Quote(s: Text16): (r: Text16)
    ensures |r| <= 6 * |s| + 2
  {
    [QUOTE] + Escape(s) + [QUOTE]
  }

  function Digits(n: nat): (r: Text16)
    ensures r != [] && forall u <- r :: IsDigit(u)
  {
    if n < 10 then [0x30 + n] else Digits(n / 10) + [0x30 + n % 10]
  }

  function WriteInt(n: int): (r: Text16) {
    if n < 0 then [MINUS] + Digits(-n) else Digits(n)
  }

  /** JSON.stringify on objects of strings and integers, which is all a receipt holds. */
  function Write(v: Value): (r: Text16)
    requires Plain(v)
    decreases v, 1
  {
    match v
    case Int(n) => WriteInt(n)
    case Str(s) => Quote(s)
    case Obj(ms) => [OPEN] + WriteMembers(v, ms) + [CLOSE]
  }

  function WriteMembers(parent: Value, ms: seq<Member>): (r: Text16)
    requires forall m <- ms :: m.value < parent && Plain(m.value)
    decreases parent, 0, |ms|
  {
    if ms == [] then []
    else
      var m := ms[0];
      Quote(m.key) + [COLON] + Write(m.value) + (if |ms| > 1 then [COMMA] + WriteMembers(parent, ms[1..]) else [])
  }

  predicate Plain(v: Value)
    decreases v
  {
    || v.Int? || v.Str?
    || (v.Obj? && forall m <- v.members :: Plain(m.value))
  }

  // ---------- reading ----------

  predicate IsDigit(u: Unit) { 0x30 <= u <= 0x39 }

  predicate IsWhite(u: Unit) { u == 0x20 || u == 9 || u == 10 || u == 13 }

  function Skip(s: Text16): (r: Text16)
    ensures |r| <= |s|
  {
    if s != [] && IsWhite(s[0]) then Skip(s[1..]) else s
  }

  function HexValue(u: Unit): (d: Option<nat>)
    ensures d.Some? ==> d.value < 16
  {
    if IsDigit(u) then Some(u - 0x30)
    else if 0x61 <= u <= 0x66 then Some(u - 0x61 + 10)
    else if 0x41 <= u <= 0x46 then Some(u - 0x41 + 10)
    else None
  }

  function HexValue4(s: Text16): (u: Option<Unit>)
    requires |s| == 4
  {
    var a, b, c, d := HexValue(s[0]), HexValue(s[1]), HexValue(s[2]), HexValue(s[3]);
    if a.Some? && b.Some? && c.Some? && d.Some?
    then Some(((a.value * 16 + b.value) * 16 + c.value) * 16 + d.value)
    else None
  }

  /** The unit a one-letter escape stands for. */
  function ShortEscape(letter: Unit): (u: Option<Unit>) {
    if letter == QUOTE || letter == BACKSLASH || letter == 0x2F then Some(letter)
    else if letter == 0x62 then Some(8)
    else if letter == 0x74 then Some(9)
    else if letter == 0x6E then Some(10)
    else if letter == 0x66 then Some(12)
    else if letter == 0x72 then Some(13)
    else None
  }

  /** The next unit of a string body, escaped or not. */
  function ReadUnit(s: Text16): (r: Parsed<Unit>)
    requires s != []
    ensures r.Done? ==> |r.rest| < |s|
  {
    if s[0] < 0x20 then Fail
    else if s[0] != BACKSLASH then Done(s[0], s[1..])
    else if |s| < 2 then Fail
    else if s[1] == 0x75 then
      if |s| < 6 then Fail
      else match HexValue4(s[2..6]) case None => Fail case Some(u) => Done(u, s[6..])
    else match ShortEscape(s[1]) case None => Fail case Some(u) => Done(u, s[2..])
  }

  /** The body of a string, after its opening quote. */
  function ReadString(s: Text16): (r: Parsed<Text16>)
    ensures r.Done? ==> |r.rest| < |s|
    decreases |s|
  {
    if s == [] then Fail
    else if s[0] == QUOTE then Done([], s[1..])
    else match ReadUnit(s)
      case Fail => Fail
      case Done(u, tail) =>
        match ReadString(tail)
        case Fail => Fail
        case Done(more, rest) => Done([u] + more, rest)
  }

  function ReadDigits(s: Text16): (r: (Text16, Text16))
    ensures r.0 + r.1 == s && forall u <- r.0 :: IsDigit(u)
  {
    if s != [] && IsDigit(s[0]) then
      var (ds, rest) := ReadDigits(s[1..]);
      ([s[0]] + ds, rest)
    else ([], s)
  }

  function DigitValue(u: Unit): (d: nat)
    requires IsDigit(u)
  {
    u - 0x30
  }

  function DigitsValue(ds: Text16): (n: nat)
    requires forall u <- ds :: IsDigit(u)
  {
    if ds == [] then 0 else 10 * DigitsValue(ds[..|ds| - 1]) + DigitValue(ds[|ds| - 1])
  }

  function Power10(k: nat): (p: nat)
    ensures p > 0
  {
    if k == 0 then 1 else 10 * Power10(k - 1)
  }

  /** The exact value of mantissa * 10^exponent, when it is an integer. */
  function Scale(mantissa: int, exponent: int): (v: Value) {
    if exponent >= 0 then Int(mantissa * Power10(exponent))
    else if mantissa % Power10(-exponent) == 0 then Int(mantissa / Power10(-exponent))
    else Fraction
  }

  /** The optional exponent of a number. */
  function ReadExponent(s: Text16): (r: Parsed<int>)
    ensures r.Done? ==> |r.rest| <= |s|
  {
    if s != [] && (s[0] == 0x65 || s[0] == 0x45) then
      var signed := |s| > 1 && (s[1] == MINUS || s[1] == 0x2B);
      var (ds, rest) := ReadDigits(s[if signed then 2 else 1..]);
      if ds == [] then Fail
      else var n: int := DigitsValue(ds); Done(if signed && s[1] == MINUS then -n else n, rest)
    else Done(0, s)
  }

  /** An unsigned number: no leading zeros, at least one digit on each side of the point. */
  function ReadMagnitude(s: Text16, sign: int): (r: Parsed<Value>)
    ensures r.Done? ==> |r.rest| < |s|
  {
    var (whole, tail) := ReadDigits(s);
    if whole == [] || (|whole| > 1 && whole[0] == 0x30) then Fail
    else
      var point := tail != [] && tail[0] == 0x2E;
      var (part, after) := if point then ReadDigits(tail[1..]) else ([], tail);
      if point && part == [] then Fail
      else match ReadExponent(after)
        case Fail => Fail
        case Done(e, rest) => Done(Scale(sign * DigitsValue(whole + part), e - |part|), rest)
  }

  function ReadNumber(s: Text16): (r: Parsed<Value>)
    ensures r.Done? ==> |r.rest| < |s|
  {
    if s != [] && s[0] == MINUS then ReadMagnitude(s[1..], -1) else ReadMagnitude(s, 1)
  }

  function ReadWord(s: Text16, word: Text16, v: Value): (r: Parsed<Value>)
    requires word != []
    ensures r.Done? ==> |r.rest| < |s|
  {
    if word <= s then Done(v, s[|word|..]) else Fail
  }

  function ReadValue(s: Text16): (r: Parsed<Value>)
    ensures r.Done? ==> |r.rest| < |s|
    decreases |s|, 0
  {
    if s == [] then Fail
    else if s[0] == QUOTE then
      match ReadString(s[1..]) case Fail => Fail case Done(t, rest) => Done(Str(t), rest)
    else if s[0] == OPEN then
      var body := Skip(s[1..]);
      if body != [] && body[0] == CLOSE then Done(Obj([]), body[1..])
      else match ReadMembers(body) case Fail => Fail case Done(ms, rest) => Done(Obj(ms), rest)
    else if s[0] == OPEN_ARRAY then
      var body := Skip(s[1..]);
      if body != [] && body[0] == CLOSE_ARRAY then Done(Arr([]), body[1..])
      else match ReadItems(body) case Fail => Fail case Done(vs, rest) => Done(Arr(vs), rest)
    else if s[0] == 0x6E then ReadWord(s, [0x6E, 0x75, 0x6C, 0x6C], Null)
    else if s[0] == 0x74 then ReadWord(s, [0x74, 0x72, 0x75, 0x65], Bool(true))
    else if s[0] == 0x66 then ReadWord(s, [0x66, 0x61, 0x6C, 0x73, 0x65], Bool(false))
    else ReadNumber(s)
  }

  /** The members of an object up to and including its closing brace. */
  function ReadMembers(s: Text16): (r: Parsed<seq<Member>>)
    ensures r.Done? ==> |r.rest| < |s|
    decreases |s|, 1
  {
    if s == [] || s[0] != QUOTE then Fail
    else match ReadString(s[1..])
      case Fail => Fail
      case Done(key, afterKey) =>
        var colon := Skip(afterKey);
        if colon == [] || colon[0] != COLON then Fail
        else match ReadValue(Skip(colon[1..]))
          case Fail => Fail
          case Done(v, afterValue) =>
            var next := Skip(afterValue);
            if next == [] then Fail
            else if next[0] == CLOSE then Done([Member(key, v)], next[1..])
            else if next[0] != COMMA then Fail
            else match ReadMembers(Skip(next[1..]))
              case Fail => Fail
              case Done(ms, rest) => Done([Member(key, v)] + ms, rest)
  }

  /** The items of an array up to and including its closing bracket. */
  function ReadItems(s: Text16): (r: Parsed<seq<Value>>)
    ensures r.Done? ==> |r.rest| < |s|
    decreases |s|, 1
  {
    match ReadValue(s)
    case Fail => Fail
    case Done(v, afterValue) =>
      var next := Skip(afterValue);
      if next == [] then Fail
      else if next[0] == CLOSE_ARRAY then Done([v], next[1..])
      else if next[0] != COMMA then Fail
      else match ReadItems(Skip(next[1..]))
        case Fail => Fail
        case Done(vs, rest) => Done([v] + vs, rest)
  }

  /** JSON.parse: one value, white space around it, nothing else. */
  function Parse(s: Text16): (r: Option<Value>) {
    match ReadValue(Skip(s))
    case Fail => None
    case Done(v, rest) => if Skip(rest) == [] then Some(v) else None
  }

  // ---------- what is written is read back ----------

  lemma HexDigitRoundTrip(d: nat)
    requires d < 16
    ensures HexValue(HexDigit(d)) == Some(d)
  {
  }

  lemma Hex4RoundTrip(u: Unit)
    ensures HexValue4(Hex4(u)) == Some(u)
  {
    hide HexDigit, HexValue;
    HexDigitRoundTrip(u / 16 / 16 / 16);
    HexDigitRoundTrip(u / 16 / 16 % 16);
    HexDigitRoundTrip(u / 16 % 16);
    HexDigitRoundTrip(u % 16);
  }

  /** An escaped unit is read back as itself, whatever follows. */
  lemma UnitRoundTrip(u: Unit, tail: Text16)
    ensures EscapeUnit(u)[0] != QUOTE
    ensures ReadUnit(EscapeUnit(u) + tail) == Done(u, tail)
  {
    hide HexValue4, Hex4;
    var s := EscapeUnit(u) + tail;
    assert s[|EscapeUnit(u)|..] == tail;
    if |EscapeUnit(u)| == 6 {
      assert s[2..6] == Hex4(u);
      Hex4RoundTrip(u);
    }
  }

  /** Prefixing a readable unit prefixes what is read. */
  lemma ReadOneMore(s: Text16, u: Unit, tail: Text16)
    requires s != [] && s[0] != QUOTE && ReadUnit(s) == Done(u, tail) && ReadString(tail).Done?
    ensures ReadString(s) == Done([u] + ReadString(tail).value, ReadString(tail).rest)
  {
    hide ReadUnit;
  }

  lemma ReadRawUnit(u: Unit, tail: Text16)
    requires u >= 0x20 && u != BACKSLASH && u != QUOTE && ReadString(tail).Done?
    ensures ReadString([u] + tail) == Done([u] + ReadString(tail).value, ReadString(tail).rest)
  {
    hide ReadString;
    assert ([u] + tail)[1..] == tail;
    ReadOneMore([u] + tail, u, tail);
  }

  lemma {:induction false} StringRoundTrip(s: Text16, rest: Text16)
    ensures ReadString(Escape(s) + [QUOTE] + rest) == Done(s, rest)
    decreases |s|
  {
    hide EscapeUnit, ReadString, ReadUnit;
    var tail := [QUOTE] + rest;
    Regroup(Escape(s), [QUOTE], rest);
    if s == [] {
      ReadEnd(rest);
      assert Escape(s) + tail == tail;
    } else if Pair(s) {
      var more := Escape(s[2..]) + tail;
      StringRoundTrip(s[2..], rest);
      Regroup(Escape(s[2..]), [QUOTE], rest);
      ReadRawUnit(s[1], more);
      ReadRawUnit(s[0], [s[1]] + more);
      assert s[..2] == [s[0]] + [s[1]];
      Regroup(s[..2], Escape(s[2..]), tail);
      Regroup([s[0]], [s[1]], more);
      assert s == [s[0]] + ([s[1]] + s[2..]);
    } else {
      var more := Escape(s[1..]) + tail;
      StringRoundTrip(s[1..], rest);
      Regroup(Escape(s[1..]), [QUOTE], rest);
      UnitRoundTrip(s[0], more);
      ReadOneMore(EscapeUnit(s[0]) + more, s[0], more);
      Regroup(EscapeUnit(s[0]), Escape(s[1..]), tail);
      assert s == [s[0]] + s[1..];
    }
  }

  lemma Regroup(a: Text16, b: Text16, c: Text16)
    ensures a + b + c == a + (b + c)
  {
  }

  lemma ReadEnd(rest: Text16)
    ensures ReadString([QUOTE] + rest) == Done([], rest)
  {
  }

  /** What may follow a value inside a document. */
  predicate Delimited(rest: Text16) {
    rest == [] || rest[0] == COMMA || rest[0] == CLOSE
  }

  lemma {:induction false} DigitsStop(ds: Text16, rest: Text16)
    requires forall u <- ds :: IsDigit(u)
    requires rest == [] || !IsDigit(rest[0])
    ensures ReadDigits(ds + rest) == (ds, rest)
  {
    if ds == [] {
      assert ds + rest == rest;
    } else {
      assert (ds + rest)[1..] == ds[1..] + rest;
      DigitsStop(ds[1..], rest);
      assert ds == [ds[0]] + ds[1..];
    }
  }

  lemma {:induction false} DigitsDenote(n: nat)
    ensures DigitsValue(Digits(n)) == n
    ensures |Digits(n)| == 1 || Digits(n)[0] != 0x30
  {
    if n >= 10 {
      DigitsDenote(n / 10);
      assert Digits(n)[..|Digits(n)| - 1] == Digits(n / 10);
      assert Digits(n)[0] == Digits(n / 10)[0];
    }
  }

  lemma MagnitudeRoundTrip(m: nat, sign: int, rest: Text16)
    requires Delimited(rest)
    ensures ReadMagnitude(Digits(m) + rest, sign) == Done(Int(sign * m), rest)
  {
    hide Digits, ReadDigits, DigitsValue;
    DigitsDenote(m);
    DigitsStop(Digits(m), rest);
    assert Digits(m) + [] == Digits(m);
    assert Power10(0) == 1;
  }

  /** Reading dispatches on the first unit. */
  lemma ReadByFirst(s: Text16)
    requires s != []
    ensures IsDigit(s[0]) || s[0] == MINUS ==> ReadValue(s) == ReadNumber(s)
    ensures s[0] == QUOTE && ReadString(s[1..]).Done? ==>
              ReadValue(s) == Done(Str(ReadString(s[1..]).value), ReadString(s[1..]).rest)
    ensures s[0] == OPEN && |s| > 1 && s[1] == CLOSE ==> ReadValue(s) == Done(Obj([]), s[2..])
    ensures s[0] == OPEN && |s| > 1 && s[1] == QUOTE && ReadMembers(s[1..]).Done? ==>
              ReadValue(s) == Done(Obj(ReadMembers(s[1..]).value), ReadMembers(s[1..]).rest)
  {
    hide ReadString, ReadMembers, ReadItems, ReadNumber, ReadWord;
    if s[0] == OPEN && |s| > 1 {
      assert s[1..][1..] == s[2..];
      assert s[1..][0] == s[1];
    }
  }

  lemma IntRoundTrip(n: int, rest: Text16)
    requires Delimited(rest)
    ensures ReadValue(WriteInt(n) + rest) == Done(Int(n), rest)
  {
    hide ReadValue, ReadMagnitude, Digits;
    var m: nat := if n < 0 then -n else n;
    var s := WriteInt(n) + rest;
    ReadByFirst(s);
    MagnitudeRoundTrip(m, if n < 0 then -1 else 1, rest);
    if n < 0 {
      assert s[1..] == Digits(m) + rest;
    } else {
      assert s[0] == Digits(m)[0];
    }
  }

  /** JSON.parse inverts JSON.stringify on objects of strings and integers. */
  lemma {:induction false} RoundTrip(v: Value, rest: Text16)
    requires Plain(v) && Delimited(rest)
    ensures ReadValue(Write(v) + rest) == Done(v, rest)
    decreases v, 1
  {
    hide ReadValue, ReadMembers, ReadString, Escape, WriteInt;
    match v {
      case Int(n) => IntRoundTrip(n, rest);
      case Str(s) =>
        StringRoundTrip(s, rest);
        assert (Write(v) + rest)[1..] == Escape(s) + [QUOTE] + rest;
        ReadByFirst(Write(v) + rest);
      case Obj(ms) =>
        ReadByFirst(Write(v) + rest);
        if ms == [] {
          assert Write(v) + rest == [OPEN, CLOSE] + rest;
          assert (Write(v) + rest)[2..] == rest;
        } else {
          MembersRoundTrip(v, ms, rest);
          StartsWithQuote(v, ms);
          assert (Write(v) + rest)[1..] == WriteMembers(v, ms) + [CLOSE] + rest;
        }
    }
  }

  lemma StartsWithQuote(parent: Value, ms: seq<Member>)
    requires ms != [] && forall m <- ms :: m.value < parent && Plain(m.value)
    ensures WriteMembers(parent, ms) != [] && WriteMembers(parent, ms)[0] == QUOTE
  {
    hide Write, Escape;
  }

  /** One member, its value and what comes after it. */
  lemma ReadOneMember(key: Text16, v: Value, more: Text16)
    requires Plain(v) && more != [] && !IsWhite(more[0])
    requires ReadValue(Write(v) + more) == Done(v, more)
    requires ReadString(Escape(key) + [QUOTE] + ([COLON] + (Write(v) + more))) == Done(key, [COLON] + (Write(v) + more))
    ensures ReadMembers(Quote(key) + [COLON] + Write(v) + more) ==
      if more[0] == CLOSE then Done([Member(key, v)], more[1..])
      else if more[0] != COMMA then Fail
      else match ReadMembers(Skip(more[1..])) case Fail => Fail case Done(ms, rest) => Done([Member(key, v)] + ms, rest)
  {
    hide ReadValue, ReadString, Write, Escape;
    var s := Quote(key) + [COLON] + Write(v) + more;
    var afterKey := [COLON] + (Write(v) + more);
    assert s[1..] == Escape(key) + [QUOTE] + afterKey;
    assert afterKey[1..] == Write(v) + more;
    FirstUnit(v);
    assert (Write(v) + more)[0] == Write(v)[0];
  }

  /** What follows the first member's value, up to the end of the text. */
  function AfterFirst(parent: Value, ms: seq<Member>, rest: Text16): (more: Text16)
    requires ms != [] && forall m <- ms :: m.value < parent && Plain(m.value)
  {
    if |ms| > 1 then [COMMA] + (WriteMembers(parent, ms[1..]) + [CLOSE] + rest) else [CLOSE] + rest
  }

  lemma SplitFirst(parent: Value, ms: seq<Member>, rest: Text16)
    requires ms != [] && forall m <- ms :: m.value < parent && Plain(m.value)
    ensures WriteMembers(parent, ms) + [CLOSE] + rest ==
            Quote(ms[0].key) + [COLON] + Write(ms[0].value) + AfterFirst(parent, ms, rest)
  {
    hide Quote, Write;
    var front := Quote(ms[0].key) + [COLON] + Write(ms[0].value);
    if |ms| > 1 {
      var others := WriteMembers(parent, ms[1..]);
      Regroup(front, [COMMA] + others, [CLOSE]);
      Regroup(front, [COMMA] + others + [CLOSE], rest);
      Regroup([COMMA], others, [CLOSE]);
      Regroup([COMMA], others + [CLOSE], rest);
    } else {
      assert front + [] == front;
      Regroup(front, [CLOSE], rest);
    }
  }

  lemma {:induction false} MembersRoundTrip(parent: Value, ms: seq<Member>, rest: Text16)
    requires ms != [] && forall m <- ms :: m.value < parent && Plain(m.value)
    ensures ReadMembers(WriteMembers(parent, ms) + [CLOSE] + rest) == Done(ms, rest)
    decreases parent, 0, |ms|
  {
    hide ReadValue, ReadMembers, ReadString, Escape, Write, WriteMembers;
    var m := ms[0];
    var more := AfterFirst(parent, ms, rest);
    StringRoundTrip(m.key, [COLON] + (Write(m.value) + more));
    RoundTrip(m.value, more);
    ReadOneMember(m.key, m.value, more);
    SplitFirst(parent, ms, rest);
    if |ms| > 1 {
      MembersRoundTrip(parent, ms[1..], rest);
      StartsWithQuote(parent, ms[1..]);
      assert more[1..] == WriteMembers(parent, ms[1..]) + [CLOSE] + rest;
      assert ms == [m] + ms[1..];
    } else {
      assert more[1..] == rest;
      assert ms == [m];
    }
  }

  /** No written value starts with white space. */
  lemma FirstUnit(v: Value)
    requires Plain(v)
    ensures Write(v) != [] && !IsWhite(Write(v)[0])
  {
    if v.Int? {
      var m: nat := if v.n < 0 then -v.n else v.n;
      assert IsDigit(Digits(m)[0]);
    }
  }

  lemma ParseWritten(v: Value)
    requires Plain(v)
    ensures Parse(Write(v)) == Some(v)
  {
    FirstUnit(v);
    RoundTrip(v, []);
    assert Write(v) + [] == Write(v);
  }
}
