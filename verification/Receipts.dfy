/**
 * The receipt a browser keeps for a document transfer whose outcome it has not
 * confirmed yet: how it is written to storage, and how a later page load reads it.
 */
module Receipts {
  import opened Optional
  import opened Json

  datatype Mode = Copy | Move

  datatype Source = Source(id: Text16, libraryID: Text16, filename: Text16, bytes: int, sha256: Text16, revision: int)

  datatype Receipt = Receipt(source: Source, targetID: Text16, mode: Mode, clientID: Text16)

  const MAX_RAW := 4096
  const MAX_SAFE_INTEGER := 9007199254740991

  function AsciiUnit(c: char): (u: Unit)
    requires c < '\U{80}'
  {
    c as int
  }

  function Ascii(s: string): (r: Text16)
    requires forall c <- s :: c < '\U{80}'
    ensures |r| == |s| && forall i :: 0 <= i < |s| ==> r[i] == s[i] as int
  {
    seq(|s|, i requires 0 <= i < |s| => assert s[i] in s; AsciiUnit(s[i]))
  }

  // ---------- which receipts are valid ----------

  predicate LowerHex(u: Unit) {
    IsDigit(u) || 0x61 <= u <= 0x66
  }

  /** A tag followed by exactly n lower-case hexadecimal digits. */
  predicate Tagged(s: Text16, tag: Text16, n: nat) {
    tag <= s && |s| == |tag| + n && forall u <- s[|tag|..] :: LowerHex(u)
  }

  predicate ClientUnit(u: Unit) {
    || 0x61 <= u <= 0x7A || 0x41 <= u <= 0x5A || IsDigit(u)
    || u == 0x5F || u == 0x2E || u == 0x3A || u == 0x2D
  }

  predicate Safe(n: int) {
    -MAX_SAFE_INTEGER <= n <= MAX_SAFE_INTEGER
  }

  predicate ValidSource(s: Source) {
    && Tagged(s.id, Ascii("kdoc_"), 32) && Tagged(s.libraryID, Ascii("lib_"), 32)
    && Tagged(s.sha256, [], 64)
    && 1 <= |s.filename| <= 255
    && Safe(s.bytes) && 1 <= s.bytes <= 16 * 1024 * 1024
    && Safe(s.revision) && s.revision >= 1
  }

  predicate Valid(r: Receipt) {
    && ValidSource(r.source)
    && Tagged(r.targetID, Ascii("lib_"), 32) && r.source.libraryID != r.targetID
    && 1 <= |r.clientID| <= 96 && forall u <- r.clientID :: ClientUnit(u)
  }

  // ---------- writing ----------

  function ModeText(m: Mode): (t: Text16) {
    if m == Copy then Ascii("copy") else Ascii("move")
  }

  function SourceMembers(s: Source): (ms: seq<Member>) {
    [Member(Ascii("id"), Str(s.id)), Member(Ascii("library_id"), Str(s.libraryID)),
     Member(Ascii("filename"), Str(s.filename)), Member(Ascii("bytes"), Int(s.bytes)),
     Member(Ascii("sha256"), Str(s.sha256)), Member(Ascii("revision"), Int(s.revision))]
  }

  /** A receipt just made lists its source first; one read back from storage lists its client first. */
  function Members(r: Receipt, isNew: bool): (ms: seq<Member>) {
    var source := Member(Ascii("source"), Obj(SourceMembers(r.source)));
    var client := Member(Ascii("clientID"), Str(r.clientID));
    var target := Member(Ascii("targetID"), Str(r.targetID));
    var mode := Member(Ascii("mode"), Str(ModeText(r.mode)));
    if isNew then [source, target, mode, client] else [client, target, mode, source]
  }

  function Serialize(r: Receipt, isNew: bool): (raw: Text16) {
    Write(Obj(Members(r, isNew)))
  }

  // ---------- reading ----------

  /** A property of a parsed object; of repeated names the last one counts. */
  function Field(ms: seq<Member>, key: Text16): (v: Option<Value>) {
    if ms == [] then None
    else if ms[|ms| - 1].key == key then Some(ms[|ms| - 1].value)
    else Field(ms[..|ms| - 1], key)
  }

  function Text(v: Option<Value>): (t: Option<Text16>) {
    if v.Some? && v.value.Str? then Some(v.value.s) else None
  }

  function Integer(v: Option<Value>): (n: Option<int>) {
    if v.Some? && v.value.Int? then Some(v.value.n) else None
  }

  function ReadSource(ms: seq<Member>): (s: Option<Source>) {
    var id, library := Text(Field(ms, Ascii("id"))), Text(Field(ms, Ascii("library_id")));
    var filename, sha256 := Text(Field(ms, Ascii("filename"))), Text(Field(ms, Ascii("sha256")));
    var bytes, revision := Integer(Field(ms, Ascii("bytes"))), Integer(Field(ms, Ascii("revision")));
    if id.Some? && library.Some? && filename.Some? && sha256.Some? && bytes.Some? && revision.Some?
    then Some(Source(id.value, library.value, filename.value, bytes.value, sha256.value, revision.value))
    else None
  }

  function ReadMode(t: Option<Text16>): (m: Option<Mode>) {
    if t == Some(Ascii("copy")) then Some(Copy) else if t == Some(Ascii("move")) then Some(Move) else None
  }

  function ReadReceipt(v: Value): (r: Option<Receipt>) {
    if !v.Obj? then None
    else
      var inner := Field(v.members, Ascii("source"));
      var source := if inner.Some? && inner.value.Obj? then ReadSource(inner.value.members) else None;
      var target, client := Text(Field(v.members, Ascii("targetID"))), Text(Field(v.members, Ascii("clientID")));
      var mode := ReadMode(Text(Field(v.members, Ascii("mode"))));
      if source.Some? && target.Some? && client.Some? && mode.Some?
      then Some(Receipt(source.value, target.value, mode.value, client.value))
      else None
  }

  /** The receipt in storage, or nothing when there is none, or none whose tested members are strings. */
  function ParsePending(raw: Option<Text16>): (r: Option<Receipt>)
    ensures r.Some? ==> Valid(r.value)
  {
    if raw.None? || raw.value == [] || |raw.value| > MAX_RAW then None
    else match Parse(raw.value)
      case None => None
      case Some(v) =>
        var receipt := ReadReceipt(v);
        if receipt.Some? && Valid(receipt.value) then receipt else None
  }

  // ---------- nothing is lost on the way through storage ----------

  ghost predicate DistinctKeys(ms: seq<Member>) {
    forall i, j :: 0 <= i < j < |ms| ==> ms[i].key != ms[j].key
  }

  lemma {:induction false} FieldAt(ms: seq<Member>, i: nat)
    requires DistinctKeys(ms) && i < |ms|
    ensures Field(ms, ms[i].key) == Some(ms[i].value)
  {
    if i < |ms| - 1 {
      assert ms[..|ms| - 1][i] == ms[i];
      FieldAt(ms[..|ms| - 1], i);
    }
  }

  lemma SourceFieldsBack(s: Source)
    ensures var ms := SourceMembers(s);
            && Field(ms, Ascii("id")) == Some(Str(s.id)) && Field(ms, Ascii("library_id")) == Some(Str(s.libraryID))
            && Field(ms, Ascii("filename")) == Some(Str(s.filename)) && Field(ms, Ascii("bytes")) == Some(Int(s.bytes))
            && Field(ms, Ascii("sha256")) == Some(Str(s.sha256)) &&
                 Field(ms, Ascii("revision")) == Some(Int(s.revision))
  {
    hide Field;
    var ms := SourceMembers(s);
    assert ms[2].key[0] != ms[5].key[0];
    FieldAt(ms, 0);
    FieldAt(ms, 1);
    FieldAt(ms, 2);
    FieldAt(ms, 3);
    FieldAt(ms, 4);
    FieldAt(ms, 5);
  }

  lemma ReadSourceBack(s: Source)
    ensures ReadSource(SourceMembers(s)) == Some(s)
  {
    hide Field, SourceMembers;
    SourceFieldsBack(s);
  }

  lemma MemberFields(r: Receipt, isNew: bool)
    ensures var ms := Members(r, isNew);
            && Field(ms, Ascii("targetID")) == Some(Str(r.targetID)) &&
                 Field(ms, Ascii("mode")) == Some(Str(ModeText(r.mode)))
            && Field(ms, Ascii("source")) == Some(Obj(SourceMembers(r.source)))
            && Field(ms, Ascii("clientID")) == Some(Str(r.clientID))
  {
    hide Field, SourceMembers, ModeText;
    var ms := Members(r, isNew);
    assert Ascii("targetID")[0] != Ascii("clientID")[0];
    FieldAt(ms, 0);
    FieldAt(ms, 1);
    FieldAt(ms, 2);
    FieldAt(ms, 3);
  }

  lemma ReadReceiptBack(r: Receipt, isNew: bool)
    ensures ReadReceipt(Obj(Members(r, isNew))) == Some(r)
  {
    hide Field, Members, ReadSource, SourceMembers;
    assert Ascii("copy")[0] != Ascii("move")[0];
    MemberFields(r, isNew);
    ReadSourceBack(r.source);
  }

  // ---------- the size bound ----------

  lemma {:induction false} DigitsLength(n: nat, k: nat)
    requires k >= 1 && n < Power10(k)
    ensures |Digits(n)| <= k
  {
    if n >= 10 {
      DigitsLength(n / 10, k - 1);
    }
  }

  lemma MemberLength(parent: Value, ms: seq<Member>)
    requires ms != [] && forall m <- ms :: m.value < parent && Plain(m.value)
    ensures |WriteMembers(parent, ms)| <=
      6 * |ms[0].key| + 4 + |Write(ms[0].value)| + (if |ms| > 1 then |WriteMembers(parent, ms[1..])| else 0)
  {
    hide Quote, Write;
  }

  lemma StringLength(s: Text16)
    ensures |Write(Str(s))| <= 6 * |s| + 2
  {
  }

  lemma SourceFits(s: Source)
    requires ValidSource(s)
    ensures |Write(Obj(SourceMembers(s)))| <= 2700
  {
    hide WriteMembers, Quote, WriteInt, Tagged;
    var v := Obj(SourceMembers(s));
    var ms := v.members;
    TaggedLength(s.id, Ascii("kdoc_"), 32);
    TaggedLength(s.libraryID, Ascii("lib_"), 32);
    TaggedLength(s.sha256, [], 64);
    NumbersFit(s);
    StringLength(s.id);
    StringLength(s.libraryID);
    StringLength(s.filename);
    StringLength(s.sha256);
    MembersLength6(v, ms);
  }

  lemma NumbersFit(s: Source)
    requires 1 <= s.bytes <= 16 * 1024 * 1024 && 1 <= s.revision <= MAX_SAFE_INTEGER
    ensures |Write(Int(s.bytes))| <= 8 && |Write(Int(s.revision))| <= 16
  {
    hide Digits;
    assert Power10(8) == 100000000;
    DigitsLength(s.bytes, 8);
    assert Power10(16) == 10000000000000000;
    DigitsLength(s.revision, 16);
  }

  lemma TaggedLength(s: Text16, tag: Text16, n: nat)
    requires Tagged(s, tag, n)
    ensures |s| == |tag| + n
  {
  }

  lemma MembersLength6(parent: Value, ms: seq<Member>)
    requires |ms| == 6 && forall m <- ms :: m.value < parent && Plain(m.value)
    ensures |WriteMembers(parent, ms)| <=
      6 * (|ms[0].key| + |ms[1].key| + |ms[2].key| + |ms[3].key| + |ms[4].key| + |ms[5].key|) + 24
      + |Write(ms[0].value)| + |Write(ms[1].value)| + |Write(ms[2].value)| + |Write(ms[3].value)|
      + |Write(ms[4].value)| + |Write(ms[5].value)|
  {
    hide WriteMembers, Write;
    MemberLength(parent, ms);
    MemberLength(parent, ms[1..]);
    assert ms[1..][1..] == ms[2..];
    MembersLength4(parent, ms[2..]);
  }

  lemma MembersLength4(parent: Value, ms: seq<Member>)
    requires |ms| == 4 && forall m <- ms :: m.value < parent && Plain(m.value)
    ensures |WriteMembers(parent, ms)| <=
      6 * (|ms[0].key| + |ms[1].key| + |ms[2].key| + |ms[3].key|) + 16
      + |Write(ms[0].value)| + |Write(ms[1].value)| + |Write(ms[2].value)| + |Write(ms[3].value)|
  {
    hide WriteMembers, Write;
    MemberLength(parent, ms);
    MemberLength(parent, ms[1..]);
    assert ms[1..][1..] == ms[2..];
    MemberLength(parent, ms[2..]);
    assert ms[2..][1..] == ms[3..];
    MemberLength(parent, ms[3..]);
  }

  /** Even if every unit of every field had to be escaped, a valid receipt stays within the limit of the reader. */
  lemma ReceiptFits(r: Receipt, isNew: bool)
    requires Valid(r)
    ensures 0 < |Serialize(r, isNew)| <= MAX_RAW
  {
    hide WriteMembers, Quote, Tagged, ValidSource, SourceMembers;
    var v := Obj(Members(r, isNew));
    PlainReceipt(r, isNew);
    TaggedLength(r.targetID, Ascii("lib_"), 32);
    SourceFits(r.source);
    StringLength(r.targetID);
    StringLength(r.clientID);
    StringLength(ModeText(r.mode));
    MembersLength4(v, v.members);
  }

  /** A reload reads exactly the receipt that was stored, or, if it was never valid, nothing. */
  lemma StorageRoundTrip(r: Receipt, isNew: bool)
    ensures ParsePending(Some(Serialize(r, isNew))) == if Valid(r) then Some(r) else None
  {
    hide Valid, Members, Write, ReadReceipt, Parse;
    PlainReceipt(r, isNew);
    ParseWritten(Obj(Members(r, isNew)));
    ReadReceiptBack(r, isNew);
    if Valid(r) {
      ReceiptFits(r, isNew);
    }
  }

  lemma PlainReceipt(r: Receipt, isNew: bool)
    ensures Plain(Obj(Members(r, isNew)))
  {
    assert Plain(Obj(SourceMembers(r.source)));
  }

  // ---------- what the reader really accepts ----------

  /** The object parsePendingTransfer returns: pattern-tested members stay as they came, or missing. */
  datatype Loaded = Loaded(
    id: Option<Value>, libraryID: Option<Value>, filename: Text16, bytes: int, sha256: Option<Value>, revision: int,
    targetID: Option<Value>, mode: Mode, clientID: Option<Value>)

  function AsLoaded(r: Receipt): (l: Loaded) {
    Loaded(Some(Str(r.source.id)), Some(Str(r.source.libraryID)), r.source.filename, r.source.bytes,
           Some(Str(r.source.sha256)), r.source.revision, Some(Str(r.targetID)), r.mode, Some(Str(r.clientID)))
  }

  /** What the browser makes of a number: how it prints, and which integer it is, after rounding to a double. */
  datatype Browser = Browser(show: Value -> Text16, whole: Value -> Option<int>)

  /** Rounding leaves safe integers alone, and makes no other integer a safe one. */
  ghost predicate ReadsIntegers(b: Browser) {
    forall n :: if Safe(n) then b.whole(Int(n)) == Some(n)
                else b.whole(Int(n)).Some? ==> !Safe(b.whole(Int(n)).value)
  }

  function Whole(b: Browser, v: Option<Value>): (n: Option<int>) {
    if v.Some? && (v.value.Int? || v.value.Fraction?) then b.whole(v.value) else None
  }

  /** What a pattern sees of a value: RegExp.test converts its argument to a string. */
  function Converted(b: Browser, v: Value): (t: Text16)
    decreases v, 1
  {
    match v
    case Null => Ascii("null")
    case Bool(b) => if b then Ascii("true") else Ascii("false")
    case Int(_) => b.show(v)
    case Fraction => b.show(v)
    case Str(s) => s
    case Arr(items) => Joined(b, v, items)
    case Obj(_) => Ascii("[object Object]")
  }

  /** An array is its items, null ones left blank, with commas between. */
  function Joined(b: Browser, parent: Value, items: seq<Value>): (t: Text16)
    requires forall v <- items :: v < parent
    decreases parent, 0, |items|
  {
    if items == [] then []
    else
      assert items[0] in items && forall v <- items[1..] :: v in items;
      (if items[0].Null? then [] else Converted(b, items[0]))
      + (if |items| > 1 then [COMMA] + Joined(b, parent, items[1..]) else [])
  }

  function Tested(b: Browser, v: Option<Value>): (t: Text16) {
    if v.None? then Ascii("undefined") else Converted(b, v.value)
  }

  /** The operator ===; two arrays or objects read from one text are never the same. */
  predicate StrictlyEqual(a: Option<Value>, b: Option<Value>) {
    a == b && !(a.Some? && (a.value.Arr? || a.value.Obj?))
  }

  predicate LoadedOk(b: Browser, l: Loaded) {
    && Tagged(Tested(b, l.id), Ascii("kdoc_"), 32) && Tagged(Tested(b, l.libraryID), Ascii("lib_"), 32)
    && Tagged(Tested(b, l.targetID), Ascii("lib_"), 32) && !StrictlyEqual(l.libraryID, l.targetID)
    && (var client := Tested(b, l.clientID); 1 <= |client| <= 96 && forall u <- client :: ClientUnit(u))
    && Tagged(Tested(b, l.sha256), [], 64)
    && 1 <= |l.filename| <= 255
    && Safe(l.bytes) && 1 <= l.bytes <= 16 * 1024 * 1024
    && Safe(l.revision) && l.revision >= 1
  }

  /** A source that is not an object has no id, and "undefined" is no id. */
  function LoadObject(b: Browser, v: Value): (l: Option<Loaded>) {
    var inner := if v.Obj? then Field(v.members, Ascii("source")) else None;
    if inner.None? || !inner.value.Obj? then None
    else
      var s := inner.value.members;
      var filename, mode := Text(Field(s, Ascii("filename"))), ReadMode(Text(Field(v.members, Ascii("mode"))));
      var bytes, revision := Whole(b, Field(s, Ascii("bytes"))), Whole(b, Field(s, Ascii("revision")));
      if filename.None? || mode.None? || bytes.None? || revision.None? then None
      else
        var l := Loaded(Field(s, Ascii("id")), Field(s, Ascii("library_id")), filename.value, bytes.value,
                        Field(s, Ascii("sha256")), revision.value,
                        Field(v.members, Ascii("targetID")), mode.value, Field(v.members, Ascii("clientID")));
        if LoadedOk(b, l) then Some(l) else None
  }

  /** parsePendingTransfer. */
  function LoadPending(b: Browser, raw: Option<Text16>): (l: Option<Loaded>) {
    if raw.None? || raw.value == [] || |raw.value| > MAX_RAW then None
    else match Parse(raw.value) case None => None case Some(v) => LoadObject(b, v)
  }

  predicate IsString(v: Option<Value>) {
    v.Some? && v.value.Str?
  }

  /** The members the reader tests by patterns are strings. */
  predicate AllStrings(l: Loaded) {
    IsString(l.id) && IsString(l.libraryID) && IsString(l.sha256) && IsString(l.targetID) && IsString(l.clientID)
  }

  lemma StringsAreTestedAsTheyAre(b: Browser, r: Receipt)
    ensures LoadedOk(b, AsLoaded(r)) <==> Valid(r)
  {
    hide Tagged;
  }

  function ReceiptOf(l: Loaded): (r: Receipt)
    requires AllStrings(l)
    ensures AsLoaded(r) == l
  {
    Receipt(Source(l.id.value.s, l.libraryID.value.s, l.filename, l.bytes, l.sha256.value.s, l.revision),
            l.targetID.value.s, l.mode, l.clientID.value.s)
  }

  /** What the reader accepts is a valid receipt exactly when the members it tests by patterns are strings. */
  lemma AcceptedIsReceiptExactly(b: Browser, raw: Option<Text16>)
    requires LoadPending(b, raw).Some?
    ensures (exists r :: Valid(r) && LoadPending(b, raw).value == AsLoaded(r)) <==>
              AllStrings(LoadPending(b, raw).value)
  {
    hide Parse, Valid, Field;
    var l := LoadPending(b, raw).value;
    if AllStrings(l) {
      StringsAreTestedAsTheyAre(b, ReceiptOf(l));
    }
  }

  lemma ObjectReads(b: Browser, v: Value, r: Receipt)
    requires ReadsIntegers(b) && ReadReceipt(v) == Some(r) && Valid(r)
    ensures LoadObject(b, v) == Some(AsLoaded(r))
  {
    hide Valid, Field, LoadedOk, Ascii;
    SafeNumbers(r);
    StringsAreTestedAsTheyAre(b, r);
  }

  lemma SafeNumbers(r: Receipt)
    requires Valid(r)
    ensures Safe(r.source.bytes) && Safe(r.source.revision)
  {
  }

  /** Whatever is read as a receipt is what the reader returns. */
  lemma ReadsReceipts(b: Browser, raw: Option<Text16>, r: Receipt)
    requires ReadsIntegers(b) && ParsePending(raw) == Some(r)
    ensures LoadPending(b, raw) == Some(AsLoaded(r))
  {
    hide Valid, ReadReceipt, LoadObject, Parse, ReadsIntegers;
    ObjectReads(b, Parse(raw.value).value, r);
  }

  /** A cell that cannot be mistaken: whatever the reader accepts in it is the receipt it holds. */
  ghost predicate Honest(raw: Option<Text16>) {
    forall b: Browser :: ReadsIntegers(b) && LoadPending(b, raw).Some? ==>
      AllStrings(LoadPending(b, raw).value) && ParsePending(raw) == Some(ReceiptOf(LoadPending(b, raw).value))
  }

  /** Every receipt the page itself writes, valid or not, leaves an honest cell. */
  lemma WrittenIsHonest(r: Receipt, isNew: bool)
    ensures Honest(Some(Serialize(r, isNew)))
  {
    hide Valid, Serialize, LoadPending, ParsePending, ReadsIntegers;
    var raw := Some(Serialize(r, isNew));
    StorageRoundTrip(r, isNew);
    forall b: Browser | ReadsIntegers(b) && LoadPending(b, raw).Some?
      ensures AllStrings(LoadPending(b, raw).value) && ParsePending(raw) == Some(ReceiptOf(LoadPending(b, raw).value))
    {
      WrittenIsLoaded(b, r, isNew);
      assert LoadPending(b, raw) == Some(AsLoaded(r));
    }
  }

  lemma WrittenIsLoaded(b: Browser, r: Receipt, isNew: bool)
    requires ReadsIntegers(b)
    ensures LoadPending(b, Some(Serialize(r, isNew))).Some? ==>
              Valid(r) && LoadPending(b, Some(Serialize(r, isNew))) == Some(AsLoaded(r))
  {
    hide Members, Write, Parse, LoadObject, ReadsIntegers, Valid, AsLoaded;
    PlainReceipt(r, isNew);
    ParseWritten(Obj(Members(r, isNew)));
    MembersAreLoaded(b, r, isNew);
  }

  lemma MembersAreLoaded(b: Browser, r: Receipt, isNew: bool)
    requires ReadsIntegers(b)
    ensures LoadObject(b, Obj(Members(r, isNew))).Some? ==>
              Valid(r) && LoadObject(b, Obj(Members(r, isNew))) == Some(AsLoaded(r))
  {
    hide Field, Members, SourceMembers, LoadedOk, Valid;
    assert Ascii("copy")[0] != Ascii("move")[0];
    MemberFields(r, isNew);
    SourceFieldsBack(r.source);
    StringsAreTestedAsTheyAre(b, r);
    if LoadObject(b, Obj(Members(r, isNew))).Some? {
      LoadedNumbersAreSafe(b, LoadObject(b, Obj(Members(r, isNew))).value);
    }
  }

  lemma LoadedNumbersAreSafe(b: Browser, l: Loaded)
    requires LoadedOk(b, l)
    ensures Safe(l.bytes) && Safe(l.revision)
  {
  }

  lemma {:induction false} FieldAbsent(ms: seq<Member>, key: Text16)
    requires forall m <- ms :: m.key != key
    ensures Field(ms, key) == None
  {
    if ms != [] {
      assert ms[|ms| - 1] in ms;
      FieldAbsent(ms[..|ms| - 1], key);
    }
  }

  /** A receipt's members without its client ID. */
  function NamelessMembers(r: Receipt): (ms: seq<Member>) {
    [Member(Ascii("targetID"), Str(r.targetID)), Member(Ascii("mode"), Str(ModeText(r.mode))),
     Member(Ascii("source"), Obj(SourceMembers(r.source)))]
  }

  lemma PlainNameless(r: Receipt)
    ensures Plain(Obj(NamelessMembers(r)))
  {
    assert Plain(Obj(SourceMembers(r.source)));
  }

  function Nameless(r: Receipt): (raw: Text16) {
    hide SourceMembers, ModeText;
    PlainNameless(r);
    Write(Obj(NamelessMembers(r)))
  }

  /** A missing client ID is tested as "undefined", which the pattern admits: the object is accepted and has none. */
  lemma MissingClientIsAccepted(b: Browser, r: Receipt)
    requires Valid(r) && ReadsIntegers(b)
    ensures LoadPending(b, Some(Nameless(r))) == Some(AsLoaded(r).(clientID := None))
    ensures ParsePending(Some(Nameless(r))) == None
  {
    hide Valid, NamelessMembers, Write, Parse, LoadObject, ReadReceipt, AsLoaded, ReadsIntegers;
    PlainNameless(r);
    ParseWritten(Obj(NamelessMembers(r)));
    NamelessFits(r);
    NamelessObject(b, r);
  }

  lemma NamelessFits(r: Receipt)
    requires Valid(r)
    ensures 0 < |Nameless(r)| <= MAX_RAW
  {
    hide WriteMembers, Quote, Tagged, ValidSource, SourceMembers;
    var v := Obj(NamelessMembers(r));
    var ms := v.members;
    PlainNameless(r);
    TaggedLength(r.targetID, Ascii("lib_"), 32);
    SourceFits(r.source);
    StringLength(r.targetID);
    StringLength(ModeText(r.mode));
    MemberLength(v, ms);
    MemberLength(v, ms[1..]);
    assert ms[1..][1..] == ms[2..];
    MemberLength(v, ms[2..]);
  }

  lemma NamelessFields(r: Receipt)
    ensures var ms := NamelessMembers(r);
            && Field(ms, Ascii("targetID")) == Some(Str(r.targetID)) &&
                 Field(ms, Ascii("mode")) == Some(Str(ModeText(r.mode)))
            && Field(ms, Ascii("source")) == Some(Obj(SourceMembers(r.source))) && Field(ms, Ascii("clientID")) == None
  {
    hide Field, SourceMembers, ModeText;
    var ms := NamelessMembers(r);
    assert Ascii("targetID")[0] != Ascii("clientID")[0];
    FieldAt(ms, 0);
    FieldAt(ms, 1);
    FieldAt(ms, 2);
    FieldAbsent(ms, Ascii("clientID"));
  }

  lemma NamelessObject(b: Browser, r: Receipt)
    requires Valid(r) && ReadsIntegers(b)
    ensures LoadObject(b, Obj(NamelessMembers(r))) == Some(AsLoaded(r).(clientID := None))
    ensures ReadReceipt(Obj(NamelessMembers(r))) == None
  {
    hide Field, SourceMembers, LoadedOk, Valid, NamelessMembers;
    assert Ascii("copy")[0] != Ascii("move")[0];
    NamelessFields(r);
    SafeNumbers(r);
    SourceFieldsBack(r.source);
    StringsAreTestedAsTheyAre(b, r);
    UndefinedIsAdmitted(b, AsLoaded(r));
  }

  lemma UndefinedIsAdmitted(b: Browser, l: Loaded)
    requires LoadedOk(b, l)
    ensures LoadedOk(b, l.(clientID := None))
  {
    hide Tagged, Converted;
    assert forall u <- Ascii("undefined") :: ClientUnit(u);
  }
}
