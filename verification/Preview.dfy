/**
 * The preview a person confirms before an account write: a closed reading of
 * the arguments that shows every field it accepts.
 */
module Preview {
  import opened Optional
  import Text

  /** A parsed JSON value. */
  datatype Value =
    | Null | Bool(b: bool) | Number(n: real) | Str(s: string)
    | Arr(items: seq<Value>) | Obj(fields: map<string, Value>)

  /** Date.parse succeeding, String.toLowerCase, JSON.parse. */
  datatype Host = Host(parses: string -> bool, lower: string -> string, json: string -> Option<Value>)

  datatype Kind = Required | Optional | Resource
  datatype Address = Address(address: string, name: Option<string>)
  datatype Attendee = Attendee(address: string, name: Option<string>, kind: Kind)
  datatype Moment = Moment(date: Option<string>, dateTime: Option<string>, timeZone: string)
  datatype Change = Change(
    title: Option<string>, description: Option<string>, location: Option<string>,
    start: Option<Moment>, end: Option<Moment>, attendees: Option<seq<Attendee>>)
  datatype Mail = Mail(to: seq<Address>, cc: seq<Address>, bcc: seq<Address>, subject: string, text: string)
  datatype Scope = Event | Series
  datatype Write =
    | CalendarCreate(calendarID: string, change: Change)
    | CalendarUpdate(calendarID: string, eventID: string, expectedVersion: string, scope: Scope, change: Change)
    | MailSend(mail: Mail)
    | MailReply(messageID: string, mail: Mail)
  datatype AccountWrite = AccountWrite(accountKey: string, accountRevision: string, write: Write)

  // ---------- what is accepted ----------

  /** White space as String.trim removes it. */
  predicate IsSpace(c: char) {
    || '\t' <= c <= '\r' || c == ' ' || c == '\U{A0}' || c == '\U{1680}' || '\U{2000}' <= c <= '\U{200A}'
    || c == '\U{2028}' || c == '\U{2029}' || c == '\U{202F}' || c == '\U{205F}' || c == '\U{3000}' || c == '\U{FEFF}'
  }

  predicate Named(s: string) {
    exists c <- s :: !IsSpace(c)
  }

  predicate Keys(v: Value, allowed: seq<string>) {
    v.Obj? && forall key <- v.fields :: key in allowed
  }

  predicate TextAt(m: map<string, Value>, key: string) {
    key in m && m[key].Str?
  }

  predicate NamedAt(m: map<string, Value>, key: string) {
    TextAt(m, key) && Named(m[key].s)
  }

  predicate TextIfAny(m: map<string, Value>, key: string) {
    key in m ==> m[key].Str?
  }

  predicate Digits(s: string) {
    forall c <- s :: '0' <= c <= '9'
  }

  predicate IsDate(s: string) {
    |s| == 10 && Digits(s[..4]) && s[4] == '-' && Digits(s[5..7]) && s[7] == '-' && Digits(s[8..])
  }

  predicate HasZone(s: string) {
    || (|s| >= 1 && s[|s| - 1] == 'Z')
    || (|s| >= 6 && var z := s[|s| - 6..];
        (z[0] == '+' || z[0] == '-') && Digits(z[1..3]) && z[3] == ':' && Digits(z[4..]))
  }

  const ADDRESS_KEYS := ["address", "name"]
  const ATTENDEE_KEYS := ["address", "name", "kind"]
  const MOMENT_KEYS := ["date", "date_time", "time_zone"]
  const CHANGE_KEYS := ["title", "description", "location", "start", "end", "attendees"]
  const MAIL_KEYS := ["to", "cc", "bcc", "subject", "text"]

  predicate IsAddress(v: Value) {
    Keys(v, ADDRESS_KEYS) && NamedAt(v.fields, "address") && TextIfAny(v.fields, "name")
  }

  predicate IsKind(s: string) {
    s == "required" || s == "optional" || s == "resource"
  }

  predicate IsAttendee(v: Value) {
    && Keys(v, ATTENDEE_KEYS) && NamedAt(v.fields, "address") && TextIfAny(v.fields, "name")
    && TextAt(v.fields, "kind") && IsKind(v.fields["kind"].s)
  }

  predicate AreAttendees(v: Value) {
    v.Arr? && |v.items| <= 100 && forall a <- v.items :: IsAttendee(a)
  }

  predicate IsMoment(h: Host, v: Value) {
    && Keys(v, MOMENT_KEYS) && NamedAt(v.fields, "time_zone")
    && var m := v.fields;
    || (NamedAt(m, "date") && IsDate(m["date"].s) && "date_time" !in m)
    || (NamedAt(m, "date_time") && h.parses(m["date_time"].s) && HasZone(m["date_time"].s) && "date" !in m)
  }

  predicate IsChange(h: Host, v: Value, create: bool) {
    && Keys(v, CHANGE_KEYS) && v.fields != map[]
    && var m := v.fields;
    && ("title" in m ==> NamedAt(m, "title")) && TextIfAny(m, "description") && TextIfAny(m, "location")
    && ("attendees" in m ==> AreAttendees(m["attendees"]))
    && ("start" in m <==> "end" in m) && ("start" in m ==> IsMoment(h, m["start"]) && IsMoment(h, m["end"]))
    && (create ==> "title" in m && "start" in m && "attendees" in m)
  }

  predicate AreAddresses(m: map<string, Value>, key: string) {
    key in m && m[key].Arr? && forall a <- m[key].items :: IsAddress(a)
  }

  /** The recipients of a mail, in the order the three lists are read. */
  function Recipients(m: map<string, Value>): (r: seq<string>)
    requires AreAddresses(m, "to") && AreAddresses(m, "cc") && AreAddresses(m, "bcc")
  {
    var all := m["to"].items + m["cc"].items + m["bcc"].items;
    seq(|all|, i requires 0 <= i < |all| => assert IsAddress(all[i]); all[i].fields["address"].s)
  }

  ghost predicate DifferInLower(h: Host, s: seq<string>) {
    forall i, j :: 0 <= i < j < |s| ==> h.lower(s[i]) != h.lower(s[j])
  }

  ghost predicate IsMail(h: Host, v: Value) {
    && Keys(v, MAIL_KEYS) && TextAt(v.fields, "subject") && TextAt(v.fields, "text")
    && AreAddresses(v.fields, "to") && AreAddresses(v.fields, "cc") && AreAddresses(v.fields, "bcc")
    && 1 <= |Recipients(v.fields)| <= 50 && DifferInLower(h, Recipients(v.fields))
  }

  // ---------- the preview ----------

  function TextOf(m: map<string, Value>, key: string): (r: Option<string>)
    requires TextIfAny(m, key)
  {
    if key in m then Some(m[key].s) else None
  }

  function AddressOf(v: Value): (a: Address)
    requires IsAddress(v)
  {
    Address(v.fields["address"].s, TextOf(v.fields, "name"))
  }

  function KindOf(s: string): (k: Kind)
    requires IsKind(s)
  {
    if s == "required" then Required else if s == "optional" then Optional else Resource
  }

  function AttendeeOf(v: Value): (a: Attendee)
    requires IsAttendee(v)
  {
    Attendee(v.fields["address"].s, TextOf(v.fields, "name"), KindOf(v.fields["kind"].s))
  }

  function MomentOf(h: Host, v: Value): (r: Moment)
    requires IsMoment(h, v)
  {
    Moment(TextOf(v.fields, "date"), TextOf(v.fields, "date_time"), v.fields["time_zone"].s)
  }

  function AttendeesOf(v: Value): (r: seq<Attendee>)
    requires AreAttendees(v)
    ensures |r| == |v.items| && forall i :: 0 <= i < |r| ==> IsAttendee(v.items[i]) && r[i] == AttendeeOf(v.items[i])
  {
    seq(|v.items|, i requires 0 <= i < |v.items| => assert v.items[i] in v.items; AttendeeOf(v.items[i]))
  }

  function AddressesOf(v: Value): (r: seq<Address>)
    requires v.Arr? && forall a <- v.items :: IsAddress(a)
    ensures |r| == |v.items| && forall i :: 0 <= i < |r| ==> IsAddress(v.items[i]) && r[i] == AddressOf(v.items[i])
  {
    seq(|v.items|, i requires 0 <= i < |v.items| => assert v.items[i] in v.items; AddressOf(v.items[i]))
  }

  function MomentAt(h: Host, m: map<string, Value>, key: string): (r: Option<Moment>)
    requires key in m ==> IsMoment(h, m[key])
  {
    if key in m then Some(MomentOf(h, m[key])) else None
  }

  function AttendeesAt(m: map<string, Value>, key: string): (r: Option<seq<Attendee>>)
    requires key in m ==> AreAttendees(m[key])
  {
    if key in m then Some(AttendeesOf(m[key])) else None
  }

  function ChangeOf(h: Host, v: Value, create: bool): (c: Change)
    requires IsChange(h, v, create)
  {
    var m := v.fields;
    Change(TextOf(m, "title"), TextOf(m, "description"), TextOf(m, "location"),
           MomentAt(h, m, "start"), MomentAt(h, m, "end"), AttendeesAt(m, "attendees"))
  }

  ghost function MailOf(h: Host, v: Value): (r: Mail)
    requires IsMail(h, v)
  {
    var m := v.fields;
    Mail(AddressesOf(m["to"]), AddressesOf(m["cc"]), AddressesOf(m["bcc"]), m["subject"].s, m["text"].s)
  }

  const NOTIFY := Str("notify_attendees")
  const CREATE_KEYS := ["calendar_id", "event", "notifications"]
  const UPDATE_KEYS := ["calendar_id", "event_id", "expected_version", "scope", "changes", "notifications"]

  predicate Notifies(m: map<string, Value>) {
    "notifications" in m && m["notifications"] == NOTIFY
  }

  predicate IsCreate(h: Host, q: Value) {
    && Keys(q, CREATE_KEYS) && NamedAt(q.fields, "calendar_id") && Notifies(q.fields)
    && "event" in q.fields && IsChange(h, q.fields["event"], true)
  }

  predicate IsScope(m: map<string, Value>) {
    TextAt(m, "scope") && (m["scope"].s == "event" || m["scope"].s == "series")
  }

  predicate IsUpdate(h: Host, q: Value) {
    && Keys(q, UPDATE_KEYS) && NamedAt(q.fields, "calendar_id") && NamedAt(q.fields, "event_id")
    && NamedAt(q.fields, "expected_version") && IsScope(q.fields) && Notifies(q.fields)
    && "changes" in q.fields && IsChange(h, q.fields["changes"], false)
  }

  ghost predicate IsSend(h: Host, q: Value) {
    Keys(q, ["message"]) && "message" in q.fields && IsMail(h, q.fields["message"])
  }

  ghost predicate IsReply(h: Host, q: Value) {
    && Keys(q, ["message_id", "message"]) && NamedAt(q.fields, "message_id")
    && "message" in q.fields && IsMail(h, q.fields["message"])
  }

  ghost function WriteOf(h: Host, tool: string, q: Value): (r: Option<Write>) {
    if tool == "calendar_event_create" && IsCreate(h, q) then
      Some(CalendarCreate(q.fields["calendar_id"].s, ChangeOf(h, q.fields["event"], true)))
    else if tool == "calendar_event_update" && IsUpdate(h, q) then
      Some(CalendarUpdate(q.fields["calendar_id"].s, q.fields["event_id"].s, q.fields["expected_version"].s,
                          if q.fields["scope"].s == "event" then Event else Series,
                          ChangeOf(h, q.fields["changes"], false)))
    else if tool == "mail_send" && IsSend(h, q) then Some(MailSend(MailOf(h, q.fields["message"])))
    else if tool == "mail_reply" && IsReply(h, q)
    then Some(MailReply(q.fields["message_id"].s, MailOf(h, q.fields["message"])))
    else None
  }

  const ACCOUNT_KEYS := ["account_key", "account_updated_at", "request"]

  predicate IsAccount(v: Value) {
    && Keys(v, ACCOUNT_KEYS) && NamedAt(v.fields, "account_key") && NamedAt(v.fields, "account_updated_at")
    && "request" in v.fields && v.fields["request"].Obj?
  }

  /** accountWritePreview on parsed arguments. */
  ghost function PreviewOf(h: Host, tool: string, v: Value): (r: Option<AccountWrite>) {
    if !IsAccount(v) then None
    else match WriteOf(h, tool, v.fields["request"])
      case None => None
      case Some(w) => Some(AccountWrite(v.fields["account_key"].s, v.fields["account_updated_at"].s, w))
  }

  const MAX_BYTES := 1048576

  ghost function AccountWritePreview(h: Host, tool: string, text: string): (r: Option<AccountWrite>) {
    if Text.ByteLen(text) > MAX_BYTES || h.json(text).None? then None else PreviewOf(h, tool, h.json(text).value)
  }

  // ---------- rebuilding the arguments ----------

  datatype Slot = Slot(key: string, value: Option<Value>)

  function Get(m: map<string, Value>, key: string): (v: Option<Value>) {
    if key in m then Some(m[key]) else None
  }

  function Build(slots: seq<Slot>): (m: map<string, Value>) {
    if slots == [] then map[]
    else
      var last := slots[|slots| - 1];
      var before := Build(slots[..|slots| - 1]);
      if last.value.Some? then before[last.key := last.value.value] else before
  }

  /** Slots filled from an object rebuild the part of it they name. */
  lemma {:induction false} BuildPart(m: map<string, Value>, slots: seq<Slot>, key: string)
    requires forall i :: 0 <= i < |slots| ==> slots[i].value == Get(m, slots[i].key)
    ensures Get(Build(slots), key) == if exists i :: 0 <= i < |slots| && slots[i].key == key then Get(m, key) else None
  {
    if slots != [] {
      var n := |slots| - 1;
      BuildPart(m, slots[..n], key);
      assert forall i :: 0 <= i < n ==> slots[..n][i] == slots[i];
      if slots[n].key != key {
        if exists i :: 0 <= i < |slots| && slots[i].key == key {
          var i :| 0 <= i < |slots| && slots[i].key == key;
          assert slots[..n][i].key == key;
        }
      }
    }
  }

  /** An object with no keys but the named ones is rebuilt from its slots. */
  lemma BuildAll(m: map<string, Value>, slots: seq<Slot>, allowed: seq<string>)
    requires |slots| == |allowed| && forall i :: 0 <= i < |slots| ==> slots[i] == Slot(allowed[i], Get(m, allowed[i]))
    requires forall key <- m :: key in allowed
    ensures Build(slots) == m
  {
    forall key
      ensures Get(Build(slots), key) == Get(m, key)
    {
      BuildPart(m, slots, key);
      if key in m {
        var i :| 0 <= i < |allowed| && allowed[i] == key;
        assert slots[i].key == key;
      }
    }
    var b := Build(slots);
    assert forall key :: key in b <==> Get(b, key).Some?;
    assert forall key :: key in m <==> Get(m, key).Some?;
    forall key | key in m
      ensures b[key] == m[key]
    {
      assert Get(b, key) == Get(m, key);
    }
  }

  function TextValue(t: Option<string>): (v: Option<Value>) {
    if t.Some? then Some(Str(t.value)) else None
  }

  function AddressSlots(a: Address): (s: seq<Slot>) {
    [Slot("address", Some(Str(a.address))), Slot("name", TextValue(a.name))]
  }

  function KindText(k: Kind): (s: string) {
    match k case Required => "required" case Optional => "optional" case Resource => "resource"
  }

  function AttendeeSlots(a: Attendee): (s: seq<Slot>) {
    [Slot("address", Some(Str(a.address))), Slot("name", TextValue(a.name)), Slot("kind", Some(Str(KindText(a.kind))))]
  }

  function MomentSlots(m: Moment): (s: seq<Slot>) {
    [Slot("date", TextValue(m.date)), Slot("date_time", TextValue(m.dateTime)),
     Slot("time_zone", Some(Str(m.timeZone)))]
  }

  function MomentValue(m: Option<Moment>): (v: Option<Value>) {
    if m.Some? then Some(Obj(Build(MomentSlots(m.value)))) else None
  }

  function AttendeesValue(a: Option<seq<Attendee>>): (v: Option<Value>) {
    if a.None? then None
    else Some(Arr(seq(|a.value|, i requires 0 <= i < |a.value| => Obj(Build(AttendeeSlots(a.value[i]))))))
  }

  function AddressesValue(a: seq<Address>): (v: Value) {
    Arr(seq(|a|, i requires 0 <= i < |a| => Obj(Build(AddressSlots(a[i])))))
  }

  function ChangeSlots(c: Change): (s: seq<Slot>) {
    [Slot("title", TextValue(c.title)), Slot("description", TextValue(c.description)),
     Slot("location", TextValue(c.location)),
     Slot("start", MomentValue(c.start)), Slot("end", MomentValue(c.end)),
     Slot("attendees", AttendeesValue(c.attendees))]
  }

  function MailSlots(m: Mail): (s: seq<Slot>) {
    [Slot("to", Some(AddressesValue(m.to))), Slot("cc", Some(AddressesValue(m.cc))),
     Slot("bcc", Some(AddressesValue(m.bcc))),
     Slot("subject", Some(Str(m.subject))), Slot("text", Some(Str(m.text)))]
  }

  function ChangeValue(c: Change): (v: Option<Value>) {
    Some(Obj(Build(ChangeSlots(c))))
  }

  function WriteSlots(w: Write): (s: seq<Slot>) {
    match w
    case CalendarCreate(calendar, change) =>
      [Slot("calendar_id", Some(Str(calendar))), Slot("event", ChangeValue(change)),
       Slot("notifications", Some(NOTIFY))]
    case CalendarUpdate(calendar, event, version, scope, change) =>
      [Slot("calendar_id", Some(Str(calendar))), Slot("event_id", Some(Str(event))),
       Slot("expected_version", Some(Str(version))),
       Slot("scope", Some(Str(if scope == Event then "event" else "series"))), Slot("changes", ChangeValue(change)),
       Slot("notifications", Some(NOTIFY))]
    case MailSend(mail) => [Slot("message", Some(Obj(Build(MailSlots(mail)))))]
    case MailReply(id, mail) => [Slot("message_id", Some(Str(id))), Slot("message", Some(Obj(Build(MailSlots(mail)))))]
  }

  /** The arguments a preview stands for. */
  function Rebuild(p: AccountWrite): (v: Value) {
    Obj(Build([Slot("account_key", Some(Str(p.accountKey))), Slot("account_updated_at", Some(Str(p.accountRevision))),
               Slot("request", Some(Obj(Build(WriteSlots(p.write)))))]))
  }

  // ---------- nothing is lost ----------

  lemma AddressBack(v: Value)
    requires IsAddress(v)
    ensures Obj(Build(AddressSlots(AddressOf(v)))) == v
  {
    hide Build, Named;
    BuildAll(v.fields, AddressSlots(AddressOf(v)), ADDRESS_KEYS);
  }

  lemma AttendeeBack(v: Value)
    requires IsAttendee(v)
    ensures Obj(Build(AttendeeSlots(AttendeeOf(v)))) == v
  {
    hide Build, Named;
    BuildAll(v.fields, AttendeeSlots(AttendeeOf(v)), ATTENDEE_KEYS);
  }

  lemma MomentBack(h: Host, v: Value)
    requires IsMoment(h, v)
    ensures Obj(Build(MomentSlots(MomentOf(h, v)))) == v
  {
    hide Build, Named, IsDate, HasZone;
    BuildAll(v.fields, MomentSlots(MomentOf(h, v)), MOMENT_KEYS);
  }

  lemma AttendeesBack(v: Value)
    requires AreAttendees(v)
    ensures AttendeesValue(Some(AttendeesOf(v))) == Some(v)
  {
    hide Build, IsAttendee, AttendeeOf, AttendeeSlots;
    forall i | 0 <= i < |v.items|
      ensures Obj(Build(AttendeeSlots(AttendeesOf(v)[i]))) == v.items[i]
    {
      AttendeeBack(v.items[i]);
    }
    assert AttendeesValue(Some(AttendeesOf(v))).value.items == v.items;
  }

  lemma AddressesBack(v: Value)
    requires v.Arr? && forall a <- v.items :: IsAddress(a)
    ensures AddressesValue(AddressesOf(v)) == v
  {
    hide Build, IsAddress, AddressOf, AddressSlots;
    forall i | 0 <= i < |v.items|
      ensures Obj(Build(AddressSlots(AddressesOf(v)[i]))) == v.items[i]
    {
      AddressBack(v.items[i]);
    }
    assert AddressesValue(AddressesOf(v)).items == v.items;
  }

  lemma TextBack(m: map<string, Value>, key: string)
    requires TextIfAny(m, key)
    ensures TextValue(TextOf(m, key)) == Get(m, key)
  {
  }

  lemma MomentAtBack(h: Host, m: map<string, Value>, key: string)
    requires key in m ==> IsMoment(h, m[key])
    ensures MomentValue(MomentAt(h, m, key)) == Get(m, key)
  {
    hide Build, IsMoment, MomentOf, MomentSlots;
    if key in m {
      MomentBack(h, m[key]);
    }
  }

  lemma AttendeesAtBack(m: map<string, Value>, key: string)
    requires key in m ==> AreAttendees(m[key])
    ensures AttendeesValue(AttendeesAt(m, key)) == Get(m, key)
  {
    hide Build, AreAttendees, AttendeeSlots;
    if key in m {
      AttendeesBack(m[key]);
    }
  }

  lemma ChangeBack(h: Host, v: Value, create: bool)
    requires IsChange(h, v, create)
    ensures Obj(Build(ChangeSlots(ChangeOf(h, v, create)))) == v
  {
    hide Build, Named, IsMoment, MomentAt, MomentValue, AreAttendees, AttendeesAt, AttendeesValue, TextOf, TextValue,
        Get;
    var m := v.fields;
    TextBack(m, "title");
    TextBack(m, "description");
    TextBack(m, "location");
    MomentAtBack(h, m, "start");
    MomentAtBack(h, m, "end");
    AttendeesAtBack(m, "attendees");
    BuildAll(m, ChangeSlots(ChangeOf(h, v, create)), CHANGE_KEYS);
  }

  lemma MailBack(h: Host, v: Value)
    requires IsMail(h, v)
    ensures Obj(Build(MailSlots(MailOf(h, v)))) == v
  {
    hide Build, IsAddress, AddressesOf, AddressesValue, Recipients, DifferInLower;
    var m := v.fields;
    AddressesBack(m["to"]);
    AddressesBack(m["cc"]);
    AddressesBack(m["bcc"]);
    BuildAll(m, MailSlots(MailOf(h, v)), MAIL_KEYS);
  }

  lemma CreateBack(h: Host, q: Value)
    requires IsCreate(h, q)
    ensures Obj(Build(WriteSlots(WriteOf(h, "calendar_event_create", q).value))) == q
  {
    hide Build, Named, IsChange, ChangeOf, ChangeSlots;
    ChangeBack(h, q.fields["event"], true);
    BuildAll(q.fields, WriteSlots(WriteOf(h, "calendar_event_create", q).value), CREATE_KEYS);
  }

  lemma UpdateBack(h: Host, q: Value)
    requires IsUpdate(h, q)
    ensures Obj(Build(WriteSlots(WriteOf(h, "calendar_event_update", q).value))) == q
  {
    hide Build, Named, IsChange, ChangeOf, ChangeSlots;
    ChangeBack(h, q.fields["changes"], false);
    BuildAll(q.fields, WriteSlots(WriteOf(h, "calendar_event_update", q).value), UPDATE_KEYS);
  }

  lemma SendBack(h: Host, q: Value)
    requires IsSend(h, q)
    ensures Obj(Build(WriteSlots(WriteOf(h, "mail_send", q).value))) == q
  {
    hide Build, IsMail, MailOf, MailSlots;
    MailBack(h, q.fields["message"]);
    BuildAll(q.fields, WriteSlots(WriteOf(h, "mail_send", q).value), ["message"]);
  }

  lemma ReplyBack(h: Host, q: Value)
    requires IsReply(h, q)
    ensures Obj(Build(WriteSlots(WriteOf(h, "mail_reply", q).value))) == q
  {
    hide Build, Named, IsMail, MailOf, MailSlots;
    MailBack(h, q.fields["message"]);
    BuildAll(q.fields, WriteSlots(WriteOf(h, "mail_reply", q).value), ["message_id", "message"]);
  }

  lemma WriteBack(h: Host, tool: string, q: Value)
    requires WriteOf(h, tool, q).Some?
    ensures Obj(Build(WriteSlots(WriteOf(h, tool, q).value))) == q
  {
    hide Build, WriteSlots, IsCreate, IsUpdate, IsSend, IsReply, ChangeOf, MailOf;
    if tool == "calendar_event_create" {
      CreateBack(h, q);
    } else if tool == "calendar_event_update" {
      UpdateBack(h, q);
    } else if tool == "mail_send" {
      SendBack(h, q);
    } else {
      ReplyBack(h, q);
    }
  }

  /** The arguments can be rebuilt from what the preview shows, so no accepted field is hidden. */
  lemma Lossless(h: Host, tool: string, v: Value)
    requires PreviewOf(h, tool, v).Some?
    ensures Rebuild(PreviewOf(h, tool, v).value) == v
    ensures PreviewOf(h, tool, Rebuild(PreviewOf(h, tool, v).value)) == PreviewOf(h, tool, v)
  {
    hide Build, WriteSlots, WriteOf, Named;
    WriteBack(h, tool, v.fields["request"]);
    var p := PreviewOf(h, tool, v).value;
    var slots := [Slot("account_key", Some(Str(p.accountKey))),
        Slot("account_updated_at", Some(Str(p.accountRevision))),
                  Slot("request", Some(Obj(Build(WriteSlots(p.write)))))];
    BuildAll(v.fields, slots, ACCOUNT_KEYS);
  }

  /** Two requests that look the same are the same. */
  lemma SamePreviewSameArguments(h: Host, tool: string, v: Value, v': Value)
    requires PreviewOf(h, tool, v).Some? && PreviewOf(h, tool, v) == PreviewOf(h, tool, v')
    ensures v == v'
  {
    hide PreviewOf, Rebuild;
    Lossless(h, tool, v);
    Lossless(h, tool, v');
  }

  /** What a person sees decides what is sent: texts with one preview parse to one value. */
  lemma SamePreviewSameRequest(h: Host, tool: string, text: string, text': string)
    requires AccountWritePreview(h, tool, text).Some? &&
              AccountWritePreview(h, tool, text) == AccountWritePreview(h, tool, text')
    ensures h.json(text) == h.json(text')
  {
    hide PreviewOf;
    SamePreviewSameArguments(h, tool, h.json(text).value, h.json(text').value);
  }

  // ---------- recipients ----------

  function Lowered(h: Host, s: seq<string>): (r: set<string>) {
    set i | 0 <= i < |s| :: h.lower(s[i])
  }

  lemma {:induction false} LoweredSize(h: Host, s: seq<string>)
    ensures |Lowered(h, s)| <= |s|
    ensures |Lowered(h, s)| == |s| <==> DifferInLower(h, s)
  {
    if s == [] {
      assert Lowered(h, s) == {};
    } else {
      var n := |s| - 1;
      var init := s[..n];
      LoweredSize(h, init);
      assert s == init + [s[n]];
      assert Lowered(h, s) == Lowered(h, init) + {h.lower(s[n])};
      if h.lower(s[n]) in Lowered(h, init) {
        var i :| 0 <= i < n && h.lower(init[i]) == h.lower(s[n]);
        assert Lowered(h, s) == Lowered(h, init);
        assert h.lower(s[i]) == h.lower(s[n]);
      } else {
        LoweredApart(h, s);
      }
    }
  }

  lemma LoweredApart(h: Host, s: seq<string>)
    requires s != [] && h.lower(s[|s| - 1]) !in Lowered(h, s[..|s| - 1])
    ensures DifferInLower(h, s) <==> DifferInLower(h, s[..|s| - 1])
  {
    var n := |s| - 1;
    forall i | 0 <= i < n
      ensures h.lower(s[i]) != h.lower(s[n])
    {
      assert s[..n][i] == s[i] && h.lower(s[..n][i]) in Lowered(h, s[..n]);
    }
    forall i, j | 0 <= i < j < |s| && DifferInLower(h, s[..n])
      ensures h.lower(s[i]) != h.lower(s[j])
    {
      if j < n {
        assert s[..n][i] == s[i] && s[..n][j] == s[j];
      }
    }
    forall i, j | 0 <= i < j < n && DifferInLower(h, s)
      ensures h.lower(s[..n][i]) != h.lower(s[..n][j])
    {
      assert s[..n][i] == s[i] && s[..n][j] == s[j];
    }
  }

  function AddressText(v: Value): (s: string)
    requires IsAddress(v)
  {
    v.fields["address"].s
  }

  function ItemsAt(m: map<string, Value>, key: string): (r: seq<Value>) {
    if key in m && m[key].Arr? then m[key].items else []
  }

  ghost predicate GroupsOk(m: map<string, Value>) {
    AreAddresses(m, "to") && AreAddresses(m, "cc") && AreAddresses(m, "bcc")
  }

  /** The loop over the three recipient lists. */
  method CollectRecipients(m: map<string, Value>) returns (r: Option<seq<Value>>)
    ensures r.Some? <==> GroupsOk(m)
    ensures r.Some? ==> r.value == m["to"].items + m["cc"].items + m["bcc"].items
  {
    hide IsAddress;
    var groups := ["to", "cc", "bcc"];
    var all := [];
    for g := 0 to 3
      invariant forall j :: 0 <= j < g ==> AreAddresses(m, groups[j])
      invariant all == (if g > 0 then ItemsAt(m, groups[0]) else []) + (if g > 1 then ItemsAt(m, groups[1]) else [])
                       + (if g > 2 then ItemsAt(m, groups[2]) else [])
    {
      if !AreAddresses(m, groups[g]) {
        assert groups[g] == "to" || groups[g] == "cc" || groups[g] == "bcc";
        return None;
      }
      all := all + ItemsAt(m, groups[g]);
    }
    assert groups[0] == "to" && groups[1] == "cc" && groups[2] == "bcc";
    return Some(all);
  }

  method CheckMessage(h: Host, v: Value) returns (ok: bool)
    ensures ok <==> IsMail(h, v)
  {
    hide IsAddress, DifferInLower;
    if !Keys(v, MAIL_KEYS) || !TextAt(v.fields, "subject") || !TextAt(v.fields, "text") {
      return false;
    }
    var all := CollectRecipients(v.fields);
    if all.None? {
      return false;
    }
    var names := seq(|all.value|,
        i requires 0 <= i < |all.value| => assert IsAddress(all.value[i]); AddressText(all.value[i]));
    assert names == Recipients(v.fields);
    LoweredSize(h, names);
    ok := 0 < |all.value| <= 50 && |Lowered(h, names)| == |all.value|;
  }

  /** All recipients a preview shows. */
  function Shown(m: Mail): (r: seq<Address>) {
    m.to + m.cc + m.bcc
  }

  /** A mail that can be confirmed has 1 to 50 recipients, no two alike up to case, in whichever lists they stand. */
  lemma ConfirmedMailRecipients(h: Host, tool: string, v: Value)
    requires PreviewOf(h, tool, v).Some? && (tool == "mail_send" || tool == "mail_reply")
    ensures var w := PreviewOf(h, tool, v).value.write;
            && (w.MailSend? || w.MailReply?) && 1 <= |Shown(w.mail)| <= 50
            && forall i, j :: 0 <= i < j < |Shown(w.mail)| ==>
                 h.lower(Shown(w.mail)[i].address) != h.lower(Shown(w.mail)[j].address)
  {
    hide IsMail, MailOf, Shown, Named;
    ShownRecipients(h, v.fields["request"].fields["message"]);
  }

  lemma ShownRecipients(h: Host, v: Value)
    requires IsMail(h, v)
    ensures var s := Shown(MailOf(h, v));
            1 <= |s| <= 50 && forall i, j :: 0 <= i < j < |s| ==> h.lower(s[i].address) != h.lower(s[j].address)
  {
    hide IsAddress;
    var s, r := Shown(MailOf(h, v)), Recipients(v.fields);
    assert |s| == |r|;
    forall i | 0 <= i < |s|
      ensures s[i].address == r[i]
    {
    }
  }
}
