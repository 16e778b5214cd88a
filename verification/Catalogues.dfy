/**
 * The catalogue of host-approved knowledge datasources: which entries a
 * workspace is shown, and what opening one of them for a library yields.
 */
module Catalogues {
  import opened Optional
  import opened Text
  import opened Permissions

  /** A constructed knowledge source; `managed` says it implements the managed document interface. */
  datatype Source = Source(managed: bool, identity: string, ready: bool)

  /** What lives outside this repository: hashing and the construction of sources. */
  datatype Provider = Provider(
    digest: Digest,
    newKnowledge: Config -> Option<Source>,
    newAttachment: (Config, string) -> Option<string>)

  datatype Datasource = Datasource(
    key: string, name: string, description: string, knowledge: Config, permissionIDs: seq<ID>)

  datatype Definition = Definition(key: string, name: string, description: string, sourceID: string)

  datatype Entry = Entry(config: Datasource, definition: Definition)

  datatype Scope = Scope(runtimeID: string, workspaceID: string, libraryID: string)

  const PLACEHOLDER := "lib_00000000000000000000000000000000"

  predicate AlphaNumeric(c: char) {
    'A' <= c <= 'Z' || 'a' <= c <= 'z' || '0' <= c <= '9'
  }

  predicate KeyOk(s: string) {
    1 <= |s| <= 96 && AlphaNumeric(s[0]) && forall c <- s[1..] :: AlphaNumeric(c) || c in "_.:-"
  }

  predicate LibraryIDOk(s: string) {
    |s| == 36 && s[..4] == "lib_" && forall c <- s[4..] :: '0' <= c <= '9' || 'a' <= c <= 'f'
  }

  predicate FieldsOk(e: Datasource) {
    && KeyOk(e.key) && !Blank(e.name) && ByteLen(e.name) <= 128 && ByteLen(e.description) <= 1024
    && !e.knowledge.dynamicIDs && !e.knowledge.authorizeWorkspace && e.knowledge.documentIDs.None?
  }

  /** The entry as the catalogue keeps it. */
  function Stored(e: Datasource): (r: Datasource) {
    e.(knowledge := e.knowledge.(workspaceID := TrimSpace(e.knowledge.workspaceID)))
  }

  function BoundFor(p: Provider, runtimeID: string, libraryID: string, e: Datasource): (r: Bound) {
    Bind(p.digest, libraryID, e.knowledge, true, e.permissionIDs, runtimeID)
  }

  function SourceFor(p: Provider, runtimeID: string, libraryID: string, e: Datasource): (r: Option<Source>) {
    match BoundFor(p, runtimeID, libraryID, e)
    case Refused => None
    case Bound(_, k) => p.newKnowledge(k.(documentManagement := true))
  }

  predicate EntryOk(p: Provider, runtimeID: string, e: Datasource) {
    var s := SourceFor(p, runtimeID, PLACEHOLDER, e);
    FieldsOk(e) && s.Some? && s.value.ready
  }

  function EntryOf(p: Provider, runtimeID: string, e: Datasource): (r: Entry)
    requires EntryOk(p, runtimeID, e)
  {
    Entry(e, Definition(e.key, e.name, e.description, SourceFor(p, runtimeID, PLACEHOLDER, e).value.identity))
  }

  /** What assembly guarantees of every entry it stores. */
  ghost predicate Sound(p: Provider, runtimeID: string, entries: map<string, Entry>) {
    forall key <- entries ::
      var e := entries[key];
      e.config.key == key && EntryOk(p, runtimeID, e.config) && e == EntryOf(p, runtimeID, e.config)
  }

  predicate Visible(entries: map<string, Entry>, key: string, workspaceID: string) {
    key in entries && entries[key].config.knowledge.workspaceID == workspaceID
  }

  predicate PassesScope(runtimeID: string, entries: map<string, Entry>, key: string, scope: Scope) {
    scope.runtimeID == runtimeID && Visible(entries, key, scope.workspaceID) && LibraryIDOk(scope.libraryID)
  }

  // ---------- listing ----------

  ghost predicate KeysIncrease(s: seq<Definition>) {
    forall i, j :: 0 <= i < j < |s| ==> Below(s[i].key, s[j].key)
  }

  ghost predicate KeysDiffer(s: seq<Definition>) {
    forall i, j :: 0 <= i < j < |s| ==> s[i].key != s[j].key
  }

  /** The listing a workspace must get, said without reference to any order of visiting. */
  ghost predicate IsListing(entries: map<string, Entry>, workspaceID: string, s: seq<Definition>) {
    && KeysIncrease(s)
    && forall d :: d in s <==> exists key :: Visible(entries, key, workspaceID) && entries[key].definition == d
  }

  function Place(x: Definition, s: seq<Definition>): (r: seq<Definition>)
    ensures |r| == |s| + 1
    ensures forall d :: d in r <==> d == x || d in s
  {
    if s == [] || Below(x.key, s[0].key) then [x] + s else
      assert s == [s[0]] + s[1..];
      [s[0]] + Place(x, s[1..])
  }

  /** slices.SortFunc with strings.Compare on the keys. */
  function SortedByKey(s: seq<Definition>): (r: seq<Definition>)
    ensures forall d :: d in r <==> d in s
  {
    if s == [] then [] else
      assert s == [s[0]] + s[1..];
      Place(s[0], SortedByKey(s[1..]))
  }

  lemma {:induction false} PlaceKeepsOrder(x: Definition, s: seq<Definition>)
    requires KeysIncrease(s) && forall d <- s :: d.key != x.key
    ensures KeysIncrease(Place(x, s))
  {
    if s == [] {
    } else if Below(x.key, s[0].key) {
      forall j | 0 <= j < |s|
        ensures Below(x.key, s[j].key)
      {
        if j > 0 {
          BelowTransitive(x.key, s[0].key, s[j].key);
        }
      }
    } else {
      BelowTotal(x.key, s[0].key);
      assert s[0] in s;
      PlaceKeepsOrder(x, s[1..]);
      var r := Place(x, s[1..]);
      forall j | 0 <= j < |r|
        ensures Below(s[0].key, r[j].key)
      {
        assert r[j] in r;
      }
    }
  }

  lemma {:induction false} SortingOrders(s: seq<Definition>)
    requires KeysDiffer(s)
    ensures KeysIncrease(SortedByKey(s))
  {
    if s != [] {
      SortingOrders(s[1..]);
      PlaceKeepsOrder(s[0], SortedByKey(s[1..]));
    }
  }

  /** A listing is determined by the catalogue and the workspace alone. */
  lemma {:induction false} ListingIsUnique(s: seq<Definition>, t: seq<Definition>)
    requires KeysIncrease(s) && KeysIncrease(t) && forall d :: d in s <==> d in t
    ensures s == t
  {
    if s == [] {
      EmptyHasNoMembers(t);
    } else {
      LeastFirst(s, t);
      assert s == [s[0]] + s[1..] && t == [s[0]] + t[1..];
      forall d
        ensures d in s[1..] <==> d in t[1..]
      {
        AbsentFromTail(s);
        AbsentFromTail(t);
        assert d in s <==> d == s[0] || d in s[1..];
        assert d in t <==> d == s[0] || d in t[1..];
      }
      ListingIsUnique(s[1..], t[1..]);
    }
  }

  lemma EmptyHasNoMembers(t: seq<Definition>)
    ensures t == [] || exists d :: d in t
  {
    if t != [] {
      assert t[0] in t;
    }
  }

  lemma LeastFirst(s: seq<Definition>, t: seq<Definition>)
    requires KeysIncrease(s) && KeysIncrease(t) && s != [] && forall d :: d in s <==> d in t
    ensures t != [] && t[0] == s[0]
  {
    assert s[0] in t;
    assert t[0] in s;
    var i :| 0 <= i < |t| && t[i] == s[0];
    var j :| 0 <= j < |s| && s[j] == t[0];
    BelowTotal(s[0].key, t[0].key);
  }

  lemma AbsentFromTail(s: seq<Definition>)
    requires KeysIncrease(s) && s != []
    ensures s[0] !in s[1..]
  {
    BelowTotal(s[0].key, s[0].key);
  }

  /** An entry in memory: its permission IDs are a list that bindings share with it. */
  datatype Kept = Kept(
    key: string, name: string, description: string, knowledge: Config, permissionIDs: array<ID>, definition: Definition)

  function EntryIn(k: Kept): (e: Entry)
    reads k.permissionIDs
  {
    Entry(Datasource(k.key, k.name, k.description, k.knowledge, k.permissionIDs[..]), k.definition)
  }

  ghost function EntriesIn(kept: map<string, Kept>): (r: map<string, Entry>)
    reads set key | key in kept :: kept[key].permissionIDs
    ensures r.Keys == kept.Keys && forall key <- kept :: r[key] == EntryIn(kept[key])
  {
    map key | key in kept :: EntryIn(kept[key])
  }

  /** knowledgeDatasourceCatalog. */
  class Catalogue {
    const runtimeID: string
    var kept: map<string, Kept>

    constructor (runtimeID: string, kept: map<string, Kept>)
      ensures this.runtimeID == runtimeID && this.kept == kept
    {
      this.runtimeID, this.kept := runtimeID, kept;
    }

    /** What the catalogue holds, lists included. */
    ghost function Entries(): (r: map<string, Entry>)
      reads this, set key | key in kept :: kept[key].permissionIDs
    {
      EntriesIn(kept)
    }

    method KnowledgeDatasources(cancelled: bool, scope: Scope) returns (r: Option<seq<Definition>>)
      requires forall key <- kept :: kept[key].definition.key == key
      ensures r.Some? <==> !cancelled && scope.runtimeID == runtimeID && scope.workspaceID != ""
      ensures r.Some? ==> IsListing(Entries(), scope.workspaceID, r.value)
    {
      if cancelled || scope.runtimeID != runtimeID || scope.workspaceID == "" {
        return None;
      }
      var out := [];
      var rest := kept.Keys;
      ghost var entries := Entries();
      while rest != {}
        invariant rest <= kept.Keys
        invariant KeysDiffer(out) && forall d <- out :: d.key !in rest
        invariant forall d ::
            d in out <==>
              exists key :: key !in rest && Visible(entries, key, scope.workspaceID) && entries[key].definition == d
        decreases |rest|
      {
        var key :| key in rest;
        rest := rest - {key};
        if kept[key].knowledge.workspaceID == scope.workspaceID {
          out := out + [kept[key].definition];
        }
      }
      SortingOrders(out);
      return Some(SortedByKey(out));
    }

    /** The binding made here shares the entry's list, and the entry keeps it as it was. */
    method OpenKnowledgeDatasource(p: Provider, cancelled: bool, key: string, scope: Scope) returns (r: Option<Source>)
      ensures Entries() == old(Entries())
      ensures r == if !cancelled && PassesScope(runtimeID, Entries(), key, scope)
                   then SourceFor(p, runtimeID, scope.libraryID, Entries()[key].config) else None
    {
      hide Bind, LibraryIDOk;
      if cancelled || key !in kept {
        return None;
      }
      var e := kept[key];
      if scope.runtimeID != runtimeID || scope.workspaceID != e.knowledge.workspaceID || !LibraryIDOk(scope.libraryID) {
        return None;
      }
      r := OpenFor(p, runtimeID, scope.libraryID, e.knowledge, e.permissionIDs, Entries()[key].config);
    }
  }

  /** Binds a copy of the entry, list shared, to one library and constructs its source. */
  method OpenFor(p: Provider, runtimeID: string, libraryID: string, k: Config, ids: array<ID>, ghost e: Datasource)
    returns (r: Option<Source>)
    requires e.knowledge == k && e.permissionIDs == ids[..]
    ensures r == SourceFor(p, runtimeID, libraryID, e)
  {
    hide Bind;
    var binding := BindShared(p.digest, libraryID, k, true, ids, runtimeID);
    if binding.Refused? {
      return None;
    }
    return p.newKnowledge(binding.knowledge.(documentManagement := true));
  }

  datatype Request = Request(key: string, scope: Scope)

  /** Any sequence of opens: each is answered from the entries as they were, which are still the same at the end. */
  method OpenInTurn(p: Provider, c: Catalogue, requests: seq<Request>) returns (answers: seq<Option<Source>>)
    ensures c.Entries() == old(c.Entries()) && |answers| == |requests|
    ensures forall i :: 0 <= i < |requests| ==>
              answers[i] == if PassesScope(c.runtimeID, old(c.Entries()), requests[i].key, requests[i].scope)
                            then SourceFor(p, c.runtimeID, requests[i].scope.libraryID,
                                old(c.Entries())[requests[i].key].config) else None
  {
    hide SourceFor, LibraryIDOk;
    answers := [];
    for i := 0 to |requests|
      invariant |answers| == i
      invariant forall j :: 0 <= j < i ==>
                  answers[j] == if PassesScope(c.runtimeID, old(c.Entries()), requests[j].key, requests[j].scope)
                                then SourceFor(p, c.runtimeID, requests[j].scope.libraryID,
                                    old(c.Entries())[requests[j].key].config) else None
    {
      var answer := c.OpenKnowledgeDatasource(p, false, requests[i].key, requests[i].scope);
      answers := answers + [answer];
    }
  }

  // ---------- listing and opening agree ----------

  /**
   * A key is listed in a workspace exactly when opening it there, for any well-formed library, passes the
   * scope checks.
   */
  lemma ListedExactlyWhenOpenable(p: Provider, runtimeID: string, entries: map<string, Entry>, key: string,
      scope: Scope, s: seq<Definition>)
    requires Sound(p, runtimeID, entries) && IsListing(entries, scope.workspaceID, s)
    requires scope.runtimeID == runtimeID && LibraryIDOk(scope.libraryID)
    ensures (exists d <- s :: d.key == key) <==> PassesScope(runtimeID, entries, key, scope)
  {
    hide EntryOk, LibraryIDOk;
    if exists d <- s :: d.key == key {
      var d :| d in s && d.key == key;
      var k :| Visible(entries, k, scope.workspaceID) && entries[k].definition == d;
      assert k == key;
    }
    if PassesScope(runtimeID, entries, key, scope) {
      assert Visible(entries, key, scope.workspaceID);
      assert entries[key].definition in s;
    }
  }

  /** Printable ASCII without the space. */
  ghost predicate Plain(s: string) {
    forall i :: 0 <= i < |s| ==> ' ' < s[i] < '\U{7F}'
  }

  lemma {:induction false} PlainLength(s: string)
    requires Plain(s)
    ensures ByteLen(s) == |s|
  {
    if s != "" {
      PlainLength(s[..|s| - 1]);
    }
  }

  /** Printable, not empty and at most 128 long: an acceptable permission ID. */
  lemma PlainIsAcceptable(s: string)
    requires Plain(s) && 0 < |s| <= 128
    ensures TextOk(s)
  {
    PlainLength(s);
    TrimLeavesSolid(s);
  }

  lemma TrimLeavesSolid(s: string)
    requires s != "" && !IsSpace(s[0]) && !IsSpace(s[|s| - 1])
    ensures TrimSpace(s) == s
  {
  }

  /** Every generated scope is itself an acceptable permission ID. */
  lemma DefaultScopeIsAcceptable(digest: Digest, runtimeID: string, workspaceID: string, libraryID: string)
    requires HexDigest(digest)
    ensures TextOk(DefaultScope(digest, runtimeID, workspaceID, libraryID))
  {
    hide TextOk, TrimSpace;
    var hex := digest(runtimeID, TrimSpace(workspaceID), libraryID);
    assert Plain(hex) by {
      assert forall i :: 0 <= i < |hex| ==> hex[i] in hex;
    }
    assert Plain("scope:agent:library:");
    PlainIsAcceptable("scope:agent:library:" + hex);
  }

  lemma LibraryIDsAreNotBlank(id: string)
    requires LibraryIDOk(id)
    ensures !Blank(id)
  {
    assert id[0] == id[..4][0] == 'l';
    assert id[0] in id;
    BlankIsAllSpace(id);
  }

  /** Once an entry is in the catalogue, binding permissions for a well-formed library cannot fail. */
  lemma BindingNeverFails(p: Provider, runtimeID: string, e: Datasource, libraryID: string)
    requires HexDigest(p.digest) && EntryOk(p, runtimeID, e) && LibraryIDOk(libraryID)
    ensures BoundFor(p, runtimeID, libraryID, e).Bound?
  {
    hide TextOk, Canonical, DefaultScope, Blank, KeyOk, LibraryIDOk;
    LibraryIDsAreNotBlank(libraryID);
    DefaultScopeIsAcceptable(p.digest, runtimeID, e.knowledge.workspaceID, libraryID);
  }

  /** An entry with fixed permissions opens with the same configuration for every library. */
  lemma FixedEntriesOpenAlike(p: Provider, runtimeID: string, e: Datasource, l: string, l': string)
    requires HexDigest(p.digest) && EntryOk(p, runtimeID, e) && e.permissionIDs != [] && LibraryIDOk(l) &&
              LibraryIDOk(l')
    ensures BoundFor(p, runtimeID, l, e) == BoundFor(p, runtimeID, l', e)
    ensures SourceFor(p, runtimeID, l, e) == SourceFor(p, runtimeID, PLACEHOLDER, e)
  {
    hide TextOk, Canonical, Blank, KeyOk, LibraryIDOk;
  }

  /** An entry without fixed permissions opens with another document scope for every library. */
  lemma DefaultEntriesOpenApart(p: Provider, runtimeID: string, e: Datasource, l: string, l': string)
    requires HexDigest(p.digest) && InjectiveDigest(p.digest) && EntryOk(p, runtimeID, e) && e.permissionIDs == []
    requires LibraryIDOk(l) && LibraryIDOk(l') && l != l'
    ensures var b, b' := BoundFor(p, runtimeID, l, e), BoundFor(p, runtimeID, l', e);
            b.Bound? && b'.Bound? && b.knowledge.documentIDs != b'.knowledge.documentIDs
  {
    hide Bind, LibraryIDOk, KeyOk;
    BindingNeverFails(p, runtimeID, e, l);
    BindingNeverFails(p, runtimeID, e, l');
    DefaultScopesDiffer(p.digest, l, l', e.knowledge, e.knowledge, true, true, runtimeID, runtimeID);
  }

  /** Identity of a source is decided by the remote base alone. */
  ghost predicate IdentityOfRemote(p: Provider) {
    forall k: Config, k': Config :: k.remote == k'.remote && p.newKnowledge(k).Some? && p.newKnowledge(k').Some? ==>
                      p.newKnowledge(k).value.identity == p.newKnowledge(k').value.identity
  }

  /** What is opened is what was listed: the source has the identity the definition showed. */
  lemma OpensWhatWasListed(p: Provider, runtimeID: string, entries: map<string, Entry>, key: string, libraryID: string)
    requires IdentityOfRemote(p) && Sound(p, runtimeID, entries) && key in entries
    requires SourceFor(p, runtimeID, libraryID, entries[key].config).Some?
    ensures SourceFor(p, runtimeID, libraryID, entries[key].config).value.identity == entries[key].definition.sourceID
  {
    hide FieldsOk, Canonical, TextOk, Blank;
    var e := entries[key].config;
    var b, b' := BoundFor(p, runtimeID, libraryID, e), BoundFor(p, runtimeID, PLACEHOLDER, e);
    assert b.Bound? && b'.Bound?;
    assert b.knowledge.remote == b'.knowledge.remote == e.knowledge.remote;
  }
}
