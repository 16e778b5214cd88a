/**
 * Assembly of a module's knowledge sources: the default source, libraries,
 * the datasource catalogue and attachment sources, allocated so that no remote
 * knowledge base serves two of them.
 */
module Sources {
  import opened Optional
  import opened Text
  import opened Permissions
  import opened Catalogues

  datatype Library = Library(libraryID: string, knowledge: Config, manageDocuments: bool, permissionIDs: seq<ID>)

  /** A configured library in memory; the loop's copy of it shares its list of IDs. */
  datatype LibraryEntry = LibraryEntry(libraryID: string, knowledge: Config, manageDocuments: bool,
      permissionIDs: array<ID>)

  function LibraryIn(e: LibraryEntry): (c: Library)
    reads e.permissionIDs
  {
    Library(e.libraryID, e.knowledge, e.manageDocuments, e.permissionIDs[..])
  }

  datatype LibraryBinding = LibraryBinding(libraryID: string, workspaceID: string, source: Source,
      manageDocuments: bool)

  /** The identity is absent for a nil source. */
  datatype AttachmentBinding = AttachmentBinding(workspaceID: string, knowledge: Option<string>)

  datatype Datasources = NoCatalogue | BuiltIn(catalogue: Catalogue) | Foreign

  class ConversationOptions {
    var knowledge: Option<Source>
    var libraries: seq<LibraryBinding>
    var datasources: Datasources
    var attachments: seq<AttachmentBinding>

    constructor (knowledge: Option<Source>, libraries: seq<LibraryBinding>, datasources: Datasources,
        attachments: seq<AttachmentBinding>)
      ensures this.knowledge == knowledge && this.libraries == libraries
      ensures this.datasources == datasources && this.attachments == attachments
    {
      this.knowledge, this.libraries := knowledge, libraries;
      this.datasources, this.attachments := datasources, attachments;
    }
  }

  ghost predicate Distinct<T>(s: seq<T>) {
    forall i, j :: 0 <= i < j < |s| ==> s[i] != s[j]
  }

  // ---------- libraries ----------

  function LibraryBound(p: Provider, runtimeID: string, c: Library): (r: Bound) {
    Bind(p.digest, c.libraryID, c.knowledge, c.manageDocuments, c.permissionIDs, runtimeID)
  }

  function LibrarySource(p: Provider, runtimeID: string, c: Library): (r: Option<Source>) {
    match LibraryBound(p, runtimeID, c)
    case Refused => None
    case Bound(_, k) => p.newKnowledge(k.(documentManagement := c.manageDocuments, runtimeID := runtimeID))
  }

  predicate LibraryOk(p: Provider, runtimeID: string, c: Library) {
    !c.knowledge.authorizeWorkspace && LibrarySource(p, runtimeID, c).Some?
  }

  function LibraryBindingOf(p: Provider, runtimeID: string, c: Library): (r: LibraryBinding)
    requires LibraryOk(p, runtimeID, c)
  {
    LibraryBinding(c.libraryID, TrimSpace(c.knowledge.workspaceID), LibrarySource(p, runtimeID, c).value,
        c.manageDocuments)
  }

  function LibraryBindings(p: Provider, runtimeID: string, cs: seq<Library>): (r: seq<LibraryBinding>)
    requires forall c <- cs :: LibraryOk(p, runtimeID, c)
    ensures |r| == |cs|
    ensures forall i :: 0 <= i < |cs| ==> r[i] == LibraryBindingOf(p, runtimeID, cs[i])
  {
    seq(|cs|, i requires 0 <= i < |cs| => assert cs[i] in cs; LibraryBindingOf(p, runtimeID, cs[i]))
  }

  function Remotes(cs: seq<Library>): (r: seq<string>)
    ensures |r| == |cs| && forall i :: 0 <= i < |cs| ==> r[i] == cs[i].knowledge.remote
  {
    seq(|cs|, i requires 0 <= i < |cs| => cs[i].knowledge.remote)
  }

  /** Every remote base is dedicated to one library, and none is the default source's. */
  ghost predicate RemotesApart(cs: seq<Library>, legacy: Option<Config>) {
    && Distinct(Remotes(cs))
    && forall c <- cs :: legacy.Some? ==> c.knowledge.remote != legacy.value.remote
  }

  ghost predicate LibrariesAccepted(p: Provider, runtimeID: string, cs: seq<Library>, legacy: Option<Config>,
      existing: seq<LibraryBinding>) {
    cs == [] || (|cs| <= 1000 && existing == [] && RemotesApart(cs, legacy) &&
        forall c <- cs :: LibraryOk(p, runtimeID, c))
  }

  /**
   * `legacy` is the default source's configuration, when one is configured.  The configured entries, as
   * they stand in memory, say the same before and after.
   */
  method AssembleLibraryKnowledge(p: Provider, options: ConversationOptions, entries: seq<LibraryEntry>,
      ghost configured: seq<Library>, legacy: Option<Config>, runtimeID: string)
    returns (ok: bool)
    requires |configured| == |entries| && forall i :: 0 <= i < |entries| ==> LibraryIn(entries[i]) == configured[i]
    modifies options`libraries
    ensures forall i :: 0 <= i < |entries| ==> LibraryIn(entries[i]) == configured[i]
    ensures ok <==> LibrariesAccepted(p, runtimeID, configured, legacy, old(options.libraries))
    ensures ok ==> options.libraries ==
                     if configured == [] then old(options.libraries) else LibraryBindings(p, runtimeID, configured)
  {
    hide LibraryOk, LibraryBindingOf;
    if |entries| == 0 {
      return true;
    }
    if |entries| > 1000 || |options.libraries| > 0 {
      return false;
    }
    var seen := {};
    if legacy.Some? {
      seen := {legacy.value.remote};
    }
    for i := 0 to |entries|
      invariant |options.libraries| == i
      invariant forall j :: 0 <= j < i ==>
                  LibraryOk(p, runtimeID, configured[j]) &&
                      options.libraries[j] == LibraryBindingOf(p, runtimeID, configured[j])
      invariant forall x :: x in seen <==>
                  || (legacy.Some? && x == legacy.value.remote)
                  || exists j :: 0 <= j < i && configured[j].knowledge.remote == x
      invariant RemotesApart(configured[..i], legacy)
    {
      var e := entries[i];
      assert configured[i] in configured && configured[i] == LibraryIn(e);
      if e.knowledge.remote in seen {
        SharedRemote(configured, legacy, i);
        return false;
      }
      assert configured[..i + 1] == configured[..i] + [configured[i]];
      seen := seen + {e.knowledge.remote};
      var source := BindLibrary(p, runtimeID, e);
      if source.None? {
        return false;
      }
      options.libraries := options.libraries + [source.value];
    }
    assert configured[..|configured|] == configured;
    return true;
  }

  lemma SharedRemote(cs: seq<Library>, legacy: Option<Config>, i: nat)
    requires i < |cs|
    requires || (legacy.Some? && cs[i].knowledge.remote == legacy.value.remote)
             || exists j :: 0 <= j < i && cs[j].knowledge.remote == cs[i].knowledge.remote
    ensures !RemotesApart(cs, legacy)
  {
    assert cs[i] in cs;
    if exists j :: 0 <= j < i && cs[j].knowledge.remote == cs[i].knowledge.remote {
      var j :| 0 <= j < i && cs[j].knowledge.remote == cs[i].knowledge.remote;
      assert Remotes(cs)[j] == Remotes(cs)[i];
    }
  }

  /** One turn of the loop, on a copy of the configured binding. */
  method BindLibrary(p: Provider, runtimeID: string, e: LibraryEntry) returns (r: Option<LibraryBinding>)
    ensures r.Some? <==> LibraryOk(p, runtimeID, LibraryIn(e))
    ensures r.Some? ==> r.value == LibraryBindingOf(p, runtimeID, LibraryIn(e))
  {
    hide Bind;
    if e.knowledge.authorizeWorkspace {
      return None;
    }
    var binding := BindShared(p.digest, e.libraryID, e.knowledge, e.manageDocuments, e.permissionIDs, runtimeID);
    if binding.Refused? {
      return None;
    }
    BindKeepsWorkspace(p.digest, e.libraryID, e.knowledge, e.manageDocuments, e.permissionIDs[..], runtimeID);
    var knowledge := binding.knowledge.(documentManagement := e.manageDocuments);
    knowledge := knowledge.(runtimeID := runtimeID);
    var source := p.newKnowledge(knowledge);
    if source.None? {
      return None;
    }
    return Some(LibraryBinding(e.libraryID, TrimSpace(knowledge.workspaceID), source.value, e.manageDocuments));
  }

  lemma BindKeepsWorkspace(digest: Digest, libraryID: string, k: Config, manage: bool, ids: seq<ID>, runtimeID: string)
    ensures var r := Bind(digest, libraryID, k, manage, ids, runtimeID);
            r.Bound? ==> r.knowledge.workspaceID == k.workspaceID && r.knowledge.remote == k.remote
  {
    hide TextOk, Canonical, DefaultScope, Blank;
  }

  // ---------- the catalogue ----------

  function ManagedIdentity(s: Source): (r: set<string>) {
    if s.managed then {s.identity} else {}
  }

  /** Identities of the managed default source and the managed libraries. */
  function ManagedIdentities(knowledge: Option<Source>, libraries: seq<LibraryBinding>): (r: set<string>) {
    (if knowledge.Some? then ManagedIdentity(knowledge.value) else {})
    + set b | b in libraries && b.source.managed :: b.source.identity
  }

  method CollectManaged(knowledge: Option<Source>, libraries: seq<LibraryBinding>) returns (seen: set<string>)
    ensures seen == ManagedIdentities(knowledge, libraries)
  {
    seen := if knowledge.Some? then ManagedIdentity(knowledge.value) else {};
    for i := 0 to |libraries|
      invariant seen == ManagedIdentities(knowledge, libraries[..i])
    {
      assert libraries[..i + 1] == libraries[..i] + [libraries[i]];
      seen := seen + ManagedIdentity(libraries[i].source);
    }
    assert libraries[..|libraries|] == libraries;
  }

  /** A configured datasource in memory. */
  datatype DatasourceEntry = DatasourceEntry(
    key: string, name: string, description: string, knowledge: Config, permissionIDs: array<ID>)

  function DatasourceIn(e: DatasourceEntry): (d: Datasource)
    reads e.permissionIDs
  {
    Datasource(e.key, e.name, e.description, e.knowledge, e.permissionIDs[..])
  }

  function Keys(es: seq<Datasource>): (r: seq<string>)
    ensures |r| == |es| && forall i :: 0 <= i < |es| ==> r[i] == es[i].key
  {
    seq(|es|, i requires 0 <= i < |es| => es[i].key)
  }

  function IdentityOf(p: Provider, runtimeID: string, e: Datasource): (r: string)
    requires EntryOk(p, runtimeID, Stored(e))
  {
    SourceFor(p, runtimeID, PLACEHOLDER, Stored(e)).value.identity
  }

  ghost predicate AllEntriesOk(p: Provider, runtimeID: string, es: seq<Datasource>) {
    forall e <- es :: EntryOk(p, runtimeID, Stored(e))
  }

  function Identities(p: Provider, runtimeID: string, es: seq<Datasource>): (r: seq<string>)
    requires forall e <- es :: EntryOk(p, runtimeID, Stored(e))
    ensures |r| == |es| && forall i :: 0 <= i < |es| ==> r[i] == IdentityOf(p, runtimeID, es[i])
  {
    seq(|es|, i requires 0 <= i < |es| => assert es[i] in es; IdentityOf(p, runtimeID, es[i]))
  }

  /** No two entries share a key or a remote base, and none takes a base already in use. */
  ghost predicate EntriesApart(p: Provider, runtimeID: string, es: seq<Datasource>, taken: set<string>)
    requires AllEntriesOk(p, runtimeID, es)
  {
    && Distinct(Keys(es)) && Distinct(Identities(p, runtimeID, es))
    && forall x <- Identities(p, runtimeID, es) :: x !in taken
  }

  ghost predicate DatasourcesAccepted(p: Provider, runtimeID: string, es: seq<Datasource>, taken: set<string>,
      before: Datasources) {
    es == [] || (before.NoCatalogue? && |es| <= 1000 && AllEntriesOk(p, runtimeID, es) &&
        EntriesApart(p, runtimeID, es, taken))
  }

  /** The catalogue holds exactly the configured entries, each under its key. */
  ghost predicate Holds(p: Provider, runtimeID: string, es: seq<Datasource>, entries: map<string, Entry>)
    requires AllEntriesOk(p, runtimeID, es)
  {
    && (forall key :: key in entries <==> key in Keys(es))
    && forall i :: 0 <= i < |es| ==> es[i].key in entries && entries[es[i].key] == EntryOf(p, runtimeID, Stored(es[i]))
  }

  /** No list the catalogue keeps is one of the configured lists. */
  ghost predicate Cloned(configured: seq<DatasourceEntry>, kept: map<string, Kept>) {
    forall key <- kept, e <- configured :: kept[key].permissionIDs != e.permissionIDs
  }

  /**
   * The configured entries, collected into a catalogue one by one.  The catalogue has its own copies of
   * their lists, so a host that changes its configuration later changes no entry.
   */
  method AssembleKnowledgeDatasources(p: Provider, options: ConversationOptions, configured: seq<DatasourceEntry>,
      ghost ds: seq<Datasource>, runtimeID: string)
    returns (ok: bool, ghost entries: map<string, Entry>)
    requires |ds| == |configured| && forall i :: 0 <= i < |ds| ==> DatasourceIn(configured[i]) == ds[i]
    modifies options`datasources
    ensures forall i :: 0 <= i < |ds| ==> DatasourceIn(configured[i]) == ds[i]
    ensures ok <==> DatasourcesAccepted(p, runtimeID, ds, ManagedIdentities(options.knowledge, options.libraries),
              old(options.datasources))
    ensures !ok || ds == [] ==> options.datasources == old(options.datasources)
    ensures ok && ds != [] ==>
      && options.datasources.BuiltIn? && fresh(options.datasources.catalogue)
      && options.datasources.catalogue.runtimeID == runtimeID
      && Cloned(configured, options.datasources.catalogue.kept) &&
           options.datasources.catalogue.kept.Keys == entries.Keys
      && (forall key <- entries :: EntryIn(options.datasources.catalogue.kept[key]) == entries[key])
      && Holds(p, runtimeID, ds, entries)
  {
    hide EntryOk, Stored, SourceFor, ManagedIdentities, Cloned, EntriesApart, Holds;
    entries := map[];
    if |configured| == 0 {
      return true, entries;
    }
    if !options.datasources.NoCatalogue? || |configured| > 1000 {
      return false, entries;
    }
    var managed := CollectManaged(options.knowledge, options.libraries);
    var kept;
    kept, entries := CollectEntries(p, runtimeID, configured, ds, managed);
    if kept.None? {
      return false, entries;
    }
    var catalogue := new Catalogue(runtimeID, kept.value);
    options.datasources := BuiltIn(catalogue);
    return true, entries;
  }

  method CollectEntries(p: Provider, runtimeID: string, configured: seq<DatasourceEntry>, ghost ds: seq<Datasource>,
      managed: set<string>)
    returns (r: Option<map<string, Kept>>, ghost entries: map<string, Entry>)
    requires |ds| == |configured| && forall i :: 0 <= i < |ds| ==> DatasourceIn(configured[i]) == ds[i]
    ensures r.Some? <==> AllEntriesOk(p, runtimeID, ds) && EntriesApart(p, runtimeID, ds, managed)
    ensures r.Some? ==> Cloned(configured, r.value) && Holds(p, runtimeID, ds, entries)
    ensures r.Some? ==> r.value.Keys == entries.Keys && forall key <- entries :: EntryIn(r.value[key]) == entries[key]
  {
    hide EntryOk, SourceFor, FieldsOk, Stored, IdentityOf, EntryOf, EntriesApart, EntryIn, DatasourceIn;
    var kept: map<string, Kept> := map[];
    entries := map[];
    var seen := managed;
    NothingApart(p, runtimeID, managed);
    assert ds[..0] == [];
    for i := 0 to |configured|
      invariant AllEntriesOk(p, runtimeID, ds[..i])
      invariant EntriesApart(p, runtimeID, ds[..i], managed)
      invariant kept.Keys == entries.Keys
      invariant forall key <- kept :: fresh(kept[key].permissionIDs) && EntryIn(kept[key]) == entries[key]
      invariant Holds(p, runtimeID, ds[..i], entries)
      invariant forall x :: x in seen <==> x in managed || x in Identities(p, runtimeID, ds[..i])
    {
      var e := configured[i];
      assert ds[i] in ds;
      EntryKey(e);
      var next := CheckEntry(p, runtimeID, e);
      if next.None? {
        return None, entries;
      }
      if e.key in kept || next.value.definition.sourceID in seen {
        Collides(p, runtimeID, ds, i, managed);
        return None, entries;
      }
      AppendEntry(p, runtimeID, ds, i, managed, entries);
      seen := seen + {next.value.definition.sourceID};
      kept, entries := kept[e.key := next.value], entries[e.key := EntryIn(next.value)];
    }
    assert ds[..|ds|] == ds;
    return Some(kept), entries;
  }

  lemma EntryKey(e: DatasourceEntry)
    ensures DatasourceIn(e).key == e.key
  {
  }

  lemma NothingApart(p: Provider, runtimeID: string, managed: set<string>)
    ensures EntriesApart(p, runtimeID, [], managed)
  {
  }

  method Clone(ids: array<ID>) returns (copy: array<ID>)
    ensures fresh(copy) && copy[..] == ids[..]
  {
    copy := new ID[ids.Length](i requires 0 <= i < ids.Length reads ids => ids[i]);
  }

  /** The checks on one entry, up to the construction of its source; the entry kept has its own copy of the list. */
  method CheckEntry(p: Provider, runtimeID: string, e: DatasourceEntry) returns (r: Option<Kept>)
    ensures r.Some? <==> EntryOk(p, runtimeID, Stored(DatasourceIn(e)))
    ensures r.Some? ==> fresh(r.value.permissionIDs)
    ensures r.Some? ==> EntryIn(r.value) == EntryOf(p, runtimeID, Stored(DatasourceIn(e)))
    ensures r.Some? ==> r.value.definition.sourceID == IdentityOf(p, runtimeID, DatasourceIn(e))
  {
    hide SourceFor, KeyOk, Blank;
    if !FieldsOk(Datasource(e.key, e.name, e.description, e.knowledge, [])) {
      return None;
    }
    var knowledge := e.knowledge.(workspaceID := TrimSpace(e.knowledge.workspaceID));
    var ids := Clone(e.permissionIDs);
    var source := OpenFor(p, runtimeID, PLACEHOLDER, knowledge, ids, Stored(DatasourceIn(e)));
    if source.None? || !source.value.ready {
      return None;
    }
    return Some(Kept(e.key, e.name, e.description, knowledge, ids,
        Definition(e.key, e.name, e.description, source.value.identity)));
  }

  lemma Collides(p: Provider, runtimeID: string, es: seq<Datasource>, i: nat, managed: set<string>)
    requires i < |es| && AllEntriesOk(p, runtimeID, es[..i]) && EntryOk(p, runtimeID, Stored(es[i]))
    requires es[i].key in Keys(es[..i]) || IdentityOf(p, runtimeID, es[i]) in managed ||
              IdentityOf(p, runtimeID, es[i]) in Identities(p, runtimeID, es[..i])
    ensures !(AllEntriesOk(p, runtimeID, es) && EntriesApart(p, runtimeID, es, managed))
  {
    hide EntryOk, Stored, IdentityOf;
    if AllEntriesOk(p, runtimeID, es) {
      var keys, ids := Keys(es), Identities(p, runtimeID, es);
      if es[i].key in Keys(es[..i]) {
        var j :| 0 <= j < i && Keys(es[..i])[j] == es[i].key;
        assert keys[j] == keys[i];
      } else if ids[i] in managed {
        assert ids[i] in ids;
      } else {
        var j :| 0 <= j < i && Identities(p, runtimeID, es[..i])[j] == ids[i];
        assert ids[j] == ids[i];
      }
    }
  }

  lemma AppendEntry(p: Provider, runtimeID: string, es: seq<Datasource>, i: nat, managed: set<string>,
      entries: map<string, Entry>)
    requires i < |es| && AllEntriesOk(p, runtimeID, es[..i]) && EntryOk(p, runtimeID, Stored(es[i]))
    requires EntriesApart(p, runtimeID, es[..i], managed) && Holds(p, runtimeID, es[..i], entries)
    requires es[i].key !in entries && IdentityOf(p, runtimeID, es[i]) !in managed &&
              IdentityOf(p, runtimeID, es[i]) !in Identities(p, runtimeID, es[..i])
    ensures AllEntriesOk(p, runtimeID, es[..i + 1])
    ensures Identities(p, runtimeID, es[..i + 1]) == Identities(p, runtimeID,
              es[..i]) + [IdentityOf(p, runtimeID, es[i])]
    ensures EntriesApart(p, runtimeID, es[..i + 1], managed)
    ensures Holds(p, runtimeID, es[..i + 1], entries[es[i].key := EntryOf(p, runtimeID, Stored(es[i]))])
  {
    hide EntryOk, Stored, IdentityOf, EntryOf;
    var es' := es[..i + 1];
    assert es' == es[..i] + [es[i]];
    assert Keys(es') == Keys(es[..i]) + [es[i].key];
    assert Identities(p, runtimeID, es') == Identities(p, runtimeID, es[..i]) + [IdentityOf(p, runtimeID, es[i])];
    forall j | 0 <= j < i
      ensures es[j].key != es[i].key
    {
      assert es[..i][j] == es[j] && es[j].key in entries;
    }
  }

  // ---------- attachments ----------

  function AttachmentBindings(p: Provider, runtimeID: string, cs: seq<Config>): (r: seq<AttachmentBinding>)
    ensures |r| == |cs|
    ensures forall i :: 0 <= i < |cs| ==>
              r[i] == AttachmentBinding(TrimSpace(cs[i].workspaceID), p.newAttachment(cs[i], runtimeID))
  {
    seq(|cs|, i requires 0 <= i < |cs| => AttachmentBinding(TrimSpace(cs[i].workspaceID),
        p.newAttachment(cs[i], runtimeID)))
  }

  function Workspaces(bs: seq<AttachmentBinding>): (r: seq<string>)
    ensures |r| == |bs| && forall i :: 0 <= i < |bs| ==> r[i] == bs[i].workspaceID
  {
    seq(|bs|, i requires 0 <= i < |bs| => bs[i].workspaceID)
  }

  function AttachmentSources(bs: seq<AttachmentBinding>): (r: seq<Option<string>>)
    ensures |r| == |bs| && forall i :: 0 <= i < |bs| ==> r[i] == bs[i].knowledge
  {
    seq(|bs|, i requires 0 <= i < |bs| => bs[i].knowledge)
  }

  /** One source per workspace, one workspace per source, and no source already in use. */
  ghost predicate AttachmentsApart(bs: seq<AttachmentBinding>, used: set<string>) {
    && Distinct(Workspaces(bs)) && Distinct(AttachmentSources(bs))
    && forall b <- bs :: b.knowledge.Some? && !Blank(b.workspaceID) && b.knowledge.value !in used
  }

  ghost predicate AttachmentsAccepted(p: Provider, runtimeID: string, cs: seq<Config>,
      existing: seq<AttachmentBinding>, used: set<string>) {
    && |cs| <= 1000 && (cs == [] || existing == [])
    && AttachmentsApart(existing + AttachmentBindings(p, runtimeID, cs), used)
  }

  function CatalogueIdentities(entries: map<string, Entry>): (r: set<string>) {
    set key | key in entries :: entries[key].definition.sourceID
  }

  function KeptIdentities(kept: map<string, Kept>): (r: set<string>) {
    set key | key in kept :: kept[key].definition.sourceID
  }

  lemma KeptAreCatalogueIdentities(kept: map<string, Kept>, entries: map<string, Entry>)
    requires kept.Keys == entries.Keys && forall key <- entries :: EntryIn(kept[key]) == entries[key]
    ensures KeptIdentities(kept) == CatalogueIdentities(entries)
  {
    assert forall key <- entries :: kept[key].definition == entries[key].definition;
  }

  function PresetIdentities(d: Datasources): (r: set<string>)
    reads if d.BuiltIn? then {d.catalogue} else {}
  {
    if d.BuiltIn? then KeptIdentities(d.catalogue.kept) else {}
  }

  method AssembleAttachmentKnowledge(p: Provider, options: ConversationOptions, configured: seq<Config>,
      runtimeID: string)
    returns (ok: bool)
    modifies options`attachments
    ensures ok <==> AttachmentsAccepted(p, runtimeID, configured, old(options.attachments),
                                        ManagedIdentities(options.knowledge,
                                            options.libraries) + PresetIdentities(options.datasources))
    ensures ok ==> options.attachments == old(options.attachments) + AttachmentBindings(p, runtimeID, configured)
  {
    hide ManagedIdentities, KeptIdentities, Blank, TrimSpace;
    if |configured| > 1000 || (|configured| > 0 && |options.attachments| > 0) {
      return false;
    }
    ghost var before := options.attachments;
    for i := 0 to |configured|
      invariant options.attachments == before + AttachmentBindings(p, runtimeID, configured[..i])
    {
      var source := p.newAttachment(configured[i], runtimeID);
      if source.None? {
        var all := AttachmentBindings(p, runtimeID, configured);
        assert all[i] in before + all;
        return false;
      }
      assert AttachmentBindings(p, runtimeID, configured[..i + 1]) ==
             AttachmentBindings(p, runtimeID,
                 configured[..i]) + [AttachmentBinding(TrimSpace(configured[i].workspaceID), source)];
      options.attachments := options.attachments + [AttachmentBinding(TrimSpace(configured[i].workspaceID), source)];
    }
    assert configured[..|configured|] == configured;
    var used := CollectManaged(options.knowledge, options.libraries);
    if options.datasources.BuiltIn? {
      used := used + KeptIdentities(options.datasources.catalogue.kept);
    }
    ok := CheckAttachments(options.attachments, used);
  }

  /** The loop that claims a workspace and a source for every attachment binding. */
  method CheckAttachments(bs: seq<AttachmentBinding>, taken: set<string>) returns (ok: bool)
    ensures ok <==> AttachmentsApart(bs, taken)
  {
    hide Blank;
    var used, workspaces := taken, {};
    for i := 0 to |bs|
      invariant AttachmentsApart(bs[..i], taken)
      invariant forall w :: w in workspaces <==> w in Workspaces(bs[..i])
      invariant forall x :: x in used <==> x in taken || Some(x) in AttachmentSources(bs[..i])
    {
      var b := bs[i];
      assert b in bs;
      if b.knowledge.None? || Blank(b.workspaceID) {
        return false;
      }
      if b.workspaceID in workspaces || b.knowledge.value in used {
        ClaimedTwice(bs, i, taken);
        return false;
      }
      assert bs[..i + 1] == bs[..i] + [b];
      assert Workspaces(bs[..i + 1]) == Workspaces(bs[..i]) + [b.workspaceID];
      assert AttachmentSources(bs[..i + 1]) == AttachmentSources(bs[..i]) + [b.knowledge];
      workspaces, used := workspaces + {b.workspaceID}, used + {b.knowledge.value};
    }
    assert bs[..|bs|] == bs;
    return true;
  }

  lemma ClaimedTwice(bs: seq<AttachmentBinding>, i: nat, taken: set<string>)
    requires i < |bs| && bs[i].knowledge.Some?
    requires bs[i].workspaceID in Workspaces(bs[..i]) || bs[i].knowledge.value in taken ||
              bs[i].knowledge in AttachmentSources(bs[..i])
    ensures !AttachmentsApart(bs, taken)
  {
    hide Blank;
    assert bs[i] in bs;
    if bs[i].workspaceID in Workspaces(bs[..i]) {
      var j :| 0 <= j < i && Workspaces(bs[..i])[j] == bs[i].workspaceID;
      assert Workspaces(bs)[j] == Workspaces(bs)[i];
    } else if bs[i].knowledge in AttachmentSources(bs[..i]) {
      var j :| 0 <= j < i && AttachmentSources(bs[..i])[j] == bs[i].knowledge;
      assert AttachmentSources(bs)[j] == AttachmentSources(bs)[i];
    }
  }

  // ---------- the assemblers in order ----------

  lemma HoldsIsSound(p: Provider, runtimeID: string, es: seq<Datasource>, entries: map<string, Entry>)
    requires AllEntriesOk(p, runtimeID, es) && Holds(p, runtimeID, es, entries)
    ensures Sound(p, runtimeID, entries)
  {
    hide EntryOk;
    forall key | key in entries
      ensures entries[key].config.key == key && EntryOk(p, runtimeID, entries[key].config)
      ensures entries[key] == EntryOf(p, runtimeID, entries[key].config)
    {
      var i :| 0 <= i < |es| && Keys(es)[i] == key;
      assert es[i] in es;
    }
  }

  /** No remote base serves two catalogue entries, or an entry and a managed default or library source. */
  ghost predicate CatalogueApart(entries: map<string, Entry>, managed: set<string>) {
    && (forall k, k' :: k in entries && k' in entries && k != k' ==>
         entries[k].definition.sourceID != entries[k'].definition.sourceID)
    && CatalogueIdentities(entries) !! managed
  }

  lemma PositionOf(p: Provider, runtimeID: string, es: seq<Datasource>, entries: map<string, Entry>,
      key: string) returns (i: nat)
    requires AllEntriesOk(p, runtimeID, es) && Holds(p, runtimeID, es, entries) && key in entries
    ensures i < |es| && es[i].key == key && entries[key].definition.sourceID == Identities(p, runtimeID, es)[i]
  {
    hide EntryOk, Stored;
    i :| 0 <= i < |es| && Keys(es)[i] == key;
  }

  lemma HoldsIsApart(p: Provider, runtimeID: string, es: seq<Datasource>, entries: map<string, Entry>,
      managed: set<string>)
    requires AllEntriesOk(p, runtimeID, es) && EntriesApart(p, runtimeID, es, managed) &&
              Holds(p, runtimeID, es, entries)
    ensures CatalogueApart(entries, managed)
  {
    hide EntryOk, Stored, Holds;
    var ids := Identities(p, runtimeID, es);
    forall k, k' | k in entries && k' in entries && k != k'
      ensures entries[k].definition.sourceID != entries[k'].definition.sourceID
    {
      var i := PositionOf(p, runtimeID, es, entries, k);
      var j := PositionOf(p, runtimeID, es, entries, k');
      assert ids[i] != ids[j];
    }
    forall k | k in entries
      ensures entries[k].definition.sourceID !in managed
    {
      var i := PositionOf(p, runtimeID, es, entries, k);
      assert ids[i] in ids;
    }
  }

  ghost predicate DefaultAccepted(p: Provider, runtimeID: string, legacy: Option<Config>, before: Option<Source>) {
    legacy.Some? ==> before.None? && p.newKnowledge(legacy.value.(runtimeID := runtimeID)).Some?
  }

  function DefaultOf(p: Provider, runtimeID: string, legacy: Option<Config>,
      before: Option<Source>): (r: Option<Source>) {
    if legacy.Some? then p.newKnowledge(legacy.value.(runtimeID := runtimeID)) else before
  }

  function LibrariesOf(p: Provider, runtimeID: string, cs: seq<Library>,
      before: seq<LibraryBinding>): (r: seq<LibraryBinding>)
    requires forall c <- cs :: LibraryOk(p, runtimeID, c)
  {
    if cs == [] then before else LibraryBindings(p, runtimeID, cs)
  }

  datatype Configured = Configured(legacy: Option<Config>, libraries: seq<Library>, datasources: seq<Datasource>,
      attachments: seq<Config>)

  /** The verdict of the whole assembly, from the configuration and what the host had put into the options. */
  ghost predicate AssemblyAccepted(p: Provider, runtimeID: string, c: Configured, knowledge: Option<Source>,
      libraries: seq<LibraryBinding>,
                                   datasources: Datasources, preset: set<string>, attachments: seq<AttachmentBinding>) {
    && DefaultAccepted(p, runtimeID, c.legacy, knowledge)
    && LibrariesAccepted(p, runtimeID, c.libraries, c.legacy, libraries)
    && var managed := ManagedIdentities(DefaultOf(p, runtimeID, c.legacy, knowledge),
         LibrariesOf(p, runtimeID, c.libraries, libraries));
    && DatasourcesAccepted(p, runtimeID, c.datasources, managed, datasources)
    && var listed := if c.datasources == [] then preset else set x | x in Identities(p, runtimeID, c.datasources);
    && AttachmentsAccepted(p, runtimeID, c.attachments, attachments, managed + listed)
  }

  /** The configuration in memory, and what it says. */
  datatype Configuration = Configuration(
    legacy: Option<Config>, libraries: seq<LibraryEntry>, datasources: seq<DatasourceEntry>, attachments: seq<Config>)

  /** The tail of OpenModule's knowledge assembly; the configuration itself is only read. */
  method AssembleSources(p: Provider, options: ConversationOptions, c: Configuration, ghost view: Configured,
      runtimeID: string)
    returns (ok: bool, ghost entries: map<string, Entry>)
    requires view.legacy == c.legacy && view.attachments == c.attachments
    requires |view.libraries| == |c.libraries| && |view.datasources| == |c.datasources|
    requires forall i :: 0 <= i < |c.libraries| ==> LibraryIn(c.libraries[i]) == view.libraries[i]
    requires forall i :: 0 <= i < |c.datasources| ==> DatasourceIn(c.datasources[i]) == view.datasources[i]
    modifies options
    ensures forall i :: 0 <= i < |c.libraries| ==> LibraryIn(c.libraries[i]) == view.libraries[i]
    ensures forall i :: 0 <= i < |c.datasources| ==> DatasourceIn(c.datasources[i]) == view.datasources[i]
    ensures ok <==> AssemblyAccepted(p, runtimeID, view, old(options.knowledge), old(options.libraries),
                                     old(options.datasources), old(PresetIdentities(options.datasources)),
                                         old(options.attachments))
    ensures ok ==>
      var managed := ManagedIdentities(options.knowledge, options.libraries);
      && RemotesApart(view.libraries, view.legacy)
      && AttachmentsApart(options.attachments, managed + PresetIdentities(options.datasources))
      && (view.datasources != [] ==>
           && options.datasources.BuiltIn? && Cloned(c.datasources, options.datasources.catalogue.kept)
           && options.datasources.catalogue.kept.Keys == entries.Keys
           && (forall key <- entries :: EntryIn(options.datasources.catalogue.kept[key]) == entries[key])
           && Sound(p, runtimeID, entries) && CatalogueApart(entries, managed))
  {
    hide LibraryOk, EntryOk, Stored, ManagedIdentities, KeptIdentities, CatalogueIdentities, RemotesApart,
        AttachmentsApart,
      EntriesApart, Holds, CatalogueApart, Sound, Cloned;
    entries := map[];
    if c.legacy.Some? {
      if options.knowledge.Some? {
        return false, entries;
      }
      var source := p.newKnowledge(c.legacy.value.(runtimeID := runtimeID));
      if source.None? {
        return false, entries;
      }
      options.knowledge := source;
    }
    ok := AssembleLibraryKnowledge(p, options, c.libraries, view.libraries, c.legacy, runtimeID);
    if !ok {
      return;
    }
    assert RemotesApart(view.libraries, view.legacy) by {
      NoLibrariesApart(view.libraries, view.legacy);
    }
    assert options.libraries == LibrariesOf(p, runtimeID, view.libraries, old(options.libraries));
    ok, entries := AssembleKnowledgeDatasources(p, options, c.datasources, view.datasources, runtimeID);
    if !ok {
      return;
    }
    ghost var managed := ManagedIdentities(options.knowledge, options.libraries);
    if view.datasources != [] {
      HoldsIsSound(p, runtimeID, view.datasources, entries);
      HoldsIsApart(p, runtimeID, view.datasources, entries, managed);
      HeldIdentities(p, runtimeID, view.datasources, entries);
      KeptAreCatalogueIdentities(options.datasources.catalogue.kept, entries);
    }
    ok := AssembleAttachmentKnowledge(p, options, c.attachments, runtimeID);
  }

  lemma NoLibrariesApart(cs: seq<Library>, legacy: Option<Config>)
    ensures cs == [] ==> RemotesApart(cs, legacy)
  {
  }

  lemma HeldIdentities(p: Provider, runtimeID: string, es: seq<Datasource>, entries: map<string, Entry>)
    requires AllEntriesOk(p, runtimeID, es) && Holds(p, runtimeID, es, entries)
    ensures CatalogueIdentities(entries) == set x | x in Identities(p, runtimeID, es)
  {
    hide EntryOk, Stored;
    var ids := Identities(p, runtimeID, es);
    forall x | x in ids
      ensures x in CatalogueIdentities(entries)
    {
      var i :| 0 <= i < |es| && ids[i] == x;
      assert es[i].key in entries && entries[es[i].key].definition.sourceID == x;
    }
    forall x | x in CatalogueIdentities(entries)
      ensures x in ids
    {
      var key :| key in entries && entries[key].definition.sourceID == x;
      var i :| 0 <= i < |es| && Keys(es)[i] == key;
      assert ids[i] == x;
    }
  }

  /** Different remote bases have different identities. */
  ghost predicate IdentityTellsRemotes(p: Provider) {
    forall k: Config, k': Config :: p.newKnowledge(k).Some? && p.newKnowledge(k').Some? && k.remote != k'.remote ==>
                                      p.newKnowledge(k).value.identity != p.newKnowledge(k').value.identity
  }

  lemma LibrarySourceOf(p: Provider, runtimeID: string, c: Library) returns (k: Config)
    requires LibraryOk(p, runtimeID, c)
    ensures k.remote == c.knowledge.remote && p.newKnowledge(k).Some? &&
              LibrarySource(p, runtimeID, c) == p.newKnowledge(k)
  {
    hide Bind;
    BindKeepsWorkspace(p.digest, c.libraryID, c.knowledge, c.manageDocuments, c.permissionIDs, runtimeID);
    k := LibraryBound(p, runtimeID, c).knowledge.(documentManagement := c.manageDocuments, runtimeID := runtimeID);
  }

  /** With a provider that tells remote bases apart, configured libraries share no source, not even with the default. */
  lemma LibrariesShareNothing(p: Provider, runtimeID: string, cs: seq<Library>, legacy: Option<Config>,
      before: seq<LibraryBinding>, i: nat, j: nat)
    requires IdentityTellsRemotes(p) && LibrariesAccepted(p, runtimeID, cs, legacy, before) && i < |cs| && j < |cs| &&
              i != j
    ensures LibraryBindings(p, runtimeID, cs)[i].source.identity != LibraryBindings(p, runtimeID, cs)[j].source.identity
    ensures legacy.Some? && p.newKnowledge(legacy.value.(runtimeID := runtimeID)).Some? ==>
              LibraryBindings(p, runtimeID,
                  cs)[i].source.identity != p.newKnowledge(legacy.value.(runtimeID := runtimeID)).value.identity
  {
    hide LibrarySource, LibraryOk;
    assert cs[i] in cs && cs[j] in cs;
    var k := LibrarySourceOf(p, runtimeID, cs[i]);
    var k' := LibrarySourceOf(p, runtimeID, cs[j]);
    assert Remotes(cs)[i] != Remotes(cs)[j];
  }
}
