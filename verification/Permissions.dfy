/**
 * Binding a knowledge library to the permission IDs it uploads and retrieves
 * with: a fixed list, canonicalised, or a scope derived from runtime, workspace
 * and library.
 */
module Permissions {
  import opened Optional
  import opened Text

  /** An opaque permission ID as configured; it may not even be UTF-8. */
  datatype ID = Utf8(text: string) | Malformed

  /** The part of a provider configuration the binding decides on. `remote` is its normalised URL, team and base. */
  datatype Config = Config(
    remote: string, workspaceID: string, dynamicIDs: bool, authorizeWorkspace: bool,
    documentIDs: Option<seq<string>>, documentManagement: bool, runtimeID: string, other: nat)

  // ---------- the order of IDs ----------

  /** Go's < on strings; on UTF-8 it is the order of the characters. */
  predicate Below(a: string, b: string) {
    if b == "" then false
    else if a == "" then true
    else a[0] < b[0] || (a[0] == b[0] && Below(a[1..], b[1..]))
  }

  lemma {:induction false} BelowTotal(a: string, b: string)
    ensures Below(a, b) || Below(b, a) || a == b
    ensures !(Below(a, b) && Below(b, a)) && !Below(a, a)
  {
    if a != "" {
      BelowTotal(a[1..], a[1..]);
      if b != "" {
        BelowTotal(a[1..], b[1..]);
        if a[0] == b[0] && a[1..] == b[1..] {
          assert a == [a[0]] + a[1..] && b == [b[0]] + b[1..];
        }
      }
    }
  }

  lemma {:induction false} BelowTransitive(a: string, b: string, c: string)
    requires Below(a, b) && Below(b, c)
    ensures Below(a, c)
  {
    if a != "" && a[0] == b[0] == c[0] {
      BelowTransitive(a[1..], b[1..], c[1..]);
    }
  }

  ghost predicate Increasing(s: seq<string>) {
    forall i, j :: 0 <= i < j < |s| ==> Below(s[i], s[j])
  }

  ghost predicate Ascending(s: seq<string>) {
    forall i, j :: 0 <= i < j < |s| ==> !Below(s[j], s[i])
  }

  ghost function Members(s: seq<string>): (r: set<string>) {
    set x | x in s
  }

  lemma HasMembers(s: seq<string>)
    requires s != []
    ensures Members(s) != {}
  {
    assert s[0] in Members(s);
  }

  /** A strictly increasing list is determined by its members. */
  lemma {:induction false} IncreasingIsCanonical(a: seq<string>, b: seq<string>)
    requires Increasing(a) && Increasing(b) && Members(a) == Members(b)
    ensures a == b
  {
    if a == [] {
      if b != [] {
        HasMembers(b);
      }
    } else {
      assert a[0] in Members(b) && b != [];
      assert b[0] in Members(a);
      assert a[0] == b[0] by {
        BelowTotal(a[0], b[0]);
        var i :| 0 <= i < |b| && b[i] == a[0];
        var j :| 0 <= j < |a| && a[j] == b[0];
      }
      assert Members(a[1..]) == Members(b[1..]) by {
        TailMembers(a);
        TailMembers(b);
      }
      IncreasingIsCanonical(a[1..], b[1..]);
      assert a == [a[0]] + a[1..] && b == [b[0]] + b[1..];
    }
  }

  lemma TailMembers(a: seq<string>)
    requires Increasing(a) && a != []
    ensures Members(a[1..]) == Members(a) - {a[0]}
  {
    assert a == [a[0]] + a[1..];
    assert a[0] !in a[1..] by {
      BelowTotal(a[0], a[0]);
    }
  }

  // ---------- sorting and compacting ----------

  function Insert(s: seq<string>, x: string): (r: seq<string>)
    ensures |r| == |s| + 1
  {
    if s == [] then [x]
    else if Below(x, s[|s| - 1]) then Insert(s[..|s| - 1], x) + [s[|s| - 1]]
    else s + [x]
  }

  /** The list in ascending order. */
  function Sorted(s: seq<string>): (r: seq<string>)
    ensures |r| == |s|
  {
    if s == [] then [] else Insert(Sorted(s[..|s| - 1]), s[|s| - 1])
  }

  /** slices.Compact: of equal neighbours the first stays. */
  function Compact(s: seq<string>): (r: seq<string>) {
    if |s| < 2 then s
    else if s[|s| - 1] == s[|s| - 2] then Compact(s[..|s| - 1])
    else Compact(s[..|s| - 1]) + [s[|s| - 1]]
  }

  lemma {:induction false} InsertKeeps(s: seq<string>, x: string)
    ensures multiset(Insert(s, x)) == multiset(s) + multiset{x}
  {
    if s != [] {
      assert s == s[..|s| - 1] + [s[|s| - 1]];
      InsertKeeps(s[..|s| - 1], x);
    }
  }

  lemma InsertMembers(s: seq<string>, x: string, y: string)
    requires y in Insert(s, x)
    ensures y in s || y == x
  {
    InsertKeeps(s, x);
    assert y in multiset(Insert(s, x));
  }

  lemma AppendAscends(s: seq<string>, x: string)
    requires Ascending(s) && forall y <- s :: !Below(x, y)
    ensures Ascending(s + [x])
  {
  }

  lemma {:induction false} InsertAscends(s: seq<string>, x: string)
    requires Ascending(s)
    ensures Ascending(Insert(s, x))
  {
    hide Below, Ascending;
    if s == [] {
      AscendingShort([x]);
    } else {
      var init, last := s[..|s| - 1], s[|s| - 1];
      assert s == init + [last];
      AscendingInit(init, last);
      BelowTotal(x, last);
      if Below(x, last) {
        InsertAscends(init, x);
        forall y | y in Insert(init, x)
          ensures !Below(last, y)
        {
          InsertMembers(init, x, y);
        }
        AppendAscends(Insert(init, x), last);
      } else {
        forall y | y in s
          ensures !Below(x, y)
        {
          if Below(x, y) && last != x {
            BelowTransitive(last, x, y);
          }
        }
        AppendAscends(s, x);
      }
    }
  }

  lemma AscendingShort(s: seq<string>)
    requires |s| <= 1
    ensures Ascending(s)
  {
  }

  lemma AscendingInit(init: seq<string>, last: string)
    requires Ascending(init + [last])
    ensures Ascending(init) && forall y <- init :: !Below(last, y)
  {
    var s := init + [last];
    assert forall i :: 0 <= i < |init| ==> s[i] == init[i];
    assert s[|init|] == last;
  }

  lemma {:induction false} SortedAscends(s: seq<string>)
    ensures Ascending(Sorted(s)) && multiset(Sorted(s)) == multiset(s)
  {
    if s != [] {
      SortedAscends(s[..|s| - 1]);
      InsertAscends(Sorted(s[..|s| - 1]), s[|s| - 1]);
      InsertKeeps(Sorted(s[..|s| - 1]), s[|s| - 1]);
      assert s == s[..|s| - 1] + [s[|s| - 1]];
    }
  }

  lemma {:induction false} CompactIncreases(s: seq<string>)
    requires Ascending(s)
    ensures Increasing(Compact(s)) && Members(Compact(s)) == Members(s)
    ensures s != [] ==> Compact(s) != [] && Compact(s)[|Compact(s)| - 1] == s[|s| - 1]
  {
    if |s| >= 2 {
      var init, last := s[..|s| - 1], s[|s| - 1];
      CompactIncreases(init);
      assert s == init + [last];
      if last == s[|s| - 2] {
        assert last in init;
      } else {
        var c := Compact(init);
        BelowTotal(s[|s| - 2], last);
        forall i | 0 <= i < |c|
          ensures Below(c[i], last)
        {
          if i < |c| - 1 {
            BelowTransitive(c[i], c[|c| - 1], last);
          }
        }
        assert Members(c + [last]) == Members(c) + {last};
      }
    }
  }

  function Canonical(ids: seq<string>): (r: seq<string>) {
    Compact(Sorted(ids))
  }

  /** The canonical list is strictly increasing and has exactly the given members. */
  lemma CanonicalList(ids: seq<string>)
    ensures Increasing(Canonical(ids)) && Members(Canonical(ids)) == Members(ids)
  {
    SortedAscends(ids);
    CompactIncreases(Sorted(ids));
    SameMultisetSameMembers(Sorted(ids), ids);
  }

  // ---------- binding ----------

  /** SHA-256 over the JSON of runtime, workspace and library, printed in hexadecimal. */
  type Digest = (string, string, string) -> string

  ghost predicate HexDigest(digest: Digest) {
    forall r, w, l :: |digest(r, w, l)| == 64 && forall c <- digest(r, w, l) :: '0' <= c <= '9' || 'a' <= c <= 'f'
  }

  ghost predicate InjectiveDigest(digest: Digest) {
    forall r, w, l, r', w', l' :: digest(r, w, l) == digest(r', w', l') ==> r == r' && w == w' && l == l'
  }

  function DefaultScope(digest: Digest, runtimeID: string, workspaceID: string, libraryID: string): (s: string) {
    "scope:agent:library:" + digest(runtimeID, TrimSpace(workspaceID), libraryID)
  }

  predicate TextOk(s: string) {
    s != "" && ByteLen(s) <= 128 && TrimSpace(s) == s && forall c <- s :: c >= ' ' && c != '\U{7F}'
  }

  predicate IDOk(id: ID) {
    id.Utf8? && TextOk(id.text)
  }

  function Texts(ids: seq<ID>): (r: seq<string>)
    requires forall id <- ids :: id.Utf8?
    ensures |r| == |ids| && forall i :: 0 <= i < |ids| ==> r[i] == ids[i].text
  {
    seq(|ids|, i requires 0 <= i < |ids| => assert ids[i] in ids; ids[i].text)
  }

  datatype Bound = Refused | Bound(ids: seq<ID>, knowledge: Config)

  /** The IDs in force: those configured, or the default scope when nothing else says who may read. */
  function InForce(digest: Digest, libraryID: string, k: Config, ids: seq<ID>, runtimeID: string): (r: seq<ID>) {
    if ids == [] && !k.dynamicIDs then [Utf8(DefaultScope(digest, runtimeID, k.workspaceID, libraryID))] else ids
  }

  predicate ScopeIsFixed(libraryID: string, k: Config, ids: seq<ID>, runtimeID: string) {
    ids == [] && !k.dynamicIDs ==> !Blank(runtimeID) && !Blank(k.workspaceID) && !Blank(libraryID)
  }

  function Bind(digest: Digest, libraryID: string, k: Config, manage: bool, ids: seq<ID>,
      runtimeID: string): (r: Bound) {
    if k.documentIDs.Some? || (manage && (k.dynamicIDs || k.authorizeWorkspace)) then Refused
    else if !ScopeIsFixed(libraryID, k, ids, runtimeID) then Refused
    else
      var used := InForce(digest, libraryID, k, ids, runtimeID);
      if used == [] then Bound([], k)
      else if |used| > 100 || k.dynamicIDs || exists id <- used :: !IDOk(id) then Refused
      else Bound(used, k.(documentIDs := Some(Canonical(Texts(used)))))
  }

  class LibraryConfig {
    var libraryID: string
    var knowledge: Config
    var manageDocuments: bool
    var permissionIDs: array<ID>

    constructor (libraryID: string, knowledge: Config, manageDocuments: bool, permissionIDs: array<ID>)
      ensures this.libraryID == libraryID && this.knowledge == knowledge
      ensures this.manageDocuments == manageDocuments && this.permissionIDs == permissionIDs
    {
      this.libraryID, this.knowledge := libraryID, knowledge;
      this.manageDocuments, this.permissionIDs := manageDocuments, permissionIDs;
    }
  }

  lemma AtMostTransitive(a: string, b: string, c: string)
    requires !Below(b, a) && !Below(c, b)
    ensures !Below(c, a)
  {
    BelowTotal(a, b);
    BelowTotal(b, c);
    if Below(c, a) && a != b && b != c {
      BelowTransitive(a, b, c);
      BelowTotal(a, c);
    }
  }

  /** The first i + 1 elements are in order, apart from the one at j, which may belong further down. */
  ghost predicate OrderedBut(s: seq<string>, i: nat, j: nat)
    requires j <= i < |s|
  {
    forall p, q :: 0 <= p < q <= i && q != j ==> !Below(s[q], s[p])
  }

  ghost function Swapped(s: seq<string>, j: nat): (t: seq<string>)
    requires 0 < j < |s|
  {
    s[j := s[j - 1]][j - 1 := s[j]]
  }

  lemma SwapKeepsOrder(s: seq<string>, i: nat, j: nat)
    requires 0 < j <= i < |s| && OrderedBut(s, i, j) && Below(s[j], s[j - 1])
    ensures OrderedBut(Swapped(s, j), i, j - 1)
  {
    hide Below;
    BelowTotal(s[j], s[j - 1]);
    var t := Swapped(s, j);
    forall p, q | 0 <= p < q <= i && q != j - 1
      ensures !Below(t[q], t[p])
    {
      if q == j {
        assert p < j - 1 ==> !Below(s[j - 1], s[p]);
      } else {
        var p' := if p == j then j - 1 else if p == j - 1 then j else p;
        assert t[p] == s[p'] && t[q] == s[q] && p' < q;
      }
    }
  }

  lemma SwapKeepsElements(s: seq<string>, j: nat)
    requires 0 < j < |s|
    ensures multiset(Swapped(s, j)) == multiset(s)
  {
    assert s == s[..j - 1] + [s[j - 1]] + [s[j]] + s[j + 1..];
    assert Swapped(s, j) == s[..j - 1] + [s[j]] + [s[j - 1]] + s[j + 1..];
  }

  lemma InPlaceIsOrdered(s: seq<string>, i: nat, j: nat)
    requires j <= i < |s| && OrderedBut(s, i, j) && (j == 0 || !Below(s[j], s[j - 1]))
    ensures Ascending(s[..i + 1])
  {
    hide Below;
    forall p | 0 <= p < j
      ensures !Below(s[j], s[p])
    {
      if p < j - 1 {
        AtMostTransitive(s[p], s[j - 1], s[j]);
      }
    }
  }

  lemma OneMoreToPlace(s: seq<string>, i: nat)
    requires i < |s| && Ascending(s[..i])
    ensures OrderedBut(s, i, i)
  {
    hide Below;
    forall p, q | 0 <= p < q < i
      ensures !Below(s[q], s[p])
    {
      assert s[..i][p] == s[p] && s[..i][q] == s[q];
    }
  }

  /** Moves the element at i down to its place among the sorted ones before it. */
  method Sink(a: array<string>, i: nat)
    requires i < a.Length && Ascending(a[..i])
    modifies a
    ensures Ascending(a[..i + 1]) && multiset(a[..]) == multiset(old(a[..]))
  {
    hide Below, OrderedBut, Ascending;
    assert a[..][..i] == a[..i];
    OneMoreToPlace(a[..], i);
    var j := i;
    while j > 0 && Below(a[j], a[j - 1])
      invariant 0 <= j <= i
      invariant multiset(a[..]) == multiset(old(a[..])) && OrderedBut(a[..], i, j)
    {
      ghost var s := a[..];
      SwapKeepsOrder(s, i, j);
      SwapKeepsElements(s, j);
      a[j], a[j - 1] := a[j - 1], a[j];
      assert a[..] == Swapped(s, j);
      j := j - 1;
    }
    InPlaceIsOrdered(a[..], i, j);
    assert a[..][..i + 1] == a[..i + 1];
  }

  /** slices.Sort: leaves the same IDs in the array it is given, in ascending order. */
  method SortInPlace(a: array<string>)
    modifies a
    ensures Ascending(a[..]) && multiset(a[..]) == multiset(old(a[..]))
  {
    hide Ascending;
    AscendingShort(a[..0]);
    for i := 0 to a.Length
      invariant Ascending(a[..i]) && multiset(a[..]) == multiset(old(a[..]))
    {
      Sink(a, i);
    }
    assert a[..a.Length] == a[..];
  }

  /** The binding is updated in place; the configured list of IDs is only read, also when it is shared. */
  method BindLibraryPermissions(digest: Digest, b: LibraryConfig, runtimeID: string) returns (ok: bool)
    modifies b
    ensures b.libraryID == old(b.libraryID) && b.manageDocuments == old(b.manageDocuments)
    ensures old(b.permissionIDs)[..] == old(b.permissionIDs[..])
    ensures var r := Bind(digest, old(b.libraryID), old(b.knowledge), old(b.manageDocuments), old(b.permissionIDs[..]),
              runtimeID);
            && ok == r.Bound?
            && (ok ==> b.permissionIDs[..] == r.ids && b.knowledge == r.knowledge)
  {
    hide Canonical, TextOk, Blank, DefaultScope;
    if b.knowledge.documentIDs.Some? {
      return false;
    }
    if b.manageDocuments {
      if b.knowledge.dynamicIDs || b.knowledge.authorizeWorkspace {
        return false;
      }
    }
    if b.permissionIDs.Length == 0 && !b.knowledge.dynamicIDs {
      if Blank(runtimeID) || Blank(b.knowledge.workspaceID) || Blank(b.libraryID) {
        return false;
      }
      var scope := Utf8(DefaultScope(digest, runtimeID, b.knowledge.workspaceID, b.libraryID));
      b.permissionIDs := new ID[1](_ => scope);
      assert b.permissionIDs[..] == [scope];
    }
    assert b.permissionIDs[..] ==
           InForce(digest, old(b.libraryID), old(b.knowledge), old(b.permissionIDs[..]), runtimeID);
    if b.permissionIDs.Length == 0 {
      return true;
    }
    if b.permissionIDs.Length > 100 || b.knowledge.dynamicIDs {
      return false;
    }
    var list := Canonicalise(b.permissionIDs);
    if list.None? {
      return false;
    }
    b.knowledge := b.knowledge.(documentIDs := list);
    return true;
  }

  /** Clone, check, sort and compact. */
  method Canonicalise(ids: array<ID>) returns (r: Option<seq<string>>)
    ensures r.None? <==> exists id <- ids[..] :: !IDOk(id)
    ensures r.Some? ==> r.value == Canonical(Texts(ids[..]))
  {
    hide TextOk;
    var copy := new string[ids.Length];
    for i := 0 to ids.Length
      invariant forall j :: 0 <= j < i ==> IDOk(ids[j]) && copy[j] == ids[j].text
    {
      if !IDOk(ids[i]) {
        assert ids[i] in ids[..];
        return None;
      }
      copy[i] := ids[i].text;
    }
    ghost var texts := Texts(ids[..]);
    assert copy[..] == texts;
    SortInPlace(copy);
    CompactedIsCanonical(texts, copy[..]);
    return Some(Compact(copy[..]));
  }

  /** However a list is sorted, compacting it gives the canonical list. */
  lemma CompactedIsCanonical(ids: seq<string>, sorted: seq<string>)
    requires Ascending(sorted) && multiset(sorted) == multiset(ids)
    ensures Compact(sorted) == Canonical(ids)
  {
    hide Canonical, Compact, Ascending;
    CompactIncreases(sorted);
    CanonicalList(ids);
    SameMultisetSameMembers(sorted, ids);
    IncreasingIsCanonical(Compact(sorted), Canonical(ids));
  }

  lemma SameMultisetSameMembers(a: seq<string>, b: seq<string>)
    requires multiset(a) == multiset(b)
    ensures Members(a) == Members(b)
  {
    forall x
      ensures x in a <==> x in b
    {
      assert x in a <==> x in multiset(a);
      assert x in b <==> x in multiset(b);
    }
  }

  /** The assemblers bind a copy of a configured entry; the copy shares the entry's list of IDs. */
  method BindShared(digest: Digest, libraryID: string, k: Config, manage: bool, ids: array<ID>, runtimeID: string)
    returns (r: Bound)
    ensures r == Bind(digest, libraryID, k, manage, ids[..], runtimeID)
  {
    hide Bind;
    var binding := new LibraryConfig(libraryID, k, manage, ids);
    var ok := BindLibraryPermissions(digest, binding, runtimeID);
    return if ok then Bound(binding.permissionIDs[..], binding.knowledge) else Refused;
  }

  // ---------- what binding promises ----------

  /** With IDs in force, the document list is strictly increasing and names exactly those IDs. */
  lemma BoundListIsCanonical(digest: Digest, libraryID: string, k: Config, manage: bool, ids: seq<ID>,
      runtimeID: string)
    requires Bind(digest, libraryID, k, manage, ids, runtimeID).Bound? && (ids != [] || !k.dynamicIDs)
    ensures var r := Bind(digest, libraryID, k, manage, ids, runtimeID);
            var used := InForce(digest, libraryID, k, ids, runtimeID);
            && r.knowledge.documentIDs.Some? && Increasing(r.knowledge.documentIDs.value)
            && forall x :: x in r.knowledge.documentIDs.value <==> Utf8(x) in used
  {
    hide TextOk, Canonical, DefaultScope, Blank;
    var used := InForce(digest, libraryID, k, ids, runtimeID);
    var texts := Texts(used);
    CanonicalList(texts);
    forall x
      ensures x in Canonical(texts) <==> Utf8(x) in used
    {
      assert x in Canonical(texts) <==> x in Members(Canonical(texts));
      assert x in texts <==> x in Members(texts);
      if x in texts {
        var i :| 0 <= i < |texts| && texts[i] == x;
        assert used[i] in used && used[i] == Utf8(x);
      }
      if Utf8(x) in used {
        var i :| 0 <= i < |used| && used[i] == Utf8(x);
        assert texts[i] == x;
      }
    }
  }

  /** Order and repetition of configured IDs do not matter: the same set of IDs gives the same list. */
  lemma SameSetSameList(digest: Digest, l: string, l': string, k: Config, k': Config, m: bool, m': bool,
      ids: seq<ID>, ids': seq<ID>, r: string, r': string)
    requires ids != [] && ids' != [] && forall id :: id in ids <==> id in ids'
    requires Bind(digest, l, k, m, ids, r).Bound? && Bind(digest, l', k', m', ids', r').Bound?
    ensures Bind(digest, l, k, m, ids, r).knowledge.documentIDs == Bind(digest, l', k', m', ids',
              r').knowledge.documentIDs
  {
    hide Bind;
    BoundListIsCanonical(digest, l, k, m, ids, r);
    BoundListIsCanonical(digest, l', k', m', ids', r');
    var a, b := Bind(digest, l, k, m, ids, r).knowledge.documentIDs.value,
        Bind(digest, l', k', m', ids', r').knowledge.documentIDs.value;
    assert Members(a) == Members(b);
    IncreasingIsCanonical(a, b);
  }

  /** Switching document management on or off does not change the scope a library reads with. */
  lemma ManagementKeepsScope(digest: Digest, libraryID: string, k: Config, ids: seq<ID>, runtimeID: string)
    requires Bind(digest, libraryID, k, true, ids, runtimeID).Bound?
    ensures Bind(digest, libraryID, k, false, ids, runtimeID) == Bind(digest, libraryID, k, true, ids, runtimeID)
  {
    hide TextOk, Canonical, DefaultScope, Blank;
  }

  /** Default scopes are private: another runtime, workspace or library gets another scope. */
  lemma DefaultScopesDiffer(digest: Digest, l: string, l': string, k: Config, k': Config, m: bool, m': bool,
      r: string, r': string)
    requires InjectiveDigest(digest)
    requires !k.dynamicIDs && !k'.dynamicIDs
    requires Bind(digest, l, k, m, [], r).Bound? && Bind(digest, l', k', m', [], r').Bound?
    requires (r, TrimSpace(k.workspaceID), l) != (r', TrimSpace(k'.workspaceID), l')
    ensures Bind(digest, l, k, m, [], r).knowledge.documentIDs != Bind(digest, l', k', m', [], r').knowledge.documentIDs
  {
    hide TextOk, Blank, TrimSpace;
    var x, y := DefaultScope(digest, r, k.workspaceID, l), DefaultScope(digest, r', k'.workspaceID, l');
    assert x[20..] == digest(r, TrimSpace(k.workspaceID), l) && y[20..] == digest(r', TrimSpace(k'.workspaceID), l');
    BoundListIsCanonical(digest, l, k, m, [], r);
    BoundListIsCanonical(digest, l', k', m', [], r');
    assert Utf8(x) in InForce(digest, l, k, [], r) && Utf8(x) !in InForce(digest, l', k', [], r');
  }
}
