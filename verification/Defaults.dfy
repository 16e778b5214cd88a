/**
 * Removing backend-owned fields from a published authoring schema. The list of
 * required keys is filtered inside its own backing array.
 */
module Defaults {
  import opened Optional

  datatype Property =
    | Leaf(id: nat) | Enum(values: seq<string>) | EnumArray(values: seq<string>) | Nested(schema: Schema)

  /** The member "required": missing, a slice of strings over a backing array, or something else. */
  datatype Required = Absent | Slice(data: array<string>, length: nat) | Other

  datatype Keys = NoList | List(keys: seq<string>) | NotAList

  /** What a schema says, without where it is stored. */
  datatype View = View(properties: Option<map<string, Property>>, required: Keys)

  // ---------- the filter ----------

  function Filter(s: seq<string>, field: string): (r: seq<string>)
    ensures |r| <= |s| && field !in r
  {
    if s == [] then []
    else
      var r := Filter(s[..|s| - 1], field);
      if s[|s| - 1] == field then r else r + [s[|s| - 1]]
  }

  ghost predicate Increasing(ps: seq<nat>) {
    forall i, j :: 0 <= i < j < |ps| ==> ps[i] < ps[j]
  }

  /** `r` is what stands at the positions `ps`, which are all the positions of other keys, in order. */
  ghost predicate Picks(s: seq<string>, field: string, r: seq<string>, ps: seq<nat>) {
    && Increasing(ps) && |ps| == |r|
    && (forall i :: 0 <= i < |ps| ==> ps[i] < |s| && s[ps[i]] == r[i])
    && forall k :: 0 <= k < |s| ==> (s[k] != field <==> k in ps)
  }

  lemma PickOneMore(s: seq<string>, field: string, r: seq<string>, ps: seq<nat>, x: string)
    requires Picks(s, field, r, ps)
    ensures x == field ==> Picks(s + [x], field, r, ps)
    ensures x != field ==> Picks(s + [x], field, r + [x], ps + [|s|])
  {
    var s', qs := s + [x], ps + [|s|];
    assert forall k <- ps :: k < |s|;
    assert forall k :: 0 <= k < |s| ==> s'[k] == s[k];
    assert forall k :: k in qs <==> k in ps || k == |s|;
  }

  /** The filter keeps exactly the other keys, each once for every time it stands there, in their order. */
  lemma {:induction false} FilterPicksInOrder(s: seq<string>, field: string) returns (ps: seq<nat>)
    ensures Picks(s, field, Filter(s, field), ps)
  {
    ps := [];
    if s != [] {
      var n := |s| - 1;
      assert s == s[..n] + [s[n]];
      ps := FilterPicksInOrder(s[..n], field);
      PickOneMore(s[..n], field, Filter(s[..n], field), ps, s[n]);
      ps := if s[n] == field then ps else ps + [n];
    }
  }

  lemma {:induction false} FilterMembers(s: seq<string>, field: string, key: string)
    ensures key in Filter(s, field) <==> key in s && key != field
  {
    if s != [] {
      assert s == s[..|s| - 1] + [s[|s| - 1]];
      FilterMembers(s[..|s| - 1], field, key);
    }
  }

  lemma {:induction false} FilterNothing(s: seq<string>, field: string)
    requires field !in s
    ensures Filter(s, field) == s
  {
    if s != [] {
      assert s == s[..|s| - 1] + [s[|s| - 1]];
      FilterNothing(s[..|s| - 1], field);
    }
  }

  lemma {:induction false} FiltersCommute(s: seq<string>, f: string, g: string)
    ensures Filter(Filter(s, f), g) == Filter(Filter(s, g), f)
  {
    if s != [] {
      var n := |s| - 1;
      FiltersCommute(s[..n], f, g);
      FilterSnoc(Filter(s[..n], f), s[n], g);
      FilterSnoc(Filter(s[..n], g), s[n], f);
    }
  }

  lemma FilterSnoc(s: seq<string>, x: string, field: string)
    ensures Filter(s + [x], field) == if x == field then Filter(s, field) else Filter(s, field) + [x]
  {
    assert (s + [x])[..|s|] == s;
  }

  // ---------- schemas in memory ----------

  class Schema {
    var properties: Option<map<string, Property>>
    var required: Required

    constructor (properties: Option<map<string, Property>>, required: Required)
      ensures this.properties == properties && this.required == required
    {
      this.properties, this.required := properties, required;
    }

    ghost predicate Valid()
      reads this
    {
      required.Slice? ==> required.length <= required.data.Length
    }

    /** Everything that removing a field may write to. */
    ghost function Footprint(): (r: set<object>)
      reads this
    {
      {this} + if required.Slice? then {required.data} else {}
    }

    ghost function Shown(): (r: View)
      reads this, if required.Slice? then {required.data} else {}
      requires Valid()
    {
      View(properties, match required
                       case Absent => NoList
                       case Slice(data, length) => List(data[..length])
                       case Other => NotAList)
    }
  }

  /** kept := required[:0], then append: reads run ahead of the writes to the same array. */
  method FilterInPlace(data: array<string>, length: nat, field: string) returns (kept: nat)
    requires length <= data.Length
    modifies data
    ensures kept <= length && data[..kept] == Filter(old(data[..length]), field)
    ensures data[kept..] == old(data[kept..])
  {
    hide Filter;
    ghost var was := data[..];
    FilterNothing(was[..0], field);
    kept := 0;
    for i := 0 to length
      invariant kept <= i
      invariant data[..kept] == Filter(was[..i], field)
      invariant forall k :: kept <= k < data.Length ==> data[k] == was[k]
    {
      assert was[..i + 1] == was[..i] + [was[i]];
      FilterSnoc(was[..i], was[i], field);
      if data[i] != field {
        data[kept] := data[i];
        assert data[..kept + 1] == Filter(was[..i], field) + [was[i]];
        kept := kept + 1;
      }
    }
    assert old(data[..length]) == was[..length];
  }

  function RemovedKeys(k: Keys, field: string): (r: Keys) {
    if k.List? && Filter(k.keys, field) != [] then List(Filter(k.keys, field)) else NoList
  }

  function Removed(v: View, field: string): (r: View) {
    View(if v.properties.Some? then Some(v.properties.value - {field}) else None, RemovedKeys(v.required, field))
  }

  /** Reading a member of a nil map yields nothing. */
  function PropertiesOf(schema: Schema?): (r: Option<map<string, Property>>)
    reads schema
  {
    if schema == null then None else schema.properties
  }

  function RequiredOf(schema: Schema?): (r: Required)
    reads schema
  {
    if schema == null then Absent else schema.required
  }

  /** delete(schema, "required"), which Go also allows on a nil map. */
  method DeleteRequired(schema: Schema?)
    modifies schema
    ensures schema != null ==> schema.required == Absent && schema.properties == old(schema.properties)
  {
    if schema != null {
      schema.required := Absent;
    }
  }

  /**
   * No test for a missing schema is needed: only a list that was found, in a schema that was there, leaves
   * keys to keep, and only then is the schema assigned to.
   */
  method RemoveBackendDefault(schema: Schema?, field: string)
    requires schema != null ==> schema.Valid()
    modifies if schema == null then {} else schema.Footprint()
    ensures schema != null ==>
      && schema.Valid() && schema.Shown() == Removed(old(schema.Shown()), field)
      && schema.Footprint() <= old(schema.Footprint())
  {
    var properties := PropertiesOf(schema);
    if properties.Some? {
      schema.properties := Some(properties.value - {field});
    }
    var required := RequiredOf(schema);
    var kept := 0;
    if required.Slice? {
      kept := FilterInPlace(required.data, required.length, field);
    }
    if kept == 0 {
      DeleteRequired(schema);
    } else {
      schema.required := Slice(required.data, kept);
    }
  }

  // ---------- laws ----------

  lemma RemovingTwice(v: View, field: string)
    ensures Removed(Removed(v, field), field) == Removed(v, field)
  {
    if v.properties.Some? {
      assert v.properties.value - {field} - {field} == v.properties.value - {field};
    }
    if v.required.List? {
      FilterNothing(Filter(v.required.keys, field), field);
    }
  }

  lemma RemovalsCommute(v: View, f: string, g: string)
    ensures Removed(Removed(v, f), g) == Removed(Removed(v, g), f)
  {
    if v.properties.Some? {
      assert v.properties.value - {f} - {g} == v.properties.value - {g} - {f};
    }
    if v.required.List? {
      FiltersCommute(v.required.keys, f, g);
    }
  }

  /** Whatever is required is described. */
  ghost predicate Consistent(v: View) {
    v.required.List? ==> v.properties.Some? && forall key <- v.required.keys :: key in v.properties.value
  }

  lemma RemovalKeepsConsistent(v: View, field: string)
    requires Consistent(v)
    ensures Consistent(Removed(v, field))
  {
    if v.required.List? {
      forall key | key in Filter(v.required.keys, field)
        ensures key in v.properties.value - {field}
      {
        FilterMembers(v.required.keys, field, key);
      }
    }
  }

  /** A schema says nothing about a field. */
  ghost predicate Silent(v: View, field: string) {
    && (v.properties.Some? ==> field !in v.properties.value)
    && (v.required.List? ==> field !in v.required.keys)
  }

  lemma RemovedIsSilent(v: View, f: string, field: string)
    ensures Silent(Removed(v, f), f)
    ensures Silent(v, field) ==> Silent(Removed(v, f), field)
  {
    if v.required.List? {
      FilterMembers(v.required.keys, f, field);
    }
  }

  // ---------- the published schemas ----------

  function RemovedAll(v: View, fields: seq<string>): (r: View) {
    if fields == [] then v else Removed(RemovedAll(v, fields[..|fields| - 1]), fields[|fields| - 1])
  }

  /** After removing a list of fields the schema is silent about each, and still consistent. */
  lemma {:induction false} RemovedAllIsSilent(v: View, fields: seq<string>, field: string)
    requires Consistent(v)
    ensures Consistent(RemovedAll(v, fields))
    ensures field in fields ==> Silent(RemovedAll(v, fields), field)
  {
    if fields != [] {
      var n := |fields| - 1;
      RemovedAllIsSilent(v, fields[..n], field);
      RemovalKeepsConsistent(RemovedAll(v, fields[..n]), fields[n]);
      RemovedIsSilent(RemovedAll(v, fields[..n]), fields[n], field);
      assert fields == fields[..n] + [fields[n]];
    }
  }

  /** The description of any other property is untouched. */
  lemma {:induction false} RemovedAllKeeps(v: View, fields: seq<string>, key: string)
    requires key !in fields
    ensures var r := RemovedAll(v, fields);
            && (r.properties.Some? <==> v.properties.Some?)
            && (v.properties.Some? ==>
                 && (key in r.properties.value <==> key in v.properties.value)
                 && (key in v.properties.value ==> r.properties.value[key] == v.properties.value[key]))
  {
    if fields != [] {
      RemovedAllKeeps(v, fields[..|fields| - 1], key);
    }
  }

  method RemoveAll(schema: Schema?, fields: seq<string>)
    requires schema != null ==> schema.Valid()
    modifies if schema == null then {} else schema.Footprint()
    ensures schema != null ==>
      && schema.Valid() && schema.Shown() == RemovedAll(old(schema.Shown()), fields)
      && schema.Footprint() <= old(schema.Footprint())
  {
    for i := 0 to |fields|
      invariant schema != null ==> schema.Valid() && schema.Shown() == RemovedAll(old(schema.Shown()), fields[..i])
      invariant schema != null ==> schema.Footprint() <= old(schema.Footprint())
    {
      assert fields[..i + 1][..i] == fields[..i];
      RemoveBackendDefault(schema, fields[i]);
    }
    assert fields[..|fields|] == fields;
  }

  function RootFields(kind: string): (r: seq<string>) {
    match kind
    case "agent.skill" => ["version"]
    case "agent.agent" => ["version"]
    case "agent.task" => ["contract_version", "version"]
    case "agent.entrypoint" => ["contract_version"]
    case "agent.service_principal" => ["contract_version", "rotation_version"]
    case _ => []
  }

  const CONTEXT_FIELDS := ["contract_version", "max_selected_records", "max_context_bytes"]
  const ROUTING_FIELDS := ["contract_version", "allow_recursive"]

  /** The member schema of a property, if the property is an object of its own. */
  function Member(properties: Option<map<string, Property>>, key: string): (r: Schema?) {
    if properties.Some? && key in properties.value && properties.value[key].Nested?
    then properties.value[key].schema else null
  }

  function Child(schema: Schema, key: string): (r: Schema?)
    reads schema
  {
    Member(schema.properties, key)
  }

  lemma MemberStays(v: View, fields: seq<string>, key: string)
    requires key !in fields
    ensures Member(RemovedAll(v, fields).properties, key) == Member(v.properties, key)
  {
    hide RemovedAll;
    RemovedAllKeeps(v, fields, key);
  }

  ghost function FootprintOf(s: Schema?): (r: set<object>)
    reads s
  {
    if s == null then {} else s.Footprint()
  }

  ghost predicate ValidOrMissing(s: Schema?)
    reads s
  {
    s != null ==> s.Valid()
  }

  /** A schema and its two nested contracts do not share storage, as in a freshly generated document. */
  ghost predicate Separate(schema: Schema)
    reads schema, Child(schema, "context_contract"), Child(schema, "routing_contract")
  {
    var context, routing := Child(schema, "context_contract"), Child(schema, "routing_contract");
    && schema.Valid() && ValidOrMissing(context) && ValidOrMissing(routing)
    && schema.Footprint() !! FootprintOf(context) && schema.Footprint() !! FootprintOf(routing)
    && FootprintOf(context) !! FootprintOf(routing)
  }

  /** The fields the backend owns disappear; every other part of an entrypoint's schema stays as it was. */
  method PublishEntrypoint(schema: Schema)
    requires Separate(schema)
    modifies schema.Footprint(), FootprintOf(Child(schema, "context_contract")),
              FootprintOf(Child(schema, "routing_contract"))
    ensures schema.Valid() && schema.Shown() == RemovedAll(old(schema.Shown()), RootFields("agent.entrypoint"))
    ensures var context := old(Child(schema, "context_contract"));
            context != null ==> context.Valid() && context.Shown() == RemovedAll(old(context.Shown()), CONTEXT_FIELDS)
    ensures var routing := old(Child(schema, "routing_contract"));
            routing != null ==> routing.Valid() && routing.Shown() == RemovedAll(old(routing.Shown()), ROUTING_FIELDS)
  {
    hide RemovedAll, Member;
    ghost var before := schema.Shown();
    ghost var context', routing' := Child(schema, "context_contract"), Child(schema, "routing_contract");
    assert context' != null ==> context' in FootprintOf(context');
    assert routing' != null ==> routing' in FootprintOf(routing');
    RemoveAll(schema, RootFields("agent.entrypoint"));
    var context, routing := Child(schema, "context_contract"), Child(schema, "routing_contract");
    assert context == context' && routing == routing' by {
      assert "context_contract"[4] != "contract_version"[4];
      MemberStays(before, RootFields("agent.entrypoint"), "context_contract");
      MemberStays(before, RootFields("agent.entrypoint"), "routing_contract");
      assert schema.properties == schema.Shown().properties && old(schema.properties) == before.properties;
    }
    RemoveAll(context, CONTEXT_FIELDS);
    RemoveAll(routing, ROUTING_FIELDS);
  }

  datatype Vocabulary = Vocabulary(tools: seq<string>, outcomes: seq<string>, modes: seq<string>)

  /** The properties a kind restricts to a vocabulary. */
  function Restrictions(kind: string, words: Vocabulary): (r: map<string, Property>) {
    match kind
    case "agent.skill" => map["allowed_tools" := EnumArray(words.tools)]
    case "agent.agent" => map["tools" := EnumArray(words.tools)]
    case "agent.task" => map["allowed_outcomes" := EnumArray(words.outcomes), "side_effect_mode" := Enum(words.modes)]
    case _ => map[]
  }

  function Published(kind: string, v: View, words: Vocabulary): (r: View) {
    var w := RemovedAll(v, RootFields(kind));
    if w.properties.Some? then w.(properties := Some(w.properties.value + Restrictions(kind, words))) else w
  }

  /** applyAgentSchemaConstraints; the kinds that restrict properties write into them. */
  method ApplyConstraints(kind: string, schema: Schema, words: Vocabulary)
    requires schema.Valid() && (kind == "agent.entrypoint" ==> Separate(schema))
    requires Restrictions(kind, words) != map[] ==> schema.properties.Some?
    modifies schema.Footprint()
    modifies if kind == "agent.entrypoint"
             then FootprintOf(Child(schema, "context_contract")) + FootprintOf(Child(schema,
                 "routing_contract")) else {}
    ensures schema.Valid() && schema.Shown() == Published(kind, old(schema.Shown()), words)
    ensures var context := old(Child(schema, "context_contract"));
            context != null && kind == "agent.entrypoint" ==>
              context.Valid() && context.Shown() == RemovedAll(old(context.Shown()), CONTEXT_FIELDS)
    ensures var routing := old(Child(schema, "routing_contract"));
            routing != null && kind == "agent.entrypoint" ==>
              routing.Valid() && routing.Shown() == RemovedAll(old(routing.Shown()), ROUTING_FIELDS)
  {
    hide RemovedAll, Member, RootFields;
    if kind == "agent.entrypoint" {
      PublishEntrypoint(schema);
      NoRestrictions(old(schema.Shown()), words);
      return;
    }
    RemoveAll(schema, RootFields(kind));
    assert schema.properties.Some? <==> old(schema.properties.Some?) by {
      RemovedAllHasProperties(old(schema.Shown()), RootFields(kind));
    }
    if schema.properties.Some? {
      schema.properties := Some(schema.properties.value + Restrictions(kind, words));
    }
  }

  lemma NoRestrictions(v: View, words: Vocabulary)
    ensures Published("agent.entrypoint", v, words) == RemovedAll(v, RootFields("agent.entrypoint"))
  {
    hide RemovedAll;
    var w := RemovedAll(v, RootFields("agent.entrypoint"));
    if w.properties.Some? {
      assert w.properties.value + map[] == w.properties.value;
    }
  }

  lemma {:induction false} RemovedAllHasProperties(v: View, fields: seq<string>)
    ensures RemovedAll(v, fields).properties.Some? <==> v.properties.Some?
  {
    if fields != [] {
      RemovedAllHasProperties(v, fields[..|fields| - 1]);
    }
  }

  /** No published schema mentions a field its backend owns. */
  lemma PublishedIsSilent(kind: string, v: View, words: Vocabulary, field: string)
    requires Consistent(v) && field in RootFields(kind)
    ensures Silent(Published(kind, v, words), field) && Consistent(Published(kind, v, words))
  {
    hide RemovedAll;
    RemovedAllIsSilent(v, RootFields(kind), field);
  }

  /** Nor do the nested contracts of a published entrypoint. */
  lemma NestedAreSilent(context: View, routing: View, field: string)
    requires Consistent(context) && Consistent(routing)
    ensures field in CONTEXT_FIELDS ==> Silent(RemovedAll(context, CONTEXT_FIELDS), field)
    ensures field in ROUTING_FIELDS ==> Silent(RemovedAll(routing, ROUTING_FIELDS), field)
    ensures Consistent(RemovedAll(context, CONTEXT_FIELDS)) && Consistent(RemovedAll(routing, ROUTING_FIELDS))
  {
    hide RemovedAll;
    RemovedAllIsSilent(context, CONTEXT_FIELDS, field);
    RemovedAllIsSilent(routing, ROUTING_FIELDS, field);
  }
}
