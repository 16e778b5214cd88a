/**
 * The structural check of a task's JSON schemas: a depth-bounded recursive walk
 * that also resolves every "$ref" it meets, proved against a statement about
 * paths from the root.
 */
module SchemaWalk {
  import opened Optional
  import opened Text

  /** A decoded JSON value; Opaque stands for any other dynamic type, which the walk does not enter. */
  datatype Value =
    | Null | Bool(b: bool) | Num(n: real) | Str(s: string)
    | Arr(items: seq<Value>) | Obj(fields: map<string, Value>) | Opaque

  const MAX_DEPTH := 32
  const REF := "$ref"
  const DEFS := "$defs"
  const LOCAL := "#/$defs/"

  // ---------- paths ----------

  datatype Edge = Field(key: string) | Item(index: nat)

  /** The member an edge leads to; the value of a "$ref" key is not a member. */
  function Child(v: Value, e: Edge): (r: Option<Value>) {
    if v.Obj? && e.Field? && e.key in v.fields && e.key != REF then Some(v.fields[e.key])
    else if v.Arr? && e.Item? && e.index < |v.items| then Some(v.items[e.index])
    else None
  }

  function At(v: Value, p: seq<Edge>): (r: Option<Value>) {
    if p == [] then Some(v)
    else match Child(v, p[0]) case None => None case Some(c) => At(c, p[1..])
  }

  // ---------- references ----------

  function Definitions(root: map<string, Value>): (defs: map<string, Value>) {
    if DEFS in root && root[DEFS].Obj? then root[DEFS].fields else map[]
  }

  predicate ReferenceOk(root: map<string, Value>, reference: string) {
    var name := TrimSpace(reference);
    || (HasPrefix(name, LOCAL) && name[|LOCAL|..] in Definitions(root))
    || HasPrefix(name, "domainry://objects/") || HasPrefix(name, "domainry://actions/")
  }

  /** What the walk demands of the node itself. */
  predicate NodeOk(root: map<string, Value>, v: Value) {
    v.Obj? && REF in v.fields ==>
      v.fields[REF].Str? && !Blank(v.fields[REF].s) && ReferenceOk(root, v.fields[REF].s)
  }

  // ---------- what acceptance means ----------

  /** Everything below v, itself at the given depth, lies at depth 32 or less and carries only good references. */
  ghost predicate Accepted(root: map<string, Value>, v: Value, depth: nat) {
    forall p :: At(v, p).Some? ==> depth + |p| <= MAX_DEPTH && NodeOk(root, At(v, p).value)
  }

  /** Acceptance of a node is acceptance of the node and of each of its members one level down. */
  lemma AcceptedByMembers(root: map<string, Value>, v: Value, depth: nat)
    ensures Accepted(root, v, depth) <==>
      && depth <= MAX_DEPTH && NodeOk(root, v)
      && forall e :: Child(v, e).Some? ==> Accepted(root, Child(v, e).value, depth + 1)
  {
    hide NodeOk;
    if Accepted(root, v, depth) {
      assert At(v, []) == Some(v);
      forall e, p | Child(v, e).Some? && At(Child(v, e).value, p).Some?
        ensures depth + 1 + |p| <= MAX_DEPTH && NodeOk(root, At(Child(v, e).value, p).value)
      {
        assert ([e] + p)[1..] == p;
        assert At(v, [e] + p) == At(Child(v, e).value, p);
      }
    }
    if depth <= MAX_DEPTH && NodeOk(root, v) && forall e :: Child(v, e).Some? ==>
        Accepted(root, Child(v, e).value, depth + 1) {
      forall p | At(v, p).Some?
        ensures depth + |p| <= MAX_DEPTH && NodeOk(root, At(v, p).value)
      {
        if p != [] {
          assert At(v, p) == At(Child(v, p[0]).value, p[1..]);
        }
      }
    }
  }

  // ---------- the walk ----------

  /** Members of an object are taken in whatever order the map yields them. */
  method ValidateValue(v: Value, root: map<string, Value>, depth: nat) returns (ok: bool)
    ensures ok <==> Accepted(root, v, depth)
    decreases MAX_DEPTH + 1 - depth
  {
    hide NodeOk, Accepted;
    AcceptedByMembers(root, v, depth);
    if depth > MAX_DEPTH {
      return false;
    }
    if !NodeOk(root, v) {
      return false;
    }
    if v.Obj? {
      var rest := v.fields.Keys;
      while rest != {}
        invariant rest <= v.fields.Keys
        invariant forall k :: k in v.fields.Keys - rest && k != REF ==> Accepted(root, v.fields[k], depth + 1)
        decreases rest
      {
        var key :| key in rest;
        if key != REF {
          var fine := ValidateValue(v.fields[key], root, depth + 1);
          if !fine {
            assert Child(v, Field(key)) == Some(v.fields[key]);
            return false;
          }
        }
        rest := rest - {key};
      }
    } else if v.Arr? {
      for i := 0 to |v.items|
        invariant forall j :: 0 <= j < i ==> Accepted(root, v.items[j], depth + 1)
      {
        var fine := ValidateValue(v.items[i], root, depth + 1);
        if !fine {
          assert Child(v, Item(i)) == Some(v.items[i]);
          return false;
        }
      }
    }
    return true;
  }

  predicate RootTypeIsObject(root: map<string, Value>) {
    "type" in root && root["type"].Str? && TrimSpace(root["type"].s) == "object"
  }

  method ValidateObjectSchema(schema: Option<map<string, Value>>) returns (ok: bool)
    ensures ok <==> schema.Some? && RootTypeIsObject(schema.value) && Accepted(schema.value, Obj(schema.value), 0)
  {
    if schema.None? || !RootTypeIsObject(schema.value) {
      return false;
    }
    ok := ValidateValue(Obj(schema.value), schema.value, 0);
  }

  // ---------- following references ----------

  /** A reader of the schema descends into members and follows local references. */
  datatype Move = Down(edge: Edge) | Follow

  function Local(root: map<string, Value>, v: Value): (r: Option<Value>) {
    if v.Obj? && REF in v.fields && v.fields[REF].Str? then
      var name := TrimSpace(v.fields[REF].s);
      if HasPrefix(name, LOCAL) && name[|LOCAL|..] in Definitions(root)
      then Some(Definitions(root)[name[|LOCAL|..]])
      else None
    else None
  }

  function Read(root: map<string, Value>, v: Value, moves: seq<Move>): (r: Option<Value>)
    decreases |moves|
  {
    if moves == [] then Some(v)
    else
      var next := match moves[0] case Down(e) => Child(v, e) case Follow => Local(root, v);
      match next case None => None case Some(c) => Read(root, c, moves[1..])
  }

  /** The node is one the walk has looked at, or a bare string. */
  ghost predicate Checked(root: map<string, Value>, v: Value) {
    v.Str? || exists p :: At(Obj(root), p) == Some(v)
  }

  lemma {:induction false} AtExtends(v: Value, p: seq<Edge>, e: Edge)
    requires At(v, p).Some?
    ensures At(v, p + [e]) == Child(At(v, p).value, e)
  {
    if p == [] {
      assert [e][1..] == [];
    } else {
      assert (p + [e])[1..] == p[1..] + [e];
      AtExtends(Child(v, p[0]).value, p[1..], e);
    }
  }

  /**
   * In an accepted schema, however long a reader descends and follows local references, every node it
   * meets was checked: a bare string, or a node of the schema within the depth bound whose own
   * reference, if any, resolves.
   */
  lemma {:induction false} ReadersStayOnCheckedNodes(root: map<string, Value>, v: Value, moves: seq<Move>)
    requires Accepted(root, Obj(root), 0) && Checked(root, v)
    requires Read(root, v, moves).Some?
    ensures Checked(root, Read(root, v, moves).value) && NodeOk(root, Read(root, v, moves).value)
    decreases |moves|
  {
    hide NodeOk;
    if moves == [] {
      CheckedIsOk(root, v);
    } else {
      var next := match moves[0] case Down(e) => Child(v, e) case Follow => Local(root, v);
      match moves[0] {
        case Down(e) =>
          var p :| At(Obj(root), p) == Some(v);
          AtExtends(Obj(root), p, e);
        case Follow =>
          TargetIsChecked(root, v);
      }
      ReadersStayOnCheckedNodes(root, next.value, moves[1..]);
    }
  }

  lemma CheckedIsOk(root: map<string, Value>, v: Value)
    requires Accepted(root, Obj(root), 0) && Checked(root, v)
    ensures NodeOk(root, v)
  {
    if !v.Str? {
      var p :| At(Obj(root), p) == Some(v);
    }
  }

  /** A local reference leads to a definition the walk has looked at; "$ref" as a definition's name is a bare string. */
  lemma TargetIsChecked(root: map<string, Value>, v: Value)
    requires Accepted(root, Obj(root), 0) && Local(root, v).Some?
    ensures Checked(root, Local(root, v).value)
  {
    var target := Local(root, v).value;
    var name := TrimSpace(v.fields[REF].s)[|LOCAL|..];
    var p := [Field(DEFS)];
    assert At(Obj(root), p) == Some(root[DEFS]) by {
      assert At(Obj(root), []) == Some(Obj(root));
      AtExtends(Obj(root), [], Field(DEFS));
    }
    if name == REF {
      assert NodeOk(root, root[DEFS]);
    } else {
      AtExtends(Obj(root), p, Field(name));
    }
  }
}
