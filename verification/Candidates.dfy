/**
 * Validation of authored definitions: a candidate's backend-owned fields are
 * filled in before the definition is checked.
 */
module Candidates {
  import opened Optional
  import opened Text
  import Defaults
  import SchemaWalk
  import Profile

  /** Constants and tables of the SDK. `tool` says whether a known tool needs allowed objects. */
  datatype Sdk = Sdk(
    taskContract: string, entrypointContract: string, contextContract: string, routingContract: string,
        principalContract: string,
    analysisOnly: string, proposalOnly: string, actionAllowed: string, outcomes: set<string>, routes: set<string>,
    tool: string -> Option<bool>, attachmentOk: nat -> bool)

  type Schema = Option<map<string, SchemaWalk.Value>>

  datatype Context = Context(contractVersion: string, maxSelectedRecords: int, maxContextBytes: int,
      hintFields: seq<string>)
  datatype Routing = Routing(contractVersion: string, routeTypes: seq<string>, allowRecursive: bool)

  datatype SkillDefinition = SkillDefinition(key: string, name: string, version: string, allowedTools: seq<string>,
      allowedObjects: seq<string>)
  datatype AgentDefinition = AgentDefinition(
    key: string, name: string, version: string, tools: seq<string>, skillKeys: seq<string>, limits: Profile.Limits)
  datatype TaskDefinition = TaskDefinition(
    contractVersion: string, key: string, version: string, agentKey: string, instruction: string,
    inputSchema: Schema, attachmentSchema: nat, outputSchema: Schema,
    allowedObjects: seq<string>, allowedActions: seq<string>, allowedOutcomes: seq<string>, sideEffectMode: string,
        limits: Profile.Limits)
  datatype EntrypointDefinition = EntrypointDefinition(
    contractVersion: string, key: string, agentKey: string,
    permissions: seq<string>, routePatterns: seq<string>, taskKeys: seq<string>, workflowKeys: seq<string>,
        context: Context, routing: Routing)
  datatype PrincipalDefinition = PrincipalDefinition(contractVersion: string, key: string, userID: string,
      roleKey: string, rotationVersion: int)

  datatype Candidate =
    | Skill(skill: SkillDefinition) | Agent(agent: AgentDefinition) | Task(task: TaskDefinition)
    | Entrypoint(entrypoint: EntrypointDefinition) | Principal(principal: PrincipalDefinition)

  // ---------- lists without repetition ----------

  /** No value is blank, and no two are alike once trimmed. */
  ghost predicate Unique(values: seq<string>) {
    && (forall v <- values :: !Blank(v))
    && forall i, j :: 0 <= i < j < |values| ==> TrimSpace(values[i]) != TrimSpace(values[j])
  }

  method ValidateUnique(values: seq<string>) returns (ok: bool)
    ensures ok <==> Unique(values)
  {
    hide TrimSpace;
    var seen := {};
    for i := 0 to |values|
      invariant forall x :: x in seen <==> exists j :: 0 <= j < i && TrimSpace(values[j]) == x
      invariant Unique(values[..i])
    {
      var value := TrimSpace(values[i]);
      assert values[i] in values;
      if value == "" || value in seen {
        return false;
      }
      seen := seen + {value};
      assert values[..i + 1] == values[..i] + [values[i]];
    }
    assert values[..|values|] == values;
    return true;
  }

  predicate TrimmedWithin(values: seq<string>, allowed: set<string>) {
    forall v <- values :: TrimSpace(v) in allowed
  }

  // ---------- definitions ----------

  predicate ToolsFit(sdk: Sdk, tools: seq<string>, objects: bool) {
    forall t <- tools :: sdk.tool(t).Some? && (sdk.tool(t).value ==> objects)
  }

  ghost predicate SchemaOk(s: Schema) {
    s.Some? && SchemaWalk.RootTypeIsObject(s.value) && SchemaWalk.Accepted(s.value, SchemaWalk.Obj(s.value), 0)
  }

  predicate ModeFits(sdk: Sdk, mode: string, actions: seq<string>) {
    if mode == sdk.analysisOnly then actions == []
    else (mode == sdk.proposalOnly || mode == sdk.actionAllowed) && actions != []
  }

  const HINTS := {"route_key", "object_key", "record_id", "selected_record_ids", "locale", "timezone"}

  ghost predicate ContextOk(sdk: Sdk, c: Context) {
    && c.contractVersion == sdk.contextContract && 1 <= c.maxSelectedRecords <= 100 &&
         1024 <= c.maxContextBytes <= 1048576
    && Unique(c.hintFields) && TrimmedWithin(c.hintFields, HINTS)
  }

  ghost predicate RoutingOk(sdk: Sdk, r: Routing) {
    && r.contractVersion == sdk.routingContract && r.routeTypes != [] && !r.allowRecursive
    && Unique(r.routeTypes) && TrimmedWithin(r.routeTypes, sdk.routes)
  }

  predicate KeyOk(key: string) {
    StableKey(TrimSpace(key))
  }

  ghost predicate ValidSkill(sdk: Sdk, s: SkillDefinition) {
    && KeyOk(s.key) && !Blank(s.name) && Unique(s.allowedTools) && Unique(s.allowedObjects)
    && ToolsFit(sdk, s.allowedTools, s.allowedObjects != [])
  }

  ghost predicate ValidAgent(sdk: Sdk, a: AgentDefinition) {
    && KeyOk(a.key) && !Blank(a.name) && Unique(a.tools) && Unique(a.skillKeys)
    && ToolsFit(sdk, a.tools, true) && Profile.LimitsOk(a.limits)
  }

  ghost predicate ValidTask(sdk: Sdk, t: TaskDefinition) {
    && t.contractVersion == sdk.taskContract && KeyOk(t.key) && !Blank(t.version) && KeyOk(t.agentKey) &&
         !Blank(t.instruction)
    && SchemaOk(t.inputSchema) && sdk.attachmentOk(t.attachmentSchema) && SchemaOk(t.outputSchema)
    && t.allowedOutcomes != [] && Unique(t.allowedObjects) && Unique(t.allowedActions) && Unique(t.allowedOutcomes)
    && ModeFits(sdk, t.sideEffectMode, t.allowedActions) && TrimmedWithin(t.allowedOutcomes, sdk.outcomes) &&
         Profile.LimitsOk(t.limits)
  }

  ghost predicate ValidEntrypoint(sdk: Sdk, e: EntrypointDefinition) {
    && e.contractVersion == sdk.entrypointContract && KeyOk(e.key) && KeyOk(e.agentKey)
    && Unique(e.permissions) && Unique(e.routePatterns) && Unique(e.taskKeys) && Unique(e.workflowKeys)
    && e.permissions != [] && e.routePatterns != [] && ContextOk(sdk, e.context) && RoutingOk(sdk, e.routing)
  }

  predicate ValidPrincipal(sdk: Sdk, p: PrincipalDefinition) {
    p.contractVersion == sdk.principalContract && KeyOk(p.key) && KeyOk(p.userID) && KeyOk(p.roleKey) &&
        p.rotationVersion >= 1
  }

  ghost predicate ValidDefinition(sdk: Sdk, c: Candidate) {
    match c
    case Skill(s) => ValidSkill(sdk, s)
    case Agent(a) => ValidAgent(sdk, a)
    case Task(t) => ValidTask(sdk, t)
    case Entrypoint(e) => ValidEntrypoint(sdk, e)
    case Principal(p) => ValidPrincipal(sdk, p)
  }

  method WithinLoop(values: seq<string>, allowed: set<string>) returns (ok: bool)
    ensures ok <==> TrimmedWithin(values, allowed)
  {
    hide TrimSpace;
    for i := 0 to |values|
      invariant TrimmedWithin(values[..i], allowed)
    {
      assert values[i] in values;
      if TrimSpace(values[i]) !in allowed {
        return false;
      }
      assert values[..i + 1] == values[..i] + [values[i]];
    }
    assert values[..|values|] == values;
    return true;
  }

  method ToolLoop(sdk: Sdk, tools: seq<string>, objects: bool) returns (ok: bool)
    ensures ok <==> ToolsFit(sdk, tools, objects)
  {
    for i := 0 to |tools|
      invariant ToolsFit(sdk, tools[..i], objects)
    {
      assert tools[i] in tools;
      if sdk.tool(tools[i]).None? || (sdk.tool(tools[i]).value && !objects) {
        return false;
      }
      assert tools[..i + 1] == tools[..i] + [tools[i]];
    }
    assert tools[..|tools|] == tools;
    return true;
  }

  /** The lists of an entrypoint come out of a map, so they are checked in any order. */
  method AllUnique(lists: seq<seq<string>>) returns (ok: bool)
    ensures ok <==> forall l <- lists :: Unique(l)
  {
    hide Unique;
    var rest := set l | l in lists;
    while rest != {}
      invariant forall l <- rest :: l in lists
      invariant forall l <- lists :: l in rest || Unique(l)
      decreases |rest|
    {
      var l :| l in rest;
      ok := ValidateUnique(l);
      if !ok {
        return;
      }
      rest := rest - {l};
    }
    return true;
  }

  method ValidateEntrypoint(sdk: Sdk, e: EntrypointDefinition) returns (ok: bool)
    ensures ok <==> ValidEntrypoint(sdk, e)
  {
    hide Unique, TrimmedWithin, KeyOk;
    if e.contractVersion != sdk.entrypointContract || !KeyOk(e.key) || !KeyOk(e.agentKey) {
      return false;
    }
    var lists := [e.permissions, e.routePatterns, e.taskKeys, e.workflowKeys];
    ok := AllUnique(lists);
    assert lists[0] in lists && lists[1] in lists && lists[2] in lists && lists[3] in lists;
    if !ok || |e.permissions| == 0 || |e.routePatterns| == 0 {
      return false;
    }
    ok := ValidateContext(sdk, e.context);
    if ok {
      ok := ValidateRouting(sdk, e.routing);
    }
  }

  method ValidateContext(sdk: Sdk, c: Context) returns (ok: bool)
    ensures ok <==> ContextOk(sdk, c)
  {
    if c.contractVersion != sdk.contextContract || c.maxSelectedRecords < 1 || c.maxSelectedRecords > 100
       || c.maxContextBytes < 1024 || c.maxContextBytes > 1048576 {
      return false;
    }
    ok := ValidateUnique(c.hintFields);
    if ok {
      ok := WithinLoop(c.hintFields, HINTS);
    }
  }

  method ValidateRouting(sdk: Sdk, r: Routing) returns (ok: bool)
    ensures ok <==> RoutingOk(sdk, r)
  {
    if r.contractVersion != sdk.routingContract || |r.routeTypes| == 0 || r.allowRecursive {
      return false;
    }
    ok := ValidateUnique(r.routeTypes);
    if ok {
      ok := WithinLoop(r.routeTypes, sdk.routes);
    }
  }

  method ValidateTask(sdk: Sdk, t: TaskDefinition) returns (ok: bool)
    ensures ok <==> ValidTask(sdk, t)
  {
    hide Unique, TrimmedWithin, KeyOk, Blank, ModeFits, Profile.LimitsOk, SchemaOk;
    if t.contractVersion != sdk.taskContract || !KeyOk(t.key) || Blank(t.version) || !KeyOk(t.agentKey) ||
        Blank(t.instruction) {
      return false;
    }
    ok := ValidateSchema(t.inputSchema);
    if !ok || !sdk.attachmentOk(t.attachmentSchema) {
      return false;
    }
    ok := ValidateSchema(t.outputSchema);
    if !ok || |t.allowedOutcomes| == 0 {
      return false;
    }
    ok := ValidateTaskLists(sdk, t);
    ok := ok && Profile.LimitsOk(t.limits);
  }

  method ValidateSchema(s: Schema) returns (ok: bool)
    ensures ok <==> SchemaOk(s)
  {
    ok := SchemaWalk.ValidateObjectSchema(s);
  }

  method ValidateTaskLists(sdk: Sdk, t: TaskDefinition) returns (ok: bool)
    ensures ok <==>
      && Unique(t.allowedObjects) && Unique(t.allowedActions) && Unique(t.allowedOutcomes)
      && ModeFits(sdk, t.sideEffectMode, t.allowedActions) && TrimmedWithin(t.allowedOutcomes, sdk.outcomes)
  {
    hide Unique, TrimmedWithin, ModeFits;
    var lists := [t.allowedObjects, t.allowedActions, t.allowedOutcomes];
    ok := AllUnique(lists);
    assert lists[0] in lists && lists[1] in lists && lists[2] in lists;
    if !ok || !ModeFits(sdk, t.sideEffectMode, t.allowedActions) {
      return false;
    }
    ok := WithinLoop(t.allowedOutcomes, sdk.outcomes);
  }

  method ValidateSkill(sdk: Sdk, s: SkillDefinition) returns (ok: bool)
    ensures ok <==> ValidSkill(sdk, s)
  {
    hide Unique, ToolsFit, KeyOk, Blank;
    if !KeyOk(s.key) || Blank(s.name) {
      return false;
    }
    var lists := [s.allowedTools, s.allowedObjects];
    ok := AllUnique(lists);
    assert lists[0] in lists && lists[1] in lists;
    if ok {
      ok := ToolLoop(sdk, s.allowedTools, s.allowedObjects != []);
    }
  }

  method ValidateAgent(sdk: Sdk, a: AgentDefinition) returns (ok: bool)
    ensures ok <==> ValidAgent(sdk, a)
  {
    hide Unique, ToolsFit, KeyOk, Blank, Profile.LimitsOk;
    if !KeyOk(a.key) || Blank(a.name) {
      return false;
    }
    var lists := [a.tools, a.skillKeys];
    ok := AllUnique(lists);
    assert lists[0] in lists && lists[1] in lists;
    if ok {
      ok := ToolLoop(sdk, a.tools, true);
      ok := ok && Profile.LimitsOk(a.limits);
    }
  }

  // ---------- what the backend fills in ----------

  const INITIAL_VERSION := "1.0.0"

  function OrDefault(version: string, supported: string): (r: string) {
    if version == "" then supported else version
  }

  function PreparedContext(sdk: Sdk, c: Context): (r: Context) {
    c.(contractVersion := OrDefault(c.contractVersion, sdk.contextContract), maxSelectedRecords := 20,
        maxContextBytes := 65536)
  }

  /** The candidate as the validator checks it. */
  function Prepared(sdk: Sdk, c: Candidate): (r: Candidate) {
    match c
    case Skill(s) => Skill(s.(version := INITIAL_VERSION))
    case Agent(a) => Agent(a.(version := INITIAL_VERSION))
    case Task(t) => Task(t.(contractVersion := OrDefault(t.contractVersion, sdk.taskContract),
        version := INITIAL_VERSION))
    case Entrypoint(e) =>
      Entrypoint(e.(contractVersion := OrDefault(e.contractVersion, sdk.entrypointContract),
                    context := PreparedContext(sdk, e.context),
                    routing := e.routing.(contractVersion := OrDefault(e.routing.contractVersion,
                        sdk.routingContract))))
    case Principal(p) => Principal(p.(contractVersion := OrDefault(p.contractVersion, sdk.principalContract),
        rotationVersion := 1))
  }

  /** The candidate without anything the published schema leaves to the backend. */
  function Authored(c: Candidate): (r: Candidate) {
    match c
    case Skill(s) => Skill(s.(version := ""))
    case Agent(a) => Agent(a.(version := ""))
    case Task(t) => Task(t.(contractVersion := "", version := ""))
    case Entrypoint(e) =>
      Entrypoint(e.(contractVersion := "",
                    context := e.context.(contractVersion := "", maxSelectedRecords := 0, maxContextBytes := 0),
                    routing := e.routing.(contractVersion := "", allowRecursive := false)))
    case Principal(p) => Principal(p.(contractVersion := "", rotationVersion := 0))
  }

  predicate Supported(version: string, supported: string) {
    version == "" || version == supported
  }

  /** What remains of the removed fields in the verdict: contract versions and the recursion flag. */
  predicate Admitted(sdk: Sdk, c: Candidate) {
    match c
    case Task(t) => Supported(t.contractVersion, sdk.taskContract)
    case Entrypoint(e) =>
      && Supported(e.contractVersion, sdk.entrypointContract) &&
           Supported(e.context.contractVersion, sdk.contextContract)
      && Supported(e.routing.contractVersion, sdk.routingContract) && !e.routing.allowRecursive
    case Principal(p) => Supported(p.contractVersion, sdk.principalContract)
    case _ => true
  }

  /**
   * A candidate is accepted exactly when its authored part is, and its contract versions and recursion flag
   * are admitted.
   */
  lemma VerdictExactly(sdk: Sdk, c: Candidate)
    ensures ValidDefinition(sdk, Prepared(sdk, c)) <==>
              ValidDefinition(sdk, Prepared(sdk, Authored(c))) && Admitted(sdk, c)
  {
    hide Unique, ToolsFit, KeyOk, Blank, SchemaOk, TrimmedWithin, ModeFits, Profile.LimitsOk;
  }

  /**
   * The capability validator on a decoded candidate: it fills in the fields one by one, and its verdict is
   * about the authored part and what is admitted beside it.
   */
  method ValidateCandidate(sdk: Sdk, c: Candidate) returns (ok: bool)
    ensures ok <==> ValidDefinition(sdk, Prepared(sdk, Authored(c))) && Admitted(sdk, c)
  {
    hide ValidSkill, ValidAgent, ValidTask, ValidEntrypoint, ValidPrincipal, Authored, Admitted;
    VerdictExactly(sdk, c);
    match c {
      case Skill(s) =>
        ok := ValidateSkill(sdk, s.(version := INITIAL_VERSION));
      case Agent(a) =>
        ok := ValidateAgent(sdk, a.(version := INITIAL_VERSION));
      case Task(task) =>
        var t := task;
        if t.contractVersion == "" {
          t := t.(contractVersion := sdk.taskContract);
        }
        t := t.(version := INITIAL_VERSION);
        ok := ValidateTask(sdk, t);
      case Entrypoint(entrypoint) =>
        var e := entrypoint;
        if e.contractVersion == "" {
          e := e.(contractVersion := sdk.entrypointContract);
        }
        if e.context.contractVersion == "" {
          e := e.(context := e.context.(contractVersion := sdk.contextContract));
        }
        e := e.(context := e.context.(maxSelectedRecords := 20, maxContextBytes := 65536));
        if e.routing.contractVersion == "" {
          e := e.(routing := e.routing.(contractVersion := sdk.routingContract));
        }
        ok := ValidateEntrypoint(sdk, e);
      case Principal(principal) =>
        var p := principal;
        if p.contractVersion == "" {
          p := p.(contractVersion := sdk.principalContract);
        }
        p := p.(rotationVersion := 1);
        ok := ValidPrincipal(sdk, p);
    }
  }

  /** The candidate without the fields the backend sets whatever was submitted. */
  function WithoutOverwritten(c: Candidate): (r: Candidate) {
    match c
    case Skill(s) => Skill(s.(version := ""))
    case Agent(a) => Agent(a.(version := ""))
    case Task(t) => Task(t.(version := ""))
    case Entrypoint(e) => Entrypoint(e.(context := e.context.(maxSelectedRecords := 0, maxContextBytes := 0)))
    case Principal(p) => Principal(p.(rotationVersion := 0))
  }

  /** The submitted version, context limits and rotation version never decide. */
  lemma OverwrittenNeverMatters(sdk: Sdk, c: Candidate, c': Candidate)
    requires WithoutOverwritten(c) == WithoutOverwritten(c')
    ensures ValidDefinition(sdk, Prepared(sdk, c)) <==> ValidDefinition(sdk, Prepared(sdk, c'))
  {
    hide ValidDefinition;
    assert Prepared(sdk, c) == Prepared(sdk, c');
  }

  /** A removed field can still reject: an unsupported contract version does, where leaving it out passes. */
  lemma RemovedFieldStillDecides(sdk: Sdk, version: string, key: string, rotation: int)
    requires KeyOk(key) && version != "" && version != sdk.principalContract
    ensures ValidDefinition(sdk, Prepared(sdk, Principal(PrincipalDefinition("", key, key, key, rotation))))
    ensures !ValidDefinition(sdk, Prepared(sdk, Principal(PrincipalDefinition(version, key, key, key, rotation))))
  {
    hide KeyOk, ValidSkill, ValidAgent, ValidTask, ValidEntrypoint;
  }

  // ---------- what the published schemas leave out ----------

  function Kind(c: Candidate): (k: string) {
    match c
    case Skill(_) => "agent.skill"
    case Agent(_) => "agent.agent"
    case Task(_) => "agent.task"
    case Entrypoint(_) => "agent.entrypoint"
    case Principal(_) => "agent.service_principal"
  }

  /** A field of a candidate, or of one of an entrypoint's nested contracts. */
  datatype Path = Root(field: string) | InContext(field: string) | InRouting(field: string)

  /** The candidate with one field left out, which is to say at its zero value. */
  function Without(c: Candidate, p: Path): (r: Candidate) {
    match (c, p)
    case (Skill(s), Root(f)) => if f == "version" then Skill(s.(version := "")) else c
    case (Agent(a), Root(f)) => if f == "version" then Agent(a.(version := "")) else c
    case (Task(t), Root(f)) =>
      if f == "version" then Task(t.(version := ""))
      else if f == "contract_version" then Task(t.(contractVersion := "")) else c
    case (Entrypoint(e), Root(f)) => if f == "contract_version" then Entrypoint(e.(contractVersion := "")) else c
    case (Entrypoint(e), InContext(f)) =>
      if f == "contract_version" then Entrypoint(e.(context := e.context.(contractVersion := "")))
      else if f == "max_selected_records" then Entrypoint(e.(context := e.context.(maxSelectedRecords := 0)))
      else if f == "max_context_bytes" then Entrypoint(e.(context := e.context.(maxContextBytes := 0))) else c
    case (Entrypoint(e), InRouting(f)) =>
      if f == "contract_version" then Entrypoint(e.(routing := e.routing.(contractVersion := "")))
      else if f == "allow_recursive" then Entrypoint(e.(routing := e.routing.(allowRecursive := false))) else c
    case (Principal(q), Root(f)) =>
      if f == "contract_version" then Principal(q.(contractVersion := ""))
      else if f == "rotation_version" then Principal(q.(rotationVersion := 0)) else c
    case _ => c
  }

  function WithoutAll(c: Candidate, ps: seq<Path>): (r: Candidate)
    decreases ps
  {
    if ps == [] then c else WithoutAll(Without(c, ps[0]), ps[1..])
  }

  function RootPaths(fields: seq<string>): (ps: seq<Path>)
    ensures |ps| == |fields| && forall i :: 0 <= i < |ps| ==> ps[i] == Root(fields[i])
  {
    seq(|fields|, i requires 0 <= i < |fields| => Root(fields[i]))
  }

  function ContextPaths(fields: seq<string>): (ps: seq<Path>)
    ensures |ps| == |fields| && forall i :: 0 <= i < |ps| ==> ps[i] == InContext(fields[i])
  {
    seq(|fields|, i requires 0 <= i < |fields| => InContext(fields[i]))
  }

  function RoutingPaths(fields: seq<string>): (ps: seq<Path>)
    ensures |ps| == |fields| && forall i :: 0 <= i < |ps| ==> ps[i] == InRouting(fields[i])
  {
    seq(|fields|, i requires 0 <= i < |fields| => InRouting(fields[i]))
  }

  /** Everything applyAgentSchemaConstraints removes from a kind's schema and the schemas nested in it. */
  function RemovedPaths(kind: string): (ps: seq<Path>) {
    RootPaths(Defaults.RootFields(kind))
    + if kind == "agent.entrypoint"
      then ContextPaths(Defaults.CONTEXT_FIELDS) + RoutingPaths(Defaults.ROUTING_FIELDS) else []
  }

  lemma {:induction false} WithoutBoth(c: Candidate, a: seq<Path>, b: seq<Path>)
    ensures WithoutAll(c, a + b) == WithoutAll(WithoutAll(c, a), b)
    decreases a
  {
    if a == [] {
      assert a + b == b;
    } else {
      assert (a + b)[1..] == a[1..] + b;
      WithoutBoth(Without(c, a[0]), a[1..], b);
    }
  }

  lemma WithoutThese(c: Candidate, p: Path, q: Path, r: Path)
    ensures WithoutAll(c, [p]) == Without(c, p)
    ensures WithoutAll(c, [p, q]) == Without(Without(c, p), q)
    ensures WithoutAll(c, [p, q, r]) == Without(Without(Without(c, p), q), r)
  {
    hide Without;
    assert [p, q, r][1..] == [q, r] && [p, q][1..] == [q] && [q, r][1..] == [r];
    assert forall d, x :: WithoutAll(d, [x]) == Without(d, x);
    assert WithoutAll(Without(c, p), [q, r]) == WithoutAll(Without(Without(c, p), q), [r]);
  }

  /** The fields removed from a kind's published schema are exactly those that the authored part lacks. */
  lemma AuthoredLacksTheRemoved(c: Candidate)
    ensures WithoutAll(c, RemovedPaths(Kind(c))) == Authored(c)
  {
    hide WithoutAll, RootPaths;
    var version, contract, rotation := Root("version"), Root("contract_version"), Root("rotation_version");
    match c {
      case Skill(_) => assert RemovedPaths(Kind(c)) == [version]; WithoutThese(c, version, version, version);
      case Agent(_) => assert RemovedPaths(Kind(c)) == [version]; WithoutThese(c, version, version, version);
      case Task(_) => assert RemovedPaths(Kind(c)) == [contract, version]; WithoutThese(c, contract, version, version);
      case Principal(_) => assert RemovedPaths(Kind(c)) == [contract, rotation]; WithoutThese(c, contract, rotation,
          rotation);
      case Entrypoint(_) => EntrypointLacksTheRemoved(c);
    }
  }

  lemma EntrypointLacksTheRemoved(c: Candidate)
    requires c.Entrypoint?
    ensures WithoutAll(c, RemovedPaths("agent.entrypoint")) == Authored(c)
  {
    hide WithoutAll, RootPaths, ContextPaths, RoutingPaths;
    var contract := Root("contract_version");
    var version, records, bytes := InContext("contract_version"), InContext("max_selected_records"),
        InContext("max_context_bytes");
    var routing, recursive := InRouting("contract_version"), InRouting("allow_recursive");
    assert RemovedPaths("agent.entrypoint") == [contract] + ([version, records, bytes] + [routing, recursive]);
    WithoutBoth(c, [contract], [version, records, bytes] + [routing, recursive]);
    WithoutThese(c, contract, contract, contract);
    var c1 := Without(c, contract);
    WithoutBoth(c1, [version, records, bytes], [routing, recursive]);
    WithoutThese(c1, version, records, bytes);
    var c2 := Without(Without(Without(c1, version), records), bytes);
    WithoutThese(c2, routing, recursive, recursive);
  }

  /** A candidate says nothing the published schema has left out. */
  ghost predicate FollowsPublished(c: Candidate) {
    forall p <- RemovedPaths(Kind(c)) :: Without(c, p) == c
  }

  lemma {:induction false} NothingToLeaveOut(c: Candidate, ps: seq<Path>)
    requires forall p <- ps :: Without(c, p) == c
    ensures WithoutAll(c, ps) == c
  {
    hide Without;
    if ps != [] {
      assert ps[0] in ps && forall p <- ps[1..] :: p in ps;
      NothingToLeaveOut(c, ps[1..]);
    }
  }

  /** Whoever follows the published schema is judged on what was authored, and on nothing else. */
  lemma FollowersAreJudgedAsAuthored(sdk: Sdk, c: Candidate)
    requires FollowsPublished(c)
    ensures Authored(c) == c && Admitted(sdk, c)
  {
    hide WithoutAll, RemovedPaths, Without;
    NothingToLeaveOut(c, RemovedPaths(Kind(c)));
    AuthoredLacksTheRemoved(c);
  }
}
