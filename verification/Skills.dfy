/** Skill definitions and the validation every reusable Skill goes through. */
module Skills {
  import opened Text
  import W = Workflow

  /** Raw JSON as validation sees it: its size, and whether it decodes to an object whose "type" is "object". */
  datatype RawSchema = RawSchema(bytes: nat, objectTyped: bool)

  datatype Resource = Resource(key: string, name: string, mediaType: string, description: string, content: string)

  datatype Step = Step(
    key: string, name: string, instructions: string, dependsOn: seq<string>, allowedTools: seq<string>,
    inputPointers: seq<string>, outputPointers: seq<string>)

  datatype Skill = Skill(
    key: string, version: string, name: string, description: string, instructions: string,
    inputSchema: RawSchema, outputSchema: RawSchema, resources: seq<Resource>, workflow: seq<Step>,
    allowedTools: seq<string>)

  predicate Bounded(s: string, max: nat) {
    ByteLen(s) <= max
  }

  predicate HeaderOk(s: Skill) {
    && StableKey(s.key)
    && !Blank(s.version) && Bounded(s.version, 128)
    && !Blank(s.name) && Bounded(s.name, 256)
    && !Blank(s.instructions) && Bounded(s.instructions, 32768)
    && Bounded(s.description, 2048)
  }

  predicate SchemaOk(raw: RawSchema) {
    raw.bytes == 0 || raw.objectTyped
  }

  predicate ResourceOk(r: Resource) {
    && StableKey(r.key)
    && !Blank(r.name) && Bounded(r.name, 256)
    && !Blank(r.mediaType) && Bounded(r.mediaType, 128)
    && Bounded(r.description, 2048) && Bounded(r.content, 65536)
  }

  predicate StepOk(s: Step) {
    && StableKey(s.key)
    && !Blank(s.name) && Bounded(s.name, 256)
    && !Blank(s.instructions) && Bounded(s.instructions, 8192)
    && |s.dependsOn| <= 32 && |s.allowedTools| <= 32 && |s.inputPointers| <= 32 && |s.outputPointers| <= 32
  }

  function ContentBytes(rs: seq<Resource>): (n: nat) {
    if rs == [] then 0 else ContentBytes(rs[..|rs| - 1]) + ByteLen(rs[|rs| - 1].content)
  }

  ghost predicate ResourcesOk(rs: seq<Resource>) {
    && (forall r <- rs :: ResourceOk(r))
    && forall i, j :: 0 <= i < j < |rs| ==> rs[i].key != rs[j].key
  }

  ghost predicate StepsOk(steps: seq<Step>) {
    && (forall s <- steps :: StepOk(s))
    && forall i, j :: 0 <= i < j < |steps| ==> steps[i].key != steps[j].key
  }

  /** The dependency graph a list of steps declares. */
  function GraphOf(steps: seq<Step>): (g: W.Graph)
    ensures forall k :: k in g <==> exists i :: 0 <= i < |steps| && steps[i].key == k
  {
    if steps == [] then map[]
    else GraphOf(steps[..|steps| - 1])[steps[|steps| - 1].key := steps[|steps| - 1].dependsOn]
  }

  lemma {:induction false} GraphOfKeepsDependencies(steps: seq<Step>, i: nat)
    requires StepsOk(steps) && i < |steps|
    ensures steps[i].key in GraphOf(steps) && GraphOf(steps)[steps[i].key] == steps[i].dependsOn
  {
    if i < |steps| - 1 {
      assert steps[..|steps| - 1][i] == steps[i];
      GraphOfKeepsDependencies(steps[..|steps| - 1], i);
    }
  }

  ghost predicate ValidSkill(s: Skill) {
    && HeaderOk(s)
    && SchemaOk(s.inputSchema) && SchemaOk(s.outputSchema)
    && |s.resources| <= 32 && |s.workflow| <= 32
    && ResourcesOk(s.resources) && ContentBytes(s.resources) <= 262144
    && StepsOk(s.workflow)
    && W.Closed(GraphOf(s.workflow)) && W.Acyclic(GraphOf(s.workflow))
  }

  /** Said of the steps themselves: whatever a step of a valid Skill depends on is one of its steps. */
  lemma DependenciesAreSteps(s: Skill, i: nat, d: string)
    requires ValidSkill(s) && i < |s.workflow| && d in s.workflow[i].dependsOn
    ensures exists j :: 0 <= j < |s.workflow| && s.workflow[j].key == d
  {
    GraphOfKeepsDependencies(s.workflow, i);
    assert s.workflow[i].key in GraphOf(s.workflow) && d in GraphOf(s.workflow);
  }

  /** A way through the steps, each depending on the next. */
  ghost predicate AlongDependencies(steps: seq<Step>, walk: seq<nat>) {
    && (forall i :: 0 <= i < |walk| ==> walk[i] < |steps|)
    && forall i :: 0 <= i < |walk| - 1 ==> steps[walk[i + 1]].key in steps[walk[i]].dependsOn
  }

  /** And whoever goes along dependencies, as long as they like, never comes back. */
  lemma NoWayBack(s: Skill, walk: seq<nat>)
    requires ValidSkill(s) && |walk| >= 2 && AlongDependencies(s.workflow, walk)
    ensures walk[0] != walk[|walk| - 1]
  {
    hide HeaderOk, ResourcesOk, StepsOk, GraphOf;
    var g := GraphOf(s.workflow);
    var p := seq(|walk|, i requires 0 <= i < |walk| => s.workflow[walk[i]].key);
    forall i | 0 <= i < |p| - 1
      ensures p[i] in g && p[i + 1] in g[p[i]]
    {
      GraphOfKeepsDependencies(s.workflow, walk[i]);
    }
    assert !W.IsCycle(g, p);
  }

  /** The resource loop: every resource well formed, no key twice; its sum feeds the later budget check. */
  method CheckResources(rs: seq<Resource>) returns (ok: bool, bytes: nat)
    ensures ok <==> ResourcesOk(rs)
    ensures ok ==> bytes == ContentBytes(rs)
  {
    hide ResourceOk;
    var keys := {};
    bytes := 0;
    for i := 0 to |rs|
      invariant ResourcesOk(rs[..i])
      invariant keys == set r | r in rs[..i] :: r.key
      invariant bytes == ContentBytes(rs[..i])
    {
      bytes := bytes + ByteLen(rs[i].content);
      assert rs[..i + 1][..i] == rs[..i];
      if !ResourceOk(rs[i]) || rs[i].key in keys {
        assert rs[i] in rs;
        return false, bytes;
      }
      keys := keys + {rs[i].key};
    }
    assert rs[..|rs|] == rs;
    return true, bytes;
  }

  /** The step loop: fills the map of steps, refusing malformed and repeated ones. */
  method CollectSteps(steps: seq<Step>) returns (ok: bool, g: W.Graph)
    ensures ok <==> StepsOk(steps)
    ensures ok ==> g == GraphOf(steps)
  {
    hide StepOk;
    g := map[];
    for i := 0 to |steps|
      invariant StepsOk(steps[..i])
      invariant g == GraphOf(steps[..i])
    {
      assert steps[..i + 1][..i] == steps[..i];
      if !StepOk(steps[i]) {
        assert steps[i] in steps;
        return false, g;
      }
      if steps[i].key in g {
        var j :| 0 <= j < i && steps[..i][j].key == steps[i].key;
        return false, g;
      }
      g := g[steps[i].key := steps[i].dependsOn];
    }
    assert steps[..|steps|] == steps;
    return true, g;
  }

  method ValidateSkill(skill: Skill) returns (ok: bool)
    ensures ok <==> ValidSkill(skill)
  {
    hide HeaderOk, ResourcesOk, StepsOk, ContentBytes, GraphOf, W.Closed, W.Acyclic;
    if !HeaderOk(skill) {
      return false;
    }
    if skill.inputSchema.bytes > 0 && !skill.inputSchema.objectTyped {
      return false;
    }
    if skill.outputSchema.bytes > 0 && !skill.outputSchema.objectTyped {
      return false;
    }
    if |skill.resources| > 32 || |skill.workflow| > 32 {
      return false;
    }
    var resourcesOk, bytes := CheckResources(skill.resources);
    if !resourcesOk || bytes > 262144 {
      return false;
    }
    var stepsOk, graph := CollectSteps(skill.workflow);
    if !stepsOk {
      return false;
    }
    var walk := new W.Walk(graph);
    ok := walk.VisitAll();
  }
}
