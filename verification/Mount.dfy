/**
 * The action manifest of the standalone service and the loop that mounts a
 * handler for every action while using up the table of registered handlers.
 */
module Mount {
  import opened Optional
  import opened Text

  datatype Handler = Nil | Registered(name: string) | Repository(operation: string) | Conversation(operation: string)

  datatype Mounted = Mounted(pattern: string, key: string, handler: Handler)

  const REPOSITORY_PREFIX := "agent.saas.repository."
  const CONVERSATION_PREFIX := "agent.saas.conversation."

  predicate ForRepository(key: string) {
    HasPrefix(key, REPOSITORY_PREFIX)
  }

  predicate ForConversation(key: string) {
    HasPrefix(key, CONVERSATION_PREFIX)
  }

  /** Actions that need an entry of their own in the handler table. */
  predicate Own(key: string) {
    !ForRepository(key) && !ForConversation(key)
  }

  ghost predicate Distinct(keys: seq<string>) {
    forall i, j :: 0 <= i < j < |keys| ==> keys[i] != keys[j]
  }

  // ---------- the manifest ----------

  /** A key is built only with a dot that is neither its first nor its last character. */
  predicate Dotted(key: string) {
    && |key| > 0 && key[|key| - 1] != '.'
    && exists i :: 0 < i < |key| && key[i] == '.'
  }

  function ConversationKeys(operations: seq<string>): (r: seq<string>)
    ensures forall key <- r :: ForConversation(key) && key != CONVERSATION_PREFIX + "stream"
  {
    if operations == [] then []
    else
      var before := ConversationKeys(operations[..|operations| - 1]);
      var op := operations[|operations| - 1];
      if op == "stream" then before else
        assert (CONVERSATION_PREFIX + op)[|CONVERSATION_PREFIX|..] == op;
        assert (CONVERSATION_PREFIX + "stream")[|CONVERSATION_PREFIX|..] == "stream";
        before + [CONVERSATION_PREFIX + op]
  }

  /** Every key can be built and normalised, and none is registered twice. */
  ghost predicate ManifestOk(normal: string -> bool, keys: seq<string>) {
    Distinct(keys) && forall key <- keys :: Dotted(key) && normal(key)
  }

  method AuthorizationActions(normal: string -> bool, fixed: seq<string>, operations: seq<string>)
    returns (r: Option<seq<string>>)
    ensures r.Some? <==> ManifestOk(normal, fixed + ConversationKeys(operations))
    ensures r.Some? ==> r.value == fixed + ConversationKeys(operations)
  {
    hide Dotted;
    var specs := fixed;
    for i := 0 to |operations|
      invariant specs == fixed + ConversationKeys(operations[..i])
    {
      assert operations[..i + 1][..i] == operations[..i];
      if operations[i] == "stream" {
        continue;
      }
      specs := specs + [CONVERSATION_PREFIX + operations[i]];
    }
    assert operations[..|operations|] == operations;
    var registry := {};
    for i := 0 to |specs|
      invariant ManifestOk(normal, specs[..i]) && forall key :: key in registry <==> key in specs[..i]
    {
      assert specs[..i + 1] == specs[..i] + [specs[i]];
      assert specs[i] in specs;
      if !Dotted(specs[i]) || !normal(specs[i]) || specs[i] in registry {
        RegisteredTwice(normal, specs, i);
        return None;
      }
      registry := registry + {specs[i]};
    }
    assert specs[..|specs|] == specs;
    return Some(specs);
  }

  lemma RegisteredTwice(normal: string -> bool, keys: seq<string>, i: nat)
    requires i < |keys| && (!Dotted(keys[i]) || !normal(keys[i]) || keys[i] in keys[..i])
    ensures !ManifestOk(normal, keys)
  {
    hide Dotted;
    assert keys[i] in keys;
    if keys[i] in keys[..i] {
      var j :| 0 <= j < i && keys[..i][j] == keys[i];
      assert keys[j] == keys[i];
    }
  }

  // ---------- mounting ----------

  /** What the loop finds for an action in a table of handlers. */
  function Lookup(handlers: map<string, Handler>, key: string): (h: Handler) {
    if ForConversation(key) then Conversation(key[|CONVERSATION_PREFIX|..])
    else if ForRepository(key) then
      if key == REPOSITORY_PREFIX then Nil else Repository(key[|REPOSITORY_PREFIX|..])
    else if key in handlers then handlers[key] else Nil
  }

  ghost predicate AllMountable(route: string -> Option<string>, keys: seq<string>, handlers: map<string, Handler>) {
    forall key <- keys :: Lookup(handlers, key) != Nil && route(key).Some?
  }

  ghost predicate OwnOnce(keys: seq<string>) {
    forall i, j :: 0 <= i < j < |keys| && Own(keys[i]) ==> keys[i] != keys[j]
  }

  ghost predicate AllUsed(keys: seq<string>, handlers: map<string, Handler>) {
    forall key <- handlers :: key in keys
  }

  /** The n-th action's mount, as it should be. */
  function MountOf(route: string -> Option<string>, handlers: map<string, Handler>, key: string): (m: Mounted)
    requires route(key).Some?
  {
    Mounted(route(key).value, key, Lookup(handlers, key))
  }

  /**
   * Succeeds exactly when actions and handlers match one to one; then every action is mounted once, in order,
   * with its own handler.
   */
  method MountAll(route: string -> Option<string>, keys: seq<string>, table: map<string, Handler>)
    returns (ok: bool, mounted: seq<Mounted>)
    ensures ok <==> AllMountable(route, keys, table) && OwnOnce(keys) && AllUsed(keys, table)
    ensures ok ==> |mounted| == |keys| && forall i :: 0 <= i < |keys| ==>
              route(keys[i]).Some? && mounted[i] == MountOf(route, table, keys[i])
  {
    hide Own, ForRepository, ForConversation;
    var handlers := table;
    mounted := [];
    for i := 0 to |keys|
      invariant forall key :: key in handlers <==> key in table && key !in keys[..i]
      invariant forall key <- handlers :: handlers[key] == table[key]
      invariant AllMountable(route, keys[..i], table) && OwnOnce(keys[..i])
      invariant |mounted| == i && forall j :: 0 <= j < i ==>
                route(keys[j]).Some? && mounted[j] == MountOf(route, table, keys[j])
    {
      var key := keys[i];
      assert key in keys && keys[..i + 1] == keys[..i] + [key];
      OneMoreAction(keys, table, handlers, i);
      var handler := Lookup(handlers, key);
      if handler == Nil {
        return false, mounted;
      }
      if route(key).None? {
        return false, mounted;
      }
      mounted := mounted + [Mounted(route(key).value, key, handler)];
      handlers := handlers - {key};
    }
    assert keys[..|keys|] == keys;
    ok := handlers == map[];
    if !ok {
      assert exists key :: key in handlers by {
        SomeLeft(handlers);
      }
    }
  }

  lemma SomeLeft(handlers: map<string, Handler>)
    requires handlers != map[]
    ensures exists key :: key in handlers
  {
    assert handlers.Keys != {};
  }

  /** The shrinking table answers for an action what the whole table would, unless an own action repeats. */
  lemma OneMoreAction(keys: seq<string>, table: map<string, Handler>, handlers: map<string, Handler>, i: nat)
    requires i < |keys| && OwnOnce(keys[..i])
    requires forall key :: key in handlers <==> key in table && key !in keys[..i]
    requires forall key <- handlers :: handlers[key] == table[key]
    ensures Lookup(handlers, keys[i]) != Nil ==>
              Lookup(handlers, keys[i]) == Lookup(table, keys[i]) && OwnOnce(keys[..i + 1])
    ensures Lookup(handlers, keys[i]) == Nil ==> Lookup(table, keys[i]) == Nil || !OwnOnce(keys)
  {
    hide ForRepository, ForConversation, OwnOnce;
    var key := keys[i];
    assert keys[..i + 1] == keys[..i] + [key];
    if Own(key) && key in keys[..i] {
      OwnTwice(keys, i);
    } else {
      OwnOnceMore(keys[..i], key);
    }
  }

  lemma OwnTwice(keys: seq<string>, i: nat)
    requires i < |keys| && Own(keys[i]) && keys[i] in keys[..i]
    ensures !OwnOnce(keys)
  {
    hide Own;
    var j :| 0 <= j < i && keys[..i][j] == keys[i];
    assert keys[j] == keys[i];
  }

  lemma OwnOnceMore(keys: seq<string>, key: string)
    requires OwnOnce(keys) && (Own(key) ==> key !in keys)
    ensures OwnOnce(keys + [key])
  {
    hide Own;
  }

  // ---------- what success means ----------

  /**
   * Every registered handler is used by exactly one action, and, outside the two prefixes, every action by
   * its own handler.
   */
  lemma MountingIsABijection(route: string -> Option<string>, keys: seq<string>, handlers: map<string, Handler>,
      name: string)
    requires Distinct(keys) && AllMountable(route, keys, handlers) && AllUsed(keys, handlers) && name in handlers
    ensures exists i :: 0 <= i < |keys| && keys[i] == name && forall j :: 0 <= j < |keys| && keys[j] == name ==> i == j
    ensures forall i :: 0 <= i < |keys| && Own(keys[i]) ==>
              keys[i] in handlers && Lookup(handlers, keys[i]) == handlers[keys[i]]
  {
    hide ForRepository, ForConversation;
    var i :| 0 <= i < |keys| && keys[i] == name;
    forall j | 0 <= j < |keys| && keys[j] == name
      ensures i == j
    {
    }
    forall j | 0 <= j < |keys| && Own(keys[j])
      ensures keys[j] in handlers
    {
      assert keys[j] in keys;
    }
  }

  /** The order in which the registry lists the actions does not decide. */
  lemma ActionOrderIsIrrelevant(route: string -> Option<string>, keys: seq<string>, keys': seq<string>,
      handlers: map<string, Handler>)
    requires Distinct(keys) && Distinct(keys') && forall key :: key in keys <==> key in keys'
    ensures AllMountable(route, keys, handlers) && OwnOnce(keys) && AllUsed(keys, handlers) <==>
            AllMountable(route, keys', handlers) && OwnOnce(keys') && AllUsed(keys', handlers)
  {
    hide Own, Lookup;
  }

  /**
   * The manifest mounts: when the fixed actions outside the repository prefix are exactly the registered
   * handlers, only a route that cannot be projected can stop the service from being built.
   */
  lemma ManifestMounts(normal: string -> bool, route: string -> Option<string>, fixed: seq<string>,
      operations: seq<string>, handlers: map<string, Handler>)
    requires ManifestOk(normal, fixed + ConversationKeys(operations))
    requires forall key <- fixed :: !ForConversation(key) && (Own(key) ==> key in handlers)
    requires forall key <- handlers :: key in fixed && Own(key) && handlers[key] != Nil
    ensures var keys := fixed + ConversationKeys(operations);
            AllMountable(route, keys, handlers) && OwnOnce(keys) && AllUsed(keys, handlers) <==>
                forall key <- keys :: route(key).Some?
  {
    hide ConversationKeys;
    var keys := fixed + ConversationKeys(operations);
    forall key | key in keys
      ensures Lookup(handlers, key) != Nil
    {
      if ForRepository(key) {
        assert Dotted(key);
        assert REPOSITORY_PREFIX[|REPOSITORY_PREFIX| - 1] == '.';
      }
    }
  }
}
