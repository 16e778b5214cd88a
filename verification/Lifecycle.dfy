/**
 * The life of an Agent module binding: opened with its conversation service or
 * with the service deferred, bound to a conversation host and to an application
 * host in either order, closed at any time.  Every operation runs under the
 * binding's mutex, so each is one step.  Constructors of other packages succeed
 * or fail as the Outcomes say.
 */
module Lifecycle {
  import opened Optional

  /** A conversation authorizer, and whether it also authorizes executions. */
  datatype Authorizer = Authorizer(id: nat, execution: bool)

  /** An application host; only some are conversation hosts, and only some compose tools. */
  datatype Host = Host(id: nat, conversational: bool, authorizer: Option<Authorizer>, composes: bool)

  datatype Model = NoModel | PlainModel | AgentModel

  datatype Options = Options(personal: Option<Authorizer>, execution: Option<Authorizer>, toolHost: bool)

  datatype Assembly = Assembly(model: Model, options: Options)

  /** A running conversation service with the options that decide who may execute. */
  datatype Service = Service(id: nat, model: Model, personal: Option<Authorizer>, execution: Option<Authorizer>)

  datatype Adapter = Base | Application(host: Host) | Conversation(service: Service)

  /** Which of the constructors called on the way succeed. */
  datatype Outcomes = Outcomes(toolHost: bool, compose: bool, service: bool, adapter: bool, application: bool,
      base: bool)

  /** The binding's fields, and the services ever started (0, 1, ...) and stopped. */
  datatype View = View(
    adapters: seq<Adapter>, conversations: Option<Service>, conversationAdapter: Option<Adapter>,
    pending: Option<Assembly>, hostBound: bool, closed: bool, started: nat, stopped: set<nat>)

  const FRESH := View([], None, None, None, false, false, 0, {})

  // ---------- specification ----------

  function Or<T>(a: Option<T>, b: Option<T>): (r: Option<T>) {
    if a.Some? then a else b
  }

  /** An authorizer as an execution authorizer, if it is one. */
  function AsExecution(a: Option<Authorizer>): (r: Option<Authorizer>) {
    if a.Some? && a.value.execution then a else None
  }

  /**
   * The options after the host's contributions: configured values win, then the personal authorizer, then the
   * host's.
   */
  function Fill(options: Options, host: Option<Host>): (r: Options) {
    if host.None? then options
    else
      var personal := Or(options.personal, host.value.authorizer);
      Options(personal, Or(options.execution, Or(AsExecution(personal), AsExecution(host.value.authorizer))),
          options.toolHost)
  }

  /** Everything before the service is constructed. */
  predicate Assembles(a: Assembly, host: Option<Host>, o: Outcomes) {
    if host.Some?
    then Fill(a.options, host).execution.Some?
         && (a.model.AgentModel? ==> (a.options.toolHost || o.toolHost) && (host.value.composes ==> o.compose))
    else a.model.NoModel? || a.options.execution.Some?
  }

  function ServiceFor(v: View, a: Assembly, host: Option<Host>): (s: Service) {
    Service(v.started, a.model, Fill(a.options, host).personal, Fill(a.options, host).execution)
  }

  function Opened(v: View, a: Assembly, host: Option<Host>, o: Outcomes): (r: (View, bool)) {
    if !Assembles(a, host, o) || !o.service then (v, false)
    else if !o.adapter then (v.(started := v.started + 1, stopped := v.stopped + {v.started}), false)
    else
      var s := ServiceFor(v, a, host);
      (v.(started := v.started + 1, conversations := Some(s), conversationAdapter := Some(Conversation(s))), true)
  }

  function WithConversation(head: Adapter, v: View): (r: seq<Adapter>) {
    if v.conversationAdapter.Some? then [head] + [v.conversationAdapter.value] else [head]
  }

  function ConversationHostBound(v: View, host: Option<Host>, o: Outcomes): (r: (View, bool)) {
    if v.closed || v.pending.None? || host.None? || host.value.authorizer.None? then (v, false)
    else
      var (w, ok) := Opened(v, v.pending.value, host, o);
      if !ok then (w, false)
      else (w.(pending := None, adapters := v.adapters + [w.conversationAdapter.value]), true)
  }

  function ApplicationHostBound(v: View, host: Host, o: Outcomes): (r: (View, bool)) {
    if v.closed then (v, false)
    else if v.hostBound then (v, true)
    else if v.pending.Some? && (!host.conversational || host.authorizer.None?) then (v, false)
    else if !o.application then (v, false)
    else
      var (w, ok) := if v.pending.Some? then Opened(v, v.pending.value, Some(host), o) else (v, true);
      if !ok then (w, false)
      else (w.(pending := None, adapters := WithConversation(Application(host), w), hostBound := true), true)
  }

  function Closed(v: View): (w: View) {
    v.(closed := true, pending := None,
       stopped := v.stopped + if v.conversations.Some? then {v.conversations.value.id} else {})
  }

  /** The tail of OpenModule, on a fresh binding. */
  function Open(enabled: bool, deferred: bool, a: Assembly, o: Outcomes): (r: (View, bool)) {
    var (v, ok) :=
      if !enabled then (FRESH, true)
      else if deferred then (FRESH.(pending := Some(a)), true)
      else Opened(FRESH, a, None, o);
    if !ok then (v, false)
    else if !o.base then (Closed(v), false)
    else (v.(adapters := WithConversation(Base, v)), true)
  }

  // ---------- the binding ----------

  class Binding {
    var adapters: seq<Adapter>
    var conversations: Option<Service>
    var conversationAdapter: Option<Adapter>
    var pending: Option<Assembly>
    var hostBound: bool
    var closed: bool
    /** The conversation services constructed so far (numbered from 0) and those among them that were closed. */
    var started: nat
    var stopped: set<nat>

    ghost function Fields(): (v: View)
      reads this
    {
      View(adapters, conversations, conversationAdapter, pending, hostBound, closed, started, stopped)
    }

    constructor ()
      ensures Fields() == FRESH
    {
      adapters, conversations, conversationAdapter, pending := [], None, None, None;
      hostBound, closed, started, stopped := false, false, 0, {};
    }

    method OpenConversations(a: Assembly, host: Option<Host>, o: Outcomes) returns (ok: bool)
      modifies this
      ensures (Fields(), ok) == Opened(old(Fields()), a, host, o)
    {
      var options := a.options;
      if host.Some? {
        if options.personal.None? {
          options := options.(personal := host.value.authorizer);
        }
        if options.execution.None? {
          options := options.(execution := AsExecution(options.personal));
        }
        if options.execution.None? {
          options := options.(execution := AsExecution(host.value.authorizer));
        }
        if options.execution.None? {
          return false;
        }
        if a.model.AgentModel? {
          if !options.toolHost && !o.toolHost {
            return false;
          }
          if host.value.composes && !o.compose {
            return false;
          }
        }
      }
      if !a.model.NoModel? && options.execution.None? {
        return false;
      }
      if !o.service {
        return false;
      }
      var service := Service(started, a.model, options.personal, options.execution);
      started := started + 1;
      if !o.adapter {
        stopped := stopped + {service.id};
        return false;
      }
      conversations, conversationAdapter := Some(service), Some(Conversation(service));
      return true;
    }

    method BindConversationHost(host: Option<Host>, o: Outcomes) returns (ok: bool)
      modifies this
      ensures (Fields(), ok) == ConversationHostBound(old(Fields()), host, o)
    {
      if closed {
        return false;
      }
      if pending.None? {
        return false;
      }
      if host.None? || host.value.authorizer.None? {
        return false;
      }
      ok := OpenConversations(pending.value, host, o);
      if !ok {
        return false;
      }
      pending := None;
      adapters := adapters + [conversationAdapter.value];
    }

    method BindApplicationHost(host: Host, o: Outcomes) returns (ok: bool)
      modifies this
      ensures (Fields(), ok) == ApplicationHostBound(old(Fields()), host, o)
    {
      if closed {
        return false;
      }
      if hostBound {
        return true;
      }
      if pending.Some? {
        if !host.conversational || host.authorizer.None? {
          return false;
        }
      }
      if !o.application {
        return false;
      }
      if pending.Some? {
        ok := OpenConversations(pending.value, Some(host), o);
        if !ok {
          return false;
        }
        pending := None;
      }
      adapters := [Application(host)];
      if conversationAdapter.Some? {
        adapters := adapters + [conversationAdapter.value];
      }
      hostBound := true;
      return true;
    }

    method Close()
      modifies this
      ensures Fields() == Closed(old(Fields()))
    {
      closed := true;
      pending := None;
      if conversations.Some? {
        stopped := stopped + {conversations.value.id};
      }
    }
  }

  method OpenModule(enabled: bool, deferred: bool, a: Assembly, o: Outcomes) returns (ok: bool, b: Binding)
    ensures fresh(b) && (b.Fields(), ok) == Open(enabled, deferred, a, o)
  {
    b := new Binding();
    if enabled {
      if deferred {
        b.pending := Some(a);
      } else {
        ok := b.OpenConversations(a, None, o);
        if !ok {
          return false, b;
        }
      }
    }
    if !o.base {
      b.Close();
      return false, b;
    }
    b.adapters := [Base];
    if b.conversationAdapter.Some? {
      b.adapters := b.adapters + [b.conversationAdapter.value];
    }
    return true, b;
  }

  // ---------- what every binding keeps ----------

  /** The services that were started and not stopped. */
  function Live(v: View): (ids: set<nat>) {
    set i: nat | i < v.started && i !in v.stopped
  }

  /** Started minus stopped services is one exactly while an open binding holds its service. */
  predicate Conserved(v: View) {
    Live(v) == if v.conversations.Some? && !v.closed then {v.conversations.value.id} else {}
  }

  predicate NoConversation(adapters: seq<Adapter>) {
    forall a <- adapters :: !a.Conversation?
  }

  /** One base or application adapter, then the conversation adapter once if there is a service. */
  predicate WellMounted(v: View) {
    && v.adapters != [] && !v.adapters[0].Conversation? && (v.hostBound <==> v.adapters[0].Application?)
    && v.adapters == WithConversation(v.adapters[0], v)
    && v.conversationAdapter == if v.conversations.Some? then Some(Conversation(v.conversations.value)) else None
  }

  predicate Good(v: View) {
    && Conserved(v)
    && WellMounted(v)
    && (v.pending.Some? ==> v.conversations.None? && NoConversation(v.adapters) && !v.hostBound && !v.closed)
    && (v.conversations.Some? && !v.conversations.value.model.NoModel? ==> v.conversations.value.execution.Some?)
    && (v.conversations.Some? ==> v.conversations.value.id < v.started)
    && forall i <- v.stopped :: i < v.started
  }

  datatype Event = BindConversation(host: Option<Host>, o: Outcomes) | BindApplication(bound: Host,
      o: Outcomes) | CloseBinding

  function Step(v: View, e: Event): (r: (View, bool)) {
    match e
    case BindConversation(host, o) => ConversationHostBound(v, host, o)
    case BindApplication(host, o) => ApplicationHostBound(v, host, o)
    case CloseBinding => (Closed(v), true)
  }

  /** The binding after a list of operations, whatever their results. */
  function After(v: View, es: seq<Event>): (w: View) {
    if es == [] then v else Step(After(v, es[..|es| - 1]), es[|es| - 1]).0
  }

  lemma OpenedServiceIsOnlyLive(v: View, a: Assembly, host: Option<Host>, o: Outcomes)
    requires Live(v) == {} && forall i <- v.stopped :: i < v.started
    ensures var (w, ok) := Opened(v, a, host, o);
            && Live(w) == (if ok then {w.conversations.value.id} else {})
            && (forall i <- w.stopped :: i < w.started)
            && (ok ==> w.conversations.value.id < w.started
                       && (w.conversations.value.model.NoModel? || w.conversations.value.execution.Some?))
  {
  }

  /** OpenModule either returns a good binding or leaves no service running. */
  lemma OpenIsGood(enabled: bool, deferred: bool, a: Assembly, o: Outcomes)
    ensures var (v, ok) := Open(enabled, deferred, a, o); if ok then Good(v) else Live(v) == {}
  {
    OpenedServiceIsOnlyLive(FRESH, a, None, o);
  }

  lemma StepKeepsGood(v: View, e: Event)
    requires Good(v)
    ensures Good(Step(v, e).0)
  {
    hide Fill, Assembles;
    if v.pending.Some? {
      match e {
        case BindConversation(host, o) => OpenedServiceIsOnlyLive(v, v.pending.value, host, o);
        case BindApplication(host, o) => OpenedServiceIsOnlyLive(v, v.pending.value, Some(host), o);
        case CloseBinding =>
      }
    }
  }

  /** After any sequence of binds and closes, in any order and with any failures, the binding is good. */
  lemma {:induction false} EveryRunIsGood(v: View, es: seq<Event>)
    requires Good(v)
    ensures Good(After(v, es))
  {
    hide Good, Step;
    if es != [] {
      EveryRunIsGood(v, es[..|es| - 1]);
      StepKeepsGood(After(v, es[..|es| - 1]), es[|es| - 1]);
    }
  }

  /** A service, once installed, is never replaced; a closed binding stays closed. */
  lemma {:induction false} InstalledOnce(v: View, es: seq<Event>)
    requires Good(v)
    ensures v.conversations.Some? ==> After(v, es).conversations == v.conversations
    ensures v.closed ==> After(v, es).closed
  {
    hide Fill, Assembles, Conserved;
    if es != [] {
      InstalledOnce(v, es[..|es| - 1]);
      EveryRunIsGood(v, es[..|es| - 1]);
    }
  }

  /** No bind succeeds after Close, and closing again changes nothing. */
  lemma ClosedRefuses(v: View, es: seq<Event>, e: Event)
    requires Good(v) && v.closed
    ensures !e.CloseBinding? ==> !Step(After(v, es), e).1
    ensures Step(After(v, es), e).0 == After(v, es)
  {
    hide Fill, Assembles, WellMounted;
    InstalledOnce(v, es);
    EveryRunIsGood(v, es);
    var w := After(v, es);
    if e.CloseBinding? && w.conversations.Some? {
      assert w.conversations.value.id !in Live(w);
      assert w.stopped + {w.conversations.value.id} == w.stopped;
    }
  }

  // ---------- failed binds ----------

  /** The binding's own fields, without the count of services. */
  function Own(v: View): (w: View) {
    v.(started := 0, stopped := {})
  }

  /** A bind that fails leaves every field as it was and no service behind. */
  lemma FailedBindChangesNothing(v: View, e: Event)
    requires Good(v) && !Step(v, e).1
    ensures Own(Step(v, e).0) == Own(v) && Live(Step(v, e).0) == Live(v)
  {
    hide Fill, Assembles;
  }

  /** The view up to the numbering of services. */
  function Unnumber(v: View): (w: View) {
    var c := if v.conversations.Some? then Some(v.conversations.value.(id := 0)) else None;
    v.(conversations := c, started := 0, stopped := {},
       conversationAdapter :=
         if v.conversationAdapter.Some? then Some(UnnumberAdapter(v.conversationAdapter.value)) else None,
       adapters := seq(|v.adapters|, i requires 0 <= i < |v.adapters| => UnnumberAdapter(v.adapters[i])))
  }

  function UnnumberAdapter(a: Adapter): (b: Adapter) {
    if a.Conversation? then Conversation(a.service.(id := 0)) else a
  }

  /** Operations see the fields only: equal fields give equal results, up to the numbering of services. */
  lemma ResultsDependOnFields(v: View, w: View, e: Event)
    requires Own(v) == Own(w)
    ensures Step(v, e).1 == Step(w, e).1 && Unnumber(Step(v, e).0) == Unnumber(Step(w, e).0)
  {
    hide Fill, Assembles;
  }

  /** Trying again after a failure gives what a first try would have given. */
  lemma RetryIsAFirstTry(v: View, failed: Event, e: Event)
    requires Good(v) && !Step(v, failed).1
    ensures Step(Step(v, failed).0, e).1 == Step(v, e).1
    ensures Unnumber(Step(Step(v, failed).0, e).0) == Unnumber(Step(v, e).0)
  {
    hide Step, Unnumber, Own;
    FailedBindChangesNothing(v, failed);
    ResultsDependOnFields(Step(v, failed).0, v, e);
  }

  // ---------- the two orders of binding ----------

  /**
   * For a deferred binding and one host that serves both purposes: binding conversations and then the
   * application succeeds exactly when binding the application alone does, and ends in the same binding;
   * a conversation bind that comes second is refused and changes nothing.
   */
  lemma BindOrdersAgree(v: View, host: Host, o: Outcomes)
    requires Good(v) && v.pending.Some? && host.conversational
    ensures var (v1, ok1) := ConversationHostBound(v, Some(host), o);
            var (v2, ok2) := ApplicationHostBound(v1, host, o);
            var (w1, ok) := ApplicationHostBound(v, host, o);
            && (ok1 && ok2 <==> ok)
            && (ok ==> v2 == w1 && ConversationHostBound(w1, Some(host), o) == (w1, false))
  {
    hide Fill, Assembles;
  }
}
