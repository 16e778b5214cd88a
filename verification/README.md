# A verified model of the Agent service

This project models the parts of the Agent service whose correctness depends on more than one function, and proves
what they promise. Dafny 4.11 checks every file with `dafny verify dfyconfig.toml`.

| file | what it models |
|---|---|
| `Workflow.dfy`, `Skills.dfy` | the depth-first check of a Skill's workflow graph, and Skill validation around it |
| `Profile.dfy` | compiling an Agent and a Skill catalogue into a Profile |
| `SchemaWalk.dfy` | the depth-bounded walk over authored JSON schemas |
| `Candidates.dfy`, `Defaults.dfy` | definition validators, the fields a backend fills in, and their removal from published schemas |
| `Lifecycle.dfy` | the module binding: open, bind conversation host, bind application host, close |
| `Json.dfy`, `Receipts.dfy`, `Transfer.dfy` | JSON text, the stored transfer receipt, and the transfer protocol between browser tabs |
| `TaskLease.dfy`, `LeaseFailures.dfy` | the stored task run: claims, fencing tokens, heartbeats, tool-call ledger, cancellation, operator edits; and runs of it that fail |
| `Permissions.dfy`, `Catalogues.dfy`, `Sources.dfy` | permission binding, the datasource catalogue, and exclusive allocation of knowledge sources |
| `ErrorCodec.dfy` | failures encoded by the server and decoded by the remote client |
| `Preview.dfy` | the preview a person confirms before an account write |
| `Mount.dfy` | the action manifest and the loop that mounts handlers |
| `Text.dfy`, `Optional.dfy` | white space, UTF-8 length, key patterns; optional values |

Objects whose methods update fields are classes (`Workflow.Walk`, `Lifecycle.Binding`, `Permissions.LibraryConfig`,
`Sources.ConversationOptions`, `Catalogues.Catalogue`, `Defaults.Schema`); loops are methods proved against predicates
and functions; the two concurrent protocols (`Transfer`, `TaskLease`) are transition systems, and their results range
over every run. A run of `TaskLease` may have any clock, advancing timestamps being a special case (`TickingIsARun`);
where they are assumed, the statement says so. Services, providers, clocks, hashes, the SDK's constants and the browser's
`Date.parse` and `toLowerCase` are parameters. SHA-256 over JSON is assumed injective, and to print as 64 hexadecimal digits, only in
the lemmas that say so.

## Where the code does less than one would expect

Each of these is a property one might read into the source; the project gives a run or an input that breaks it and the
exact condition under which it holds.

- A heartbeat renews the lease, reads the payload and writes it back in three statements. A tool call or a cancellation
  recorded in between is overwritten, and a budget of one call can be spent twice (`OverlappingHeartbeatReplenishes`).
  The calls on record are the calls begun exactly when every write of a payload read earlier brings at least as many calls
  as it finds (`AccountsExactly`), and then the budget is spent once (`BudgetIsSpentOnce`).
- Cancellation compares millisecond timestamps only. Two writes within one tick let it overwrite a tool call, with no
  heartbeat involved (`SameTickCancelReplenishes`), or make a settled run running again (`CancellationRevives`).
- A cancellation whose update finds no row is answered as if it had been recorded (`CancelIsForgotten`). It is recorded
  exactly when the timestamp it has read is still the column's (`AnsweredIsRecordedExactly`), so a row whose payload is
  behind its column, as after every lease renewal (`RenewalRefusesCancellations`), refuses each fresh one
  (`FreshIsRecordedExactly`).
- A worker settles with the copy of the run it was given when it claimed it. A cancellation requested while it ran is
  gone when the attempt is scheduled for a retry, whatever the clock and the heartbeats do (`RetryForgetsCancellation`).
- The exact condition for losing no recorded tool call or cancellation is `NeverLosesExactly`: it says, for every run and
  any clock, that nothing is lost exactly when each write of a payload read earlier finds the ledger it has read and each
  heartbeat and non-final settlement passes a cancellation on. Comparing revisions, as other writers of the store do, is
  a check the heartbeat and the cancellation could make: it is enough (`RevisionsKeepLedger`,
  `RevisionsKeepDiscipline`), and for the heartbeat it is also needed (`RevisionsDecide`, for runs whose cancellations are
  current by revision or whose timestamps advance; elsewhere a stale write-back can be harmless,
  `StaleWriteBackCanRestore`). For the cancellation it is more than needed (`LateCancelIsHarmless`).
  The status discipline has its own exact condition for every run (`StatusDisciplineExactly`).
- The reader of a stored receipt tests members by patterns, which convert their argument: an object without a client ID
  is accepted, "undefined" being a possible client ID (`MissingClientIsAccepted`). What it accepts is a valid receipt
  exactly when the tested members are strings (`AcceptedIsReceiptExactly`). The page itself never leaves such an object in
  storage (`Transfer.EveryCellHonest`), so the transfer protocol is only affected by a storage cell some other program wrote.
- Without `navigator.locks`, and if another tab may run between the check and the write, a stored receipt can be
  overwritten (`NeverOverwrittenExactly`; for a single run, `OverwritesExactly` and `RemovesExactly`). Removal is outside the lock altogether, so locks alone do not stop a tab from
  removing a receipt another tab has just stored (`RemovedByItsHolderExactly`).
- `contract_version` and `allow_recursive` are removed from the published schemas as backend-owned, but a submitted value
  still decides the verdict (`VerdictExactly`, `RemovedFieldStillDecides`). `version`, the context limits and
  `rotation_version` are truly overwritten (`OverwrittenNeverMatters`).
- A domain failure with an empty code is the only one a repository boundary cannot carry (`RepositoryRoundTrip`,
  `OneHopSettlesExactly`). A conversation code without its prefix becomes retryable behind a second boundary
  (`ConversationHopsSettle`).

## Model

| member | source | states |
|---|---|---|
| Workflow.Walk.Visit | definition/profile.go:129-149 | one call of the recursive visit: success finishes the step after all its dependencies, keeps the current path and the finished order; failure means a missing dependency or a cycle; each nested call has fewer steps off the path |
| Workflow.Walk.VisitAll | definition/profile.go:127-155 | in whatever order the map yields steps, accepts exactly the closed, acyclic graphs; on acceptance the finishing order is topological; no step is expanded twice |
| Workflow.OrderedIsClosedAndAcyclic | definition/profile.go:127-155 | a topological order exists only for closed acyclic graphs, so acceptance is sound against paths and cycles, self-loops included |
| Workflow.BackEdgeClosesCycle | definition/profile.go:130-132 | meeting a step that is on the current path exhibits a cycle |
| Skills.CheckResources | definition/profile.go:109-116 | the resource loop accepts exactly lists of well-formed resources with distinct keys, and sums their content bytes |
| Skills.CollectSteps | definition/profile.go:120-126 | the step loop accepts exactly well-formed steps with distinct keys and yields their dependency graph |
| Skills.ValidateSkill | definition/profile.go:96-156 | a Skill is accepted exactly when its fields, budgets and resources are in order and its workflow is closed and acyclic |
| Skills.GraphOfKeepsDependencies | definition/profile.go:120-141 | the graph gives every step exactly the dependencies it declares |
| Skills.DependenciesAreSteps | definition/profile.go:136-139 | whatever a step of a valid Skill depends on is one of its steps |
| Skills.NoWayBack | definition/profile.go:129-155 | going from step to step along dependencies of a valid Skill never leads back |
| Profile.SelectTools | definition/profile.go:26-36 | the tool loop accepts exactly duplicate-free lists within the available tools |
| Profile.BuildCatalogue | definition/profile.go:37-49 | the catalogue loop accepts exactly valid Skills with distinct keys and indexes all of them |
| Profile.WriteDirectory | definition/profile.go:50-87 | the directory loop accepts exactly distinct, known, confined selections and writes the prompt that specification demands |
| Profile.CompileProfile | definition/profile.go:18-92 | compiles exactly when Agent, tools, catalogue, selection and prompt budget are in order, and then yields the specified Profile |
| Profile.SkillsCannotGrantTools | definition/profile.go:26-92 | every tool a selected Skill or one of its steps asks for is already among the Agent's own available tools |
| Profile.PromptStartsWithInstructions | definition/profile.go:50-91 | the prompt starts with the Agent's instructions and is at most 65536 bytes |
| Profile.OnlySummariesMatter | definition/profile.go:37-91 | two catalogues that compile and agree on the selected Skills' summaries give one Profile: instructions, resource contents, unselected Skills and the available list cannot change it |
| Profile.CatalogueOrderIsIrrelevant | definition/profile.go:37-91 | permuting the catalogue changes neither the verdict nor the Profile |
| SchemaWalk.ValidateValue | definition/validation.go:203-241 | the recursive walk accepts exactly when every node reachable without passing through a reference lies at depth 32 or less and carries only good references, in any order of members |
| SchemaWalk.ValidateObjectSchema | definition/validation.go:196-201 | additionally the root must exist and have type object |
| SchemaWalk.AcceptedByMembers | definition/validation.go:203-241 | the path-quantified meaning satisfies the recursion the code follows |
| SchemaWalk.ReadersStayOnCheckedNodes | definition/validation.go:203-241 | whoever descends an accepted schema and follows local references, any number of times, only meets nodes the walk has checked |
| Candidates.ValidateUnique | definition/validation.go:181-194 | accepts exactly lists without blank values or two values alike once trimmed |
| Candidates.ValidateTask | definition/validation.go:22-72 | accepts exactly the task definitions the predicate describes, schemas by their path meaning included |
| Candidates.ValidateSkill | definition/validation.go:74-94 | accepts exactly skills with distinct known tools whose need for objects is met |
| Candidates.ValidateAgent | definition/validation.go:96-112 | accepts exactly agents with distinct known tools, distinct skill keys and sane limits |
| Candidates.ValidateEntrypoint | definition/validation.go:114-159 | accepts exactly entrypoints with distinct lists and valid context and routing contracts, in any order of the lists |
| Candidates.ValidateCandidate | capability/contract.go:275-336 | filling the fields in one by one, the validator accepts exactly candidates whose authored part is valid and whose contract versions and recursion flag are admitted |
| Candidates.VerdictExactly | capability/contract.go:281-327 | a candidate is accepted exactly when its authored part is and its contract versions and recursion flag are admitted |
| Candidates.OverwrittenNeverMatters | capability/contract.go:281-327 | the submitted version, context limits and rotation version never decide |
| Candidates.RemovedFieldStillDecides | capability/contract.go:319-327 | an unsupported contract version rejects a candidate that is accepted without it |
| Candidates.AuthoredLacksTheRemoved | capability/contract.go:228-250 | the fields removed from a kind's published schema, nested ones included, are exactly those the authored part lacks |
| Candidates.FollowersAreJudgedAsAuthored | capability/contract.go:222-336 | a candidate that says nothing the published schema leaves out is judged on what was authored alone |
| Defaults.FilterInPlace | capability/contract.go:261-267 | the append onto the emptied slice of the same array leaves exactly the order-preserving filter in front and the tail untouched |
| Defaults.FilterPicksInOrder | capability/contract.go:261-267 | the filter is the subsequence at all positions of other keys, stated by an increasing list of positions |
| Defaults.RemoveBackendDefault | capability/contract.go:258-273 | removes the field from properties and from required and drops an empty required list; without testing for it, no branch assigns to a missing schema |
| Defaults.RemovingTwice | capability/contract.go:258-273 | removal is idempotent |
| Defaults.RemovalsCommute | capability/contract.go:258-273 | removals of different fields commute |
| Defaults.RemovalKeepsConsistent | capability/contract.go:258-273 | required keys stay within the described properties |
| Defaults.PublishEntrypoint | capability/contract.go:240-256 | the entrypoint's own and nested backend fields are removed, each schema otherwise as before |
| Defaults.ApplyConstraints | capability/contract.go:222-251 | the published schema of every kind: backend fields gone, restricted properties replaced by their vocabularies |
| Defaults.PublishedIsSilent | capability/contract.go:222-251 | no published schema mentions a field its backend owns, and required keys stay described |
| Defaults.NestedAreSilent | capability/contract.go:240-256 | nor do the nested context and routing contracts of a published entrypoint |
| Lifecycle.OpenModule | module/factory.go:253-272 | returns the binding the specification gives for enabled, deferred and immediate assembly, with any construction failing |
| Lifecycle.Binding.OpenConversations | module/conversation_assembly.go:45-117 | the service is installed with its adapter, or closed again if the adapter fails |
| Lifecycle.Binding.BindConversationHost | module/conversation_assembly.go:14-32 | the deferred service is opened with the host, or nothing changes |
| Lifecycle.Binding.BindApplicationHost | module/factory.go:357-394 | refused when closed or when a pending assembly finds no authorizer, repeated without effect, else the application adapter is installed after the deferred service has been opened |
| Lifecycle.Binding.Close | module/factory.go:410-425 | marks the binding closed, drops the pending assembly and closes the installed service |
| Lifecycle.OpenedServiceIsOnlyLive | module/conversation_assembly.go:45-117 | an opened service is the only live one, a failed opening leaves none, and a service with a model has an execution authorizer |
| Lifecycle.OpenIsGood | module/factory.go:253-295 | opening returns a binding in good order or leaves no service running |
| Lifecycle.EveryRunIsGood | module/factory.go:253-425 | over every sequence of binds and closes with any failures: live services are exactly the installed, unclosed one; a pending assembly excludes service, conversation adapter, bound host and closing; an installed service with a model has an execution authorizer |
| Lifecycle.InstalledOnce | module/factory.go:253-425 | an installed service is never replaced, and a closed binding stays closed |
| Lifecycle.ClosedRefuses | module/factory.go:357-425 | no bind succeeds after close, whatever came between |
| Lifecycle.FailedBindChangesNothing | module/factory.go:357-394 | a failed bind leaves the fields and the live services as they were |
| Lifecycle.RetryIsAFirstTry | module/factory.go:357-394 | a retry gives what a first try would have given |
| Lifecycle.BindOrdersAgree | module/factory.go:357-394 | with one host, binding conversations first and then the application ends exactly where binding the application alone ends, and succeeds in the same cases |
| Json.ParseWritten | frontend/src/KnowledgeDocumentTransferDialog.tsx:41-47 | parsing what was written gives the value back, for every nesting of objects, strings and integers |
| Json.StringRoundTrip | frontend/src/KnowledgeDocumentTransferDialog.tsx:41-47 | every string of UTF-16 units survives escaping, lone surrogates and control characters included |
| Receipts.AcceptedIsReceiptExactly | frontend/src/document-transfer-state.ts:14-21 | whatever storage holds, and however the browser prints and rounds numbers, an object the reader accepts is a valid receipt exactly when the members it tests by patterns are strings |
| Receipts.MissingClientIsAccepted | frontend/src/document-transfer-state.ts:18-19 | for every valid receipt, the same text without a client ID is accepted, and is no receipt |
| Receipts.ReadsReceipts | frontend/src/document-transfer-state.ts:14-21 | what is read as a receipt is what the reader returns |
| Receipts.WrittenIsHonest | frontend/src/KnowledgeDocumentTransferDialog.tsx:41-46 | what the page writes, valid or not, is accepted only as the receipt it is |
| Receipts.ReceiptFits | frontend/src/document-transfer-state.ts:14-18 | even with every unit escaped a valid receipt stays within 4096 units |
| Receipts.StorageRoundTrip | frontend/src/document-transfer-state.ts:14-24 | a stored receipt is read back exactly when it is valid, and then unchanged |
| Transfer.EveryCellHonest | frontend/src/KnowledgeDocumentTransferDialog.tsx:31-57 | in every reachable state the storage cell is one a later visit may start from |
| Transfer.LoadsWhatIsStored | frontend/src/document-transfer-state.ts:14-24 | in every reachable state a page load reads the stored receipt, or nothing |
| Transfer.EveryState | frontend/src/KnowledgeDocumentTransferDialog.tsx:31-57 | in every reachable state of any number of tabs a client ID stands for one receipt, and protected blocks exclude each other |
| Transfer.SameClientSameRequest | frontend/src/KnowledgeDocumentTransferDialog.tsx:31-57 | two requests with one client ID carry the same target, source, revision and mode |
| Transfer.SavedWasStored | frontend/src/KnowledgeDocumentTransferDialog.tsx:41-50 | a tab past its persist step found its receipt in storage at some earlier moment |
| Transfer.StoredBeforeSent | frontend/src/KnowledgeDocumentTransferDialog.tsx:41-50 | no request is sent before its receipt was stored |
| Transfer.OverwritesExactly | frontend/src/KnowledgeDocumentTransferDialog.tsx:42-47 | in every run, whatever the synchronisation: a stored valid receipt is never replaced by another exactly when every tab that writes a valid receipt still finds none of another client |
| Transfer.RemovesExactly | frontend/src/KnowledgeDocumentTransferDialog.tsx:31-47 | in every run: a stored valid receipt only disappears by its holder exactly when every tab that removes still finds its own, and none writes an unreadable one over it |
| Transfer.NeverOverwrittenExactly | frontend/src/KnowledgeDocumentTransferDialog.tsx:41-47 | a stored valid receipt is never replaced by another in any run, exactly with named locks or uninterrupted blocks |
| Transfer.RemovedByItsHolderExactly | frontend/src/KnowledgeDocumentTransferDialog.tsx:31-34 | a receipt is only removed by a tab holding it in every run, exactly with uninterrupted blocks |
| Transfer.PendingSurvives | frontend/src/KnowledgeDocumentTransferDialog.tsx:31-57 | until a removal, every later page load finds the stored receipt |
| TaskLease.TokenCountsClaims | internal/infrastructure/persistence/database/agent/agent_task_claim_store.go:66-165 | the fencing token equals the number of granted claims in every run |
| TaskLease.FencedWrites | internal/infrastructure/persistence/database/agent/agent_task_run_store.go:186-218 | a worker's write is accepted only from the latest claim and only while running |
| TaskLease.TakeoverAfterExpiry | internal/infrastructure/persistence/database/agent/agent_task_run_store.go:198-218 | a claim displaces a running worker only once the last granted lease has run out |
| TaskLease.StatusInvariant | internal/infrastructure/persistence/database/agent/agent_task_transition_store.go:14-302 | with advancing timestamps, column and payload status agree in every reachable state |
| TaskLease.StatusDisciplineExactly | internal/infrastructure/persistence/database/agent/agent_task_transition_store.go:226-260 | in every run, whatever the clock: only claims start a run, only operators leave a terminal status and a cancellation ends only queued runs, exactly when every accepted cancellation still applies to the status it finds |
| TaskLease.TickingKeepsDiscipline | internal/infrastructure/persistence/database/agent/agent_task_transition_store.go:226-260 | advancing timestamps are enough for the status discipline |
| TaskLease.RevisionsKeepDiscipline | internal/infrastructure/persistence/database/agent/agent_task_transition_store.go:226-260 | whatever the clock, write-backs and cancellations at the revision they have read keep column and payload status equal and the status discipline |
| TaskLease.NeverLosesExactly | internal/infrastructure/persistence/database/agent/agent_task_transition_store.go:14-302 | in every run, whatever the clock: no recorded call and, before a terminal status or an operator edit, no recorded cancellation is lost, exactly when every write of a payload read earlier finds the ledger it has read and every heartbeat and non-final settlement passes a cancellation on |
| TaskLease.RevisionsDecide | internal/infrastructure/persistence/database/agent/agent_task_transition_store.go:14-50 | in every run whose cancellations are current, by revision or because timestamps advance: nothing is lost exactly when every write-back happens at the revision it has read and every non-final settlement carries the cancellation |
| TaskLease.RevisionsKeepLedger | internal/infrastructure/persistence/database/agent/agent_task_transition_store.go:14-260 | in the same runs, write-backs at the revision they have read take no call off the ledger, so the budget holds |
| TaskLease.FirstStaleWriteBackLoses | internal/infrastructure/persistence/database/agent/agent_task_transition_store.go:14-50 | in every run whose cancellations so far were current, by revision or because timestamps advance, the first write-back of a stale payload takes back something recorded |
| LeaseFailures.StaleWriteBackCanRestore | internal/infrastructure/persistence/database/agent/agent_task_transition_store.go:14-260 | a run, within one tick, whose only write-back is stale and loses nothing, so the condition on cancellations is needed |
| TaskLease.AccountsExactly | internal/infrastructure/persistence/database/agent/agent_tool_call_store.go:20-89 | in every run, whatever the clock: the calls on record are at all times the calls begun, exactly when every accepted write-back, cancellation and edit brings at least as many calls as it finds |
| TaskLease.BudgetIsSpentOnce | internal/infrastructure/persistence/database/agent/agent_tool_call_store.go:20-89 | under that condition the calls begun and their cost stay within the budgets, over retries, takeovers, cancellations and edits |
| LeaseFailures.LostFinishStillAccounts | internal/infrastructure/persistence/database/agent/agent_tool_call_store.go:91-158 | a run that loses the mark of a finished call and still meets the condition |
| TaskLease.FreshIsRecordedExactly | internal/infrastructure/persistence/database/agent/agent_task_transition_store.go:226-260 | a cancellation read and written at once is recorded exactly when the payload carries the column's timestamp; otherwise it is answered and forgotten |
| TaskLease.AnsweredIsRecordedExactly | internal/infrastructure/persistence/database/agent/agent_task_transition_store.go:240-259 | any answered cancellation is recorded exactly when the timestamp it has read is still the column's |
| TaskLease.InStepExactly | internal/infrastructure/persistence/database/agent/agent_task_transition_store.go:14-302 | which writes bring payload and column timestamps in step, and which put them out of step |
| TaskLease.RenewalRefusesCancellations | internal/infrastructure/persistence/database/agent/agent_task_transition_store.go:14-50 | with advancing timestamps, after a lease renewal every fresh cancellation is refused until the row is stamped again or written back |
| LeaseFailures.CancelIsForgotten | internal/infrastructure/persistence/database/agent/agent_task_transition_store.go:254-257 | a run that loses nothing and has no stale write, in which a cancellation is answered and never recorded |
| LeaseFailures.OverlappingHeartbeatReplenishes | internal/infrastructure/persistence/database/agent/agent_task_transition_store.go:14-50 | a run in which a budget of one call is spent twice |
| LeaseFailures.CancellationRevives | internal/infrastructure/persistence/database/agent/agent_task_transition_store.go:226-260 | a run in which a cancellation makes a settled run running again |
| LeaseFailures.SameTickCancelReplenishes | internal/infrastructure/persistence/database/agent/agent_task_transition_store.go:226-260 | a run without heartbeats in which a cancellation takes a call off the ledger and a budget of one call is spent twice |
| LeaseFailures.RetryForgetsCancellation | internal/infrastructure/persistence/database/agent/agent_task_transition_store.go:52-104 | a run with advancing timestamps and current writes in which a failed attempt's settlement drops a cancellation and waits for a retry |
| LeaseFailures.LateCancelIsHarmless | internal/infrastructure/persistence/database/agent/agent_task_transition_store.go:226-260 | a run in which a cancellation behind by one write-back loses nothing |
| Permissions.SortInPlace | module/library_knowledge.go:174 | leaves the same IDs in the array it is given, in ascending order |
| Permissions.CompactedIsCanonical | module/library_knowledge.go:174-175 | however the list was sorted, compacting it gives the one strictly increasing list of its members |
| Permissions.Canonicalise | module/library_knowledge.go:168-176 | refuses exactly lists with a bad ID, else yields the canonical list of the IDs |
| Permissions.BindLibraryPermissions | module/library_knowledge.go:142-178 | updates the binding as specified in every branch; the configured list keeps its contents, also when shared |
| Permissions.BoundListIsCanonical | module/library_knowledge.go:142-178 | the document list is strictly increasing and names exactly the IDs in force |
| Permissions.SameSetSameList | module/library_knowledge.go:168-176 | accepted inputs with one set of IDs give one list, whatever order and repetition |
| Permissions.ManagementKeepsScope | module/library_knowledge.go:146-159 | switching document management never changes the scope when both bind |
| Permissions.DefaultScopesDiffer | module/library_knowledge.go:151-159 | default scopes differ for different runtime, trimmed workspace and library |
| Catalogues.Catalogue.KnowledgeDatasources | module/knowledge_datasources.go:136-151 | lists exactly the definitions of the workspace, increasing by key, whatever order the map yields |
| Catalogues.Catalogue.OpenKnowledgeDatasource | module/knowledge_datasources.go:152-166 | opens exactly keys that pass the scope checks, with permissions bound for the library; the binding shares the entry's list, and every entry, list included, stays as it was |
| Catalogues.OpenInTurn | module/knowledge_datasources.go:152-166 | any sequence of opens is answered from the entries as they were, which are the same at the end |
| Catalogues.ListingIsUnique | module/knowledge_datasources.go:136-151 | the listing is determined by catalogue and workspace alone |
| Catalogues.ListedExactlyWhenOpenable | module/knowledge_datasources.go:136-166 | a key is listed exactly when opening it there with a well-formed library passes the scope checks |
| Catalogues.BindingNeverFails | module/knowledge_datasources.go:100-166 | for an accepted entry and any well-formed library, permission binding succeeds |
| Catalogues.FixedEntriesOpenAlike | module/knowledge_datasources.go:152-166 | entries with fixed permissions open alike for every library |
| Catalogues.DefaultEntriesOpenApart | module/knowledge_datasources.go:152-166 | entries without fixed permissions get another document scope per library |
| Catalogues.OpensWhatWasListed | module/knowledge_datasources.go:126-166 | if identity depends on the remote base alone, the opened source has the listed identity |
| Sources.AssembleLibraryKnowledge | module/library_knowledge.go:98-140 | accepts exactly at most 1000 bindable libraries whose normalised remotes are distinct from each other and the default, and installs their bindings in order |
| Sources.AssembleKnowledgeDatasources | module/knowledge_datasources.go:72-135 | accepts exactly entries with distinct keys and identities not used by managed sources, and installs a catalogue of exactly these, with its own copies of their lists |
| Sources.AssembleAttachmentKnowledge | module/attachment_knowledge.go:51-98 | accepts exactly when every workspace has one source and no source is used twice or by another kind |
| Sources.AssembleSources | module/factory.go:225-252 | the assemblers in order: the exact verdict, and on success no attachment source is used twice or by the managed default, a managed library or the built-in catalogue, no configured catalogue entry shares with another or with a managed default or library, and configured libraries have remotes of their own; libraries and a catalogue the host has preset are not compared with each other or the default |
| Sources.LibrariesShareNothing | module/library_knowledge.go:112-140 | if identities tell remotes apart, configured libraries share no source with each other or the default |
| ErrorCodec.WriteRepositoryError | server/repository_errors.go:13-40 | the six domain classes keep status, code, class and retry flag; everything else is one fixed internal failure |
| ErrorCodec.WriteConversationError | server/conversations.go:47-68 | the coded status with the code, or the fixed internal failure |
| ErrorCodec.RepositoryRoundTrip | remote/factory.go:343-385 | decoding the encoded failure gives its projection, exactly unless a domain failure has no code |
| ErrorCodec.HopsSettle | remote/factory.go:343-385 | any number of further boundaries leaves the projection as it is |
| ErrorCodec.OneHopSettlesExactly | remote/factory.go:343-385 | two boundaries settle every failure; one does exactly for failures with a name |
| ErrorCodec.ConversationRoundTrip | remote/factory.go:352-384 | the code always arrives; a domain class arrives exactly with the conversation prefix |
| ErrorCodec.ConversationHopsSettle | remote/factory.go:352-384 | what every failure becomes behind two or more conversation boundaries |
| ErrorCodec.RunnerVerdict | remote/factory.go:343-351 | a retryable flag is never lost, and the client gives up exactly on final provider HTTP failures |
| Preview.CheckMessage | frontend/src/account-write-state.ts:41-49 | the recipient loop accepts exactly mails with 1 to 50 addresses, distinct up to case across the three lists |
| Preview.Lossless | frontend/src/account-write-state.ts:17-62 | the arguments are rebuilt from the preview, and parsing them again gives the same preview |
| Preview.SamePreviewSameArguments | frontend/src/account-write-state.ts:17-62 | for one tool, accepted argument objects with one preview are equal |
| Preview.SamePreviewSameRequest | frontend/src/account-write-state.ts:17-62 | texts with one preview parse to one value |
| Preview.ConfirmedMailRecipients | frontend/src/account-write-state.ts:41-61 | a mail that can be confirmed shows 1 to 50 recipients, no two alike up to case |
| Mount.AuthorizationActions | server/authorization_actions.go:43-129 | succeeds exactly when all keys can be built and are distinct; the manifest holds the fixed keys and every conversation operation but the stream |
| Mount.MountAll | server/server.go:51-86 | succeeds exactly when every action finds a handler and a route, no own action repeats and every handler has an action; then each action is mounted once with its own handler |
| Mount.MountingIsABijection | server/server.go:65-86 | every registered handler belongs to exactly one action |
| Mount.ActionOrderIsIrrelevant | server/server.go:65-86 | the order in which actions are listed does not decide |
| Mount.ManifestMounts | server/server.go:51-86 | for a manifest whose own actions are the registered handlers, only an unprojectable route can stop the service |

## Left out

- Candidates.ValidateTask: attachment schemas are checked by the SDK, which is not part of this model; its verdict is a parameter.
- Results a runner returns without an error are sent as they are; only the failing branch is modelled.
- ErrorCodec.RunnerVerdict: for results with a non-blank error code; what the client makes of others depends on the SDK's JSON members.
- Permissions.SortInPlace: stands for the library sort, which is another algorithm with the same contract.
- Defaults.PublishEntrypoint: schemas that share storage with their nested contracts are not covered, since a generated document has none.
- Defaults.ApplyConstraints: requires properties where the source would fail on their absence; an entrypoint's schema and its two nested contracts share no storage, as generated ones do not.
- Catalogues.Catalogue.KnowledgeDatasources: the catalogue is read as assembled, so every entry stands under its definition's key.
- TaskLease: an operator's reconciliation of a running task, several heartbeats in flight for one claim, lease, evidence and approval members of the payload, and overflow of cost sums are not modelled; terminal statuses are those of the execution service.
- Mount.AuthorizationActions: the registry's normalisation of a key is not part of this model; its verdict is a parameter.
- Transfer: a storage cell written by some other program that the reader would accept only by conversion; a change of the signed-in session during a transfer; requests and answers are only logged, since the server side is another program.
- Preview: strings are sequences of Unicode scalar values, so lone surrogates do not occur; JSON parsing is a parameter.
- Sources: configuration given as JSON in the environment, and normalisation of URLs, whose result is an opaque key; the deep copy of response mappings, which are plain values here.
- Mount: the HTTP router's own refusal of two equal patterns, and the order in which the registry lists actions.
- Lifecycle: reads of the binding without its lock, and conversation options that are only passed on.
- Go strings are taken to be valid UTF-8 except permission IDs; which error message is reported is not modelled, only that there is one.
- Bodies above the client's response limit, HTTP transport, authentication, cookies and origins.
- Repository and conversation forwarding, dialog state, collaboration and the conversation engine: forwarding, or behaviour outside these files.
- React components beyond the transfer dialog's state, command entrypoints and migrations: configuration and presentation.
