/**
 * The document-transfer protocol of the browser: any number of tabs of one
 * session share one stored receipt.  A tab stores the receipt before it sends
 * the request, keeps it while the outcome is unknown, and removes it once the
 * outcome is confirmed or the user gives up.  Tabs reload and crash at any
 * moment and answers get lost.
 *
 * Each event is one access to storage or one asynchronous step.  Whether a
 * synchronous block of one tab (read, then write) can be interrupted by another
 * tab, and whether the browser offers named locks, is a parameter.
 */
module Transfer {
  import opened Optional
  import opened Json
  import opened Receipts

  type TabID = nat

  /** locks: navigator.locks exists.  blocks: no other tab acts inside a synchronous block. */
  datatype Sync = Sync(locks: bool, blocks: bool)

  datatype Phase =
    | Idle
    | Waiting(receipt: Receipt, isNew: bool)   // transfer() has chosen its receipt, persist has not run
    | Writing(receipt: Receipt, isNew: bool)   // persist has read the cell and may write
    | Saved(receipt: Receipt)                   // persist is done, the request is not sent
    | InFlight(receipt: Receipt)                // the request is sent, the answer is not processed
    | Removing(receipt: Receipt)                // clearReceipt has read its own receipt and will remove the cell

  datatype Tab = Tab(pending: Option<Receipt>, phase: Phase)

  datatype Request = Request(
    clientID: Text16, targetID: Text16, sourceLibraryID: Text16, sourceDocumentID: Text16, revision: int, mode: Mode)

  function RequestOf(r: Receipt): (q: Request) {
    Request(r.clientID, r.targetID, r.source.libraryID, r.source.id, r.source.revision, r.mode)
  }

  datatype State = State(
    cell: Option<Text16>, tabs: map<TabID, Tab>, lock: Option<TabID>, log: seq<Request>,
    minted: map<Text16, Receipt>)

  datatype Event =
    | Mount(tab: TabID)                                       // a page load, also after a crash
    | Crash(tab: TabID)
    | Begin(tab: TabID, receipt: Receipt, isNew: bool)        // transfer() up to the call of persist
    | Check(tab: TabID)                                       // persist reads the cell
    | Store(tab: TabID)                                       // persist writes the cell
    | StoreFails(tab: TabID)                                  // storage refuses the write
    | Send(tab: TabID)
    | GiveUp(tab: TabID)                                      // abort, time-out, lost or invalid answer
    | Answer(tab: TabID)                                      // a valid answer; clearReceipt reads the cell
    | EndRetry(tab: TabID)                                    // the user ends the retry; clearReceipt reads the cell
    | Remove(tab: TabID)                                      // clearReceipt removes the cell

  predicate Midway(p: Phase) {
    p.Writing? || p.Removing?
  }

  function Stored(s: State): (r: Option<Receipt>) {
    ParsePending(s.cell)
  }

  /** persist goes on unless the cell holds a valid receipt of another client. */
  predicate MayStore(existing: Option<Receipt>, r: Receipt) {
    existing.Some? ==> existing.value.clientID == r.clientID
  }

  predicate Enabled(m: Sync, s: State, e: Event) {
    && (e.Mount? || e.tab in s.tabs)
    && (m.blocks ==> forall u <- s.tabs.Keys :: u != e.tab ==> !Midway(s.tabs[u].phase))
    && match e
       case Mount(_) => true
       case Crash(_) => true
       case Begin(t, r, _) =>
         && s.tabs[t].phase.Idle?
         && (if s.tabs[t].pending.Some? then r == s.tabs[t].pending.value else r.clientID !in s.minted)
       case Check(t) => s.tabs[t].phase.Waiting? && (m.locks ==> s.lock.None?)
       case Store(t) => s.tabs[t].phase.Writing?
       case StoreFails(t) => s.tabs[t].phase.Writing?
       case Send(t) => s.tabs[t].phase.Saved?
       case GiveUp(t) => s.tabs[t].phase.Waiting? || s.tabs[t].phase.Saved? || s.tabs[t].phase.InFlight?
       case Answer(t) => s.tabs[t].phase.InFlight?
       case EndRetry(t) => s.tabs[t].phase.Idle? && s.tabs[t].pending.Some?
       case Remove(t) => s.tabs[t].phase.Removing?
  }

  function SetPhase(s: State, t: TabID, p: Phase): (s': State)
    requires t in s.tabs
  {
    s.(tabs := s.tabs[t := s.tabs[t].(phase := p)])
  }

  function Release(s: State, t: TabID): (s': State) {
    if s.lock == Some(t) then s.(lock := None) else s
  }

  /** The read half of clearReceipt: only the tab's own receipt will be removed. */
  function ReadForClear(s: State, t: TabID, r: Receipt): (s': State)
    requires t in s.tabs
  {
    if Stored(s).Some? && Stored(s).value.clientID == r.clientID
    then SetPhase(s, t, Removing(r))
    else s.(tabs := s.tabs[t := Tab(None, Idle)])
  }

  function Next(m: Sync, s: State, e: Event): (s': State)
    requires Enabled(m, s, e)
  {
    match e
    case Mount(t) => Release(s, t).(tabs := s.tabs[t := Tab(Stored(s), Idle)])
    case Crash(t) => Release(s, t).(tabs := s.tabs - {t})
    case Begin(t, r, isNew) =>
      SetPhase(s, t, Waiting(r, isNew)).(minted := s.minted[r.clientID := r])
    case Check(t) =>
      var phase := s.tabs[t].phase;
      if MayStore(Stored(s), phase.receipt)
      then SetPhase(s, t, Writing(phase.receipt, phase.isNew)).(lock := if m.locks then Some(t) else s.lock)
      else SetPhase(s, t, Idle)
    case Store(t) =>
      var phase := s.tabs[t].phase;
      Release(SetPhase(s, t, Saved(phase.receipt)), t).(cell := Some(Serialize(phase.receipt, phase.isNew)))
    case StoreFails(t) => Release(SetPhase(s, t, Idle), t)
    case Send(t) =>
      var r := s.tabs[t].phase.receipt;
      s.(tabs := s.tabs[t := Tab(Some(r), InFlight(r))], log := s.log + [RequestOf(r)])
    case GiveUp(t) => SetPhase(s, t, Idle)
    case Answer(t) => ReadForClear(s, t, s.tabs[t].phase.receipt)
    case EndRetry(t) => ReadForClear(s, t, s.tabs[t].pending.value)
    case Remove(t) => s.(tabs := s.tabs[t := Tab(None, Idle)], cell := None)
  }

  // ---------- runs ----------

  /**
   * No tab yet; storage holds whatever an earlier visit left, whose client ID counts as used.  An object
   * the reader would accept only by converting a member to a string is never left by a visit.
   */
  ghost predicate Init(s: State) {
    && s.tabs == map[] && s.lock == None && s.log == [] && Honest(s.cell)
    && s.minted == if Stored(s).Some? then map[Stored(s).value.clientID := Stored(s).value] else map[]
  }

  /** A run: the events, and the states before, between and after them. */
  datatype Run = Run(states: seq<State>, events: seq<Event>)

  ghost predicate IsRun(m: Sync, run: Run) {
    && |run.states| == |run.events| + 1
    && Init(run.states[0])
    && forall i :: 0 <= i < |run.events| ==>
         Enabled(m, run.states[i], run.events[i]) && run.states[i + 1] == Next(m, run.states[i], run.events[i])
  }

  // ---------- what every run keeps ----------

  predicate Known(s: State, r: Receipt) {
    r.clientID in s.minted && s.minted[r.clientID] == r
  }

  ghost predicate KnownTab(s: State, t: Tab) {
    && (t.pending.Some? ==> Known(s, t.pending.value))
    && (!t.phase.Idle? ==> Known(s, t.phase.receipt))
  }

  ghost predicate KnownTabs(s: State) {
    forall t <- s.tabs.Keys :: KnownTab(s, s.tabs[t])
  }

  ghost predicate KnownCell(s: State) {
    Stored(s).Some? ==> Known(s, Stored(s).value)
  }

  ghost predicate KnownRequests(s: State) {
    forall q <- s.log :: q.clientID in s.minted && q == RequestOf(s.minted[q.clientID])
  }

  /** One client ID, one receipt: everywhere it can be found. */
  ghost predicate OneReceiptPerClient(s: State) {
    KnownTabs(s) && KnownCell(s) && KnownRequests(s)
  }

  /** An event touches its own tab only, and never reassigns a client ID. */
  lemma Frame(m: Sync, s: State, e: Event)
    requires Enabled(m, s, e) && KnownTabs(s)
    ensures forall u :: u != e.tab ==> (u in Next(m, s, e).tabs <==> u in s.tabs)
    ensures forall u :: u != e.tab && u in s.tabs ==> Next(m, s, e).tabs[u] == s.tabs[u]
    ensures forall r :: Known(s, r) ==> Known(Next(m, s, e), r)
  {
    hide Stored, Serialize, RequestOf, MayStore;
  }

  lemma OwnTabIsKnown(m: Sync, s: State, e: Event)
    requires Enabled(m, s, e) && KnownTabs(s) && KnownCell(s)
    ensures e.tab in Next(m, s, e).tabs ==> KnownTab(Next(m, s, e), Next(m, s, e).tabs[e.tab])
  {
    hide Stored, Serialize, RequestOf, MayStore;
  }

  lemma CellAfter(m: Sync, s: State, e: Event)
    requires Enabled(m, s, e)
    ensures !e.Store? && !e.Remove? ==> Stored(Next(m, s, e)) == Stored(s)
    ensures e.Remove? ==> Stored(Next(m, s, e)) == None
    ensures e.Store? ==> var r := s.tabs[e.tab].phase.receipt;
                         Stored(Next(m, s, e)) == if Valid(r) then Some(r) else None
  {
    hide ParsePending, Serialize, RequestOf, MayStore, Valid;
    if e.Store? {
      StorageRoundTrip(s.tabs[e.tab].phase.receipt, s.tabs[e.tab].phase.isNew);
    }
    if e.Remove? {
      NothingStored();
    }
  }

  lemma NothingStored()
    ensures ParsePending(None) == None
  {
  }

  lemma LogAfter(m: Sync, s: State, e: Event)
    requires Enabled(m, s, e)
    ensures Next(m, s, e).log == if e.Send? then s.log + [RequestOf(s.tabs[e.tab].phase.receipt)] else s.log
  {
    hide Stored, Serialize, RequestOf, MayStore;
  }

  lemma KeepsOneReceiptPerClient(m: Sync, s: State, e: Event)
    requires OneReceiptPerClient(s) && Enabled(m, s, e)
    ensures OneReceiptPerClient(Next(m, s, e))
  {
    hide Stored, Next, MayStore, Valid;
    Frame(m, s, e);
    OwnTabIsKnown(m, s, e);
    CellAfter(m, s, e);
    LogAfter(m, s, e);
    forall q | q in s.log
      ensures q.clientID in Next(m, s, e).minted && q == RequestOf(Next(m, s, e).minted[q.clientID])
    {
      assert Known(s, s.minted[q.clientID]);
    }
  }

  /** What makes the two halves of a read-then-write block one step for the rest of the system. */
  ghost predicate Exclusive(m: Sync, s: State) {
    && (m.locks ==> WritersLocked(s))
    && (m.blocks ==> OneMidway(s) && RemovingOwn(s))
    && (m.locks || m.blocks ==> WritersMayStore(s))
  }

  ghost predicate WritersLocked(s: State) {
    forall t <- s.tabs.Keys :: s.tabs[t].phase.Writing? ==> s.lock == Some(t)
  }

  ghost predicate OneMidway(s: State) {
    forall t, u :: t in s.tabs && u in s.tabs && Midway(s.tabs[t].phase) && Midway(s.tabs[u].phase) ==> t == u
  }

  ghost predicate RemovingOwn(s: State) {
    forall t <- s.tabs.Keys :: s.tabs[t].phase.Removing? ==> Stored(s) == Some(s.tabs[t].phase.receipt)
  }

  ghost predicate WritersMayStore(s: State) {
    forall t <- s.tabs.Keys :: s.tabs[t].phase.Writing? ==> MayStore(Stored(s), s.tabs[t].phase.receipt)
  }

  /** When a tab is inside a block after an event, and what it then knows. */
  lemma MidwayAfter(m: Sync, s: State, e: Event)
    requires Enabled(m, s, e) && OneReceiptPerClient(s) && e.tab in Next(m, s, e).tabs
    ensures var p := Next(m, s, e).tabs[e.tab].phase;
            && (p.Writing? ==> e.Check? && MayStore(Stored(s), p.receipt))
            && (p.Removing? ==> (e.Answer? || e.EndRetry?) && Stored(s) == Some(p.receipt))
  {
    hide ParsePending, Serialize, RequestOf;
  }

  lemma LockAfter(m: Sync, s: State, e: Event)
    requires Enabled(m, s, e) && m.locks
    ensures e.Check? && e.tab in Next(m, s, e).tabs && Next(m, s, e).tabs[e.tab].phase.Writing? ==>
              Next(m, s, e).lock == Some(e.tab)
    ensures forall u :: u != e.tab && s.lock == Some(u) ==> Next(m, s, e).lock == Some(u)
  {
    hide Stored, Serialize, RequestOf, MayStore;
  }

  lemma KeepsExclusive(m: Sync, s: State, e: Event)
    requires OneReceiptPerClient(s) && Exclusive(m, s) && Enabled(m, s, e)
    ensures Exclusive(m, Next(m, s, e))
  {
    hide Stored, Next, Valid;
    Frame(m, s, e);
    CellAfter(m, s, e);
    if e.tab in Next(m, s, e).tabs {
      MidwayAfter(m, s, e);
    }
    if m.locks {
      LockAfter(m, s, e);
    }
  }

  lemma {:induction false} EveryState(m: Sync, run: Run, i: nat)
    requires IsRun(m, run) && i < |run.states|
    ensures OneReceiptPerClient(run.states[i]) && Exclusive(m, run.states[i])
  {
    hide OneReceiptPerClient, Exclusive, Enabled, Next;
    if i == 0 {
      InitOk(m, run.states[0]);
    } else {
      EveryState(m, run, i - 1);
      KeepsOneReceiptPerClient(m, run.states[i - 1], run.events[i - 1]);
      KeepsExclusive(m, run.states[i - 1], run.events[i - 1]);
    }
  }

  /** What a visit leaves behind, after any events, is what the next one may start from. */
  lemma {:induction false} EveryCellHonest(m: Sync, run: Run, i: nat)
    requires IsRun(m, run) && i < |run.states|
    ensures Honest(run.states[i].cell)
  {
    hide Honest, ParsePending, Serialize, RequestOf, MayStore;
    if i > 0 {
      EveryCellHonest(m, run, i - 1);
      var s, e := run.states[i - 1], run.events[i - 1];
      NothingIsHonest();
      if e.Store? {
        WrittenIsHonest(s.tabs[e.tab].phase.receipt, s.tabs[e.tab].phase.isNew);
      }
    }
  }

  lemma NothingIsHonest()
    ensures Honest(None)
  {
  }

  /** In every reachable state, what a page load reads is the receipt the model says is stored. */
  lemma LoadsWhatIsStored(m: Sync, run: Run, i: nat, b: Browser)
    requires IsRun(m, run) && i < |run.states| && ReadsIntegers(b)
    ensures LoadPending(b, run.states[i].cell) ==
            if Stored(run.states[i]).Some? then Some(AsLoaded(Stored(run.states[i]).value)) else None
  {
    hide LoadPending, ParsePending, AsLoaded, AllStrings, IsRun, Valid, ReadsIntegers;
    EveryCellHonest(m, run, i);
    var cell := run.states[i].cell;
    if Stored(run.states[i]).Some? {
      ReadsReceipts(b, cell, Stored(run.states[i]).value);
    }
  }

  lemma InitOk(m: Sync, s: State)
    requires Init(s)
    ensures OneReceiptPerClient(s) && Exclusive(m, s)
  {
    hide ParsePending;
  }

  // ---------- requests ----------

  /** Two requests with one client ID ask for the same transfer, whatever the tabs did. */
  lemma SameClientSameRequest(m: Sync, run: Run, i: nat, p: Request, q: Request)
    requires IsRun(m, run) && i < |run.states|
    requires p in run.states[i].log && q in run.states[i].log && p.clientID == q.clientID
    ensures p == q
  {
    EveryState(m, run, i);
  }

  /** At some point up to i, storage held exactly this receipt. */
  ghost predicate WasStored(run: Run, i: nat, r: Receipt)
    requires i < |run.states|
  {
    exists j, isNew :: 0 <= j <= i && run.states[j].cell == Some(Serialize(r, isNew))
  }

  lemma {:induction false} SavedWasStored(m: Sync, run: Run, i: nat, t: TabID)
    requires IsRun(m, run) && i < |run.states| && t in run.states[i].tabs
    requires run.states[i].tabs[t].phase.Saved? || run.states[i].tabs[t].phase.InFlight?
    ensures WasStored(run, i, run.states[i].tabs[t].phase.receipt)
  {
    hide ParsePending, Serialize, RequestOf;
    if i > 0 {
      var s, e := run.states[i - 1], run.events[i - 1];
      if e.Store? && e.tab == t {
        assert run.states[i].cell == Some(Serialize(s.tabs[t].phase.receipt, s.tabs[t].phase.isNew));
      } else {
        assert t in s.tabs && (s.tabs[t].phase.Saved? || s.tabs[t].phase.InFlight?)
               && s.tabs[t].phase.receipt == run.states[i].tabs[t].phase.receipt;
        SavedWasStored(m, run, i - 1, t);
      }
    }
  }

  lemma {:induction false} LogGrows(m: Sync, run: Run, j: nat, i: nat)
    requires IsRun(m, run) && j <= i < |run.states|
    ensures run.states[j].log <= run.states[i].log
  {
    hide Next, Enabled, RequestOf;
    if j < i {
      LogGrows(m, run, j, i - 1);
      LogAfter(m, run.states[i - 1], run.events[i - 1]);
    }
  }

  /** Every request in the log was preceded by a moment when its receipt lay in storage and it was not yet sent. */
  lemma {:induction false} StoredBeforeSent(m: Sync, run: Run, i: nat, k: nat)
    requires IsRun(m, run) && i < |run.states| && k < |run.states[i].log|
    ensures exists j, r, isNew :: 0 <= j <= i && run.states[j].cell == Some(Serialize(r, isNew))
              && |run.states[j].log| <= k && run.states[i].log[k] == RequestOf(r)
  {
    hide Next, Serialize, RequestOf;
    assert i > 0;
    var s, e := run.states[i - 1], run.events[i - 1];
    LogAfter(m, s, e);
    if k < |s.log| {
      StoredBeforeSent(m, run, i - 1, k);
    } else {
      var r := s.tabs[e.tab].phase.receipt;
      SavedWasStored(m, run, i - 1, e.tab);
      var j, isNew :| 0 <= j <= i - 1 && run.states[j].cell == Some(Serialize(r, isNew));
      LogGrows(m, run, j, i - 1);
    }
  }

  // ---------- the stored receipt ----------

  /** No step replaces a valid stored receipt by a different one. */
  ghost predicate NeverOverwritten(run: Run) {
    forall i :: 0 <= i < |run.states| - 1 && Stored(run.states[i]).Some? && Stored(run.states[i + 1]).Some?
      ==> Stored(run.states[i]) == Stored(run.states[i + 1])
  }

  /** A valid stored receipt disappears only when a tab holding that very receipt removes it. */
  ghost predicate RemovedByItsHolder(run: Run) {
    forall i :: 0 <= i < |run.states| - 1 && i < |run.events| ==> RemovedRightly(run, i)
  }

  ghost predicate RemovedRightly(run: Run, i: nat)
    requires i + 1 < |run.states| && i < |run.events|
  {
    Stored(run.states[i]).Some? && Stored(run.states[i + 1]).None? ==>
      && run.events[i].Remove? && run.events[i].tab in run.states[i].tabs
      && var p := run.states[i].tabs[run.events[i].tab].phase;
         p.Removing? && Some(p.receipt) == Stored(run.states[i])
  }

  /** A tab about to write a valid receipt finds no valid receipt of another client. */
  predicate FindsMayStore(s: State, e: Event) {
    e.Store? && e.tab in s.tabs && s.tabs[e.tab].phase.Writing? && Valid(s.tabs[e.tab].phase.receipt) ==>
      MayStore(Stored(s), s.tabs[e.tab].phase.receipt)
  }

  /**
   * A tab about to remove finds its own receipt or nothing, and one about to write an unreadable receipt
   * finds nothing.
   */
  predicate FindsOwn(s: State, e: Event) {
    && (e.Remove? && e.tab in s.tabs && s.tabs[e.tab].phase.Removing? && Stored(s).Some? ==>
          Stored(s) == Some(s.tabs[e.tab].phase.receipt))
    && (e.Store? && e.tab in s.tabs && s.tabs[e.tab].phase.Writing? && Stored(s).Some? ==>
         Valid(s.tabs[e.tab].phase.receipt))
  }

  lemma StepOverwritesExactly(m: Sync, s: State, e: Event)
    requires OneReceiptPerClient(s) && Enabled(m, s, e)
    ensures (Stored(s).Some? && Stored(Next(m, s, e)).Some? ==> Stored(s) == Stored(Next(m, s, e))) <==>
              FindsMayStore(s, e)
  {
    hide ParsePending, Next, Valid;
    CellAfter(m, s, e);
  }

  lemma StepRemovesExactly(m: Sync, s: State, e: Event)
    requires Enabled(m, s, e)
    ensures (Stored(s).Some? && Stored(Next(m, s, e)).None? ==>
              e.Remove? && s.tabs[e.tab].phase.Removing? && Some(s.tabs[e.tab].phase.receipt) == Stored(s)) <==>
                  FindsOwn(s, e)
  {
    hide ParsePending, Next, Valid;
    CellAfter(m, s, e);
  }

  /**
   * In every run, whatever the mode: nothing is overwritten exactly when every tab that writes finds what it
   * has checked.
   */
  lemma OverwritesExactly(m: Sync, run: Run)
    requires IsRun(m, run)
    ensures NeverOverwritten(run) <==> forall i :: 0 <= i < |run.events| ==> FindsMayStore(run.states[i], run.events[i])
  {
    hide Stored, Enabled, Next, FindsMayStore;
    if NeverOverwritten(run) {
      forall i | 0 <= i < |run.events|
        ensures FindsMayStore(run.states[i], run.events[i])
      {
        OverwritesAt(m, run, i);
      }
    }
    if forall i :: 0 <= i < |run.events| ==> FindsMayStore(run.states[i], run.events[i]) {
      forall i | 0 <= i < |run.states| - 1 && Stored(run.states[i]).Some? && Stored(run.states[i + 1]).Some?
        ensures Stored(run.states[i]) == Stored(run.states[i + 1])
      {
        OverwritesAt(m, run, i);
      }
    }
  }

  lemma OverwritesAt(m: Sync, run: Run, i: nat)
    requires IsRun(m, run) && i < |run.events|
    ensures (Stored(run.states[i]).Some? && Stored(run.states[i + 1]).Some? ==>
               Stored(run.states[i]) == Stored(run.states[i + 1])) <==> FindsMayStore(run.states[i], run.events[i])
  {
    hide OneReceiptPerClient, Exclusive, Stored, Enabled, Next, FindsMayStore;
    EveryState(m, run, i);
    StepOverwritesExactly(m, run.states[i], run.events[i]);
  }

  /**
   * And a stored receipt only ever disappears by its holder exactly when every tab that removes finds what it
   * has checked.
   */
  lemma RemovesExactly(m: Sync, run: Run)
    requires IsRun(m, run)
    ensures RemovedByItsHolder(run) <==> forall i :: 0 <= i < |run.events| ==> FindsOwn(run.states[i], run.events[i])
  {
    hide Stored, Next, FindsOwn;
    forall i | 0 <= i < |run.events|
      ensures RemovedRightly(run, i) <==> FindsOwn(run.states[i], run.events[i])
    {
      StepRemovesExactly(m, run.states[i], run.events[i]);
    }
    if RemovedByItsHolder(run) {
      forall i | 0 <= i < |run.events|
        ensures FindsOwn(run.states[i], run.events[i])
      {
        assert RemovedRightly(run, i);
      }
    }
  }

  lemma StoreKeeps(m: Sync, s: State, e: Event)
    requires OneReceiptPerClient(s) && Exclusive(m, s) && Enabled(m, s, e) && (m.locks || m.blocks)
    ensures Stored(s).Some? && !e.Remove? ==> Stored(Next(m, s, e)) == Stored(s)
    ensures Stored(s).Some? && e.Remove? ==> Stored(Next(m, s, e)) == None
  {
    hide ParsePending, Next;
    CellAfter(m, s, e);
    StoredIsValid(s);
  }

  lemma StoredIsValid(s: State)
    ensures Stored(s).Some? ==> Valid(Stored(s).value)
  {
  }

  lemma ProtectedNeverOverwritten(m: Sync, run: Run)
    requires IsRun(m, run) && (m.locks || m.blocks)
    ensures NeverOverwritten(run)
  {
    hide OneReceiptPerClient, Exclusive, Stored, Enabled, Next;
    forall i | 0 <= i < |run.states| - 1 && Stored(run.states[i]).Some? && Stored(run.states[i + 1]).Some?
      ensures Stored(run.states[i]) == Stored(run.states[i + 1])
    {
      EveryState(m, run, i);
      StoreKeeps(m, run.states[i], run.events[i]);
    }
  }

  lemma AtomicBlocksRemoveOwn(m: Sync, run: Run)
    requires IsRun(m, run) && m.blocks
    ensures RemovedByItsHolder(run)
  {
    hide OneReceiptPerClient, Stored, Next;
    forall i | 0 <= i < |run.states| - 1 && Stored(run.states[i]).Some? && Stored(run.states[i + 1]).None?
      ensures run.events[i].Remove? && run.events[i].tab in run.states[i].tabs
      ensures var p := run.states[i].tabs[run.events[i].tab].phase;
              p.Removing? && Some(p.receipt) == Stored(run.states[i])
    {
      EveryState(m, run, i);
      StoreKeeps(m, run.states[i], run.events[i]);
    }
  }

  /** Until a tab removes it, a stored receipt is what every later page load finds. */
  lemma {:induction false} PendingSurvives(m: Sync, run: Run, i: nat, j: nat)
    requires IsRun(m, run) && (m.locks || m.blocks) && i <= j < |run.states|
    requires Stored(run.states[i]).Some?
    requires forall k :: i <= k < j ==> !run.events[k].Remove?
    ensures Stored(run.states[j]) == Stored(run.states[i])
  {
    hide OneReceiptPerClient, Exclusive, Stored, Enabled, Next;
    if i < j {
      PendingSurvives(m, run, i, j - 1);
      EveryState(m, run, j - 1);
      StoreKeeps(m, run.states[j - 1], run.events[j - 1]);
    }
  }

  // ---------- without protection ----------

  function Repeat(u: Unit, n: nat): (r: Text16)
    ensures |r| == n && forall v <- r :: v == u
  {
    seq(n, _ => u)
  }

  /** A valid receipt for each one-letter client ID. */
  function Example(client: Unit): (r: Receipt) {
    Receipt(
      Source(Ascii("kdoc_") + Repeat(0x61, 32), Ascii("lib_") + Repeat(0x61, 32), [0x66], 1, Repeat(0x61, 64), 1),
      Ascii("lib_") + Repeat(0x62, 32), Copy, [client])
  }

  lemma ExampleIsValid(client: Unit)
    requires ClientUnit(client)
    ensures Valid(Example(client))
  {
    var r := Example(client);
    assert r.source.libraryID[4] == 0x61 && r.targetID[4] == 0x62;
    assert r.source.sha256[0..] == r.source.sha256;
  }

  ghost function Start(): (run: Run) {
    Run([State(None, map[], None, [], map[])], [])
  }

  ghost function Last(run: Run): (s: State)
    requires run.states != []
  {
    run.states[|run.states| - 1]
  }

  ghost function Extend(m: Sync, run: Run, e: Event): (r: Run)
    requires IsRun(m, run) && Enabled(m, Last(run), e)
    ensures IsRun(m, r) && Last(r) == Next(m, Last(run), e)
    ensures r.events == run.events + [e] && r.states == run.states + [Last(r)]
  {
    hide Enabled, Next, Init;
    Run(run.states + [Next(m, Last(run), e)], run.events + [e])
  }

  lemma StartIsRun(m: Sync)
    ensures IsRun(m, Start())
  {
    NothingStored();
  }

  /** Two tabs that have each chosen a receipt of their own, over an empty storage. */
  ghost function Rivals(a: Receipt, b: Receipt): (s: State) {
    State(None, map[0 := Tab(None, Waiting(a, true)), 1 := Tab(None, Waiting(b, true))], None, [],
          map[a.clientID := a, b.clientID := b])
  }

  lemma TwoTabsOpen(m: Sync) returns (run: Run)
    ensures IsRun(m, run) && Last(run) == State(None, map[0 := Tab(None, Idle), 1 := Tab(None, Idle)], None, [], map[])
  {
    hide ParsePending, Serialize, RequestOf, IsRun;
    NothingStored();
    StartIsRun(m);
    run := Extend(m, Start(), Mount(0));
    run := Extend(m, run, Mount(1));
  }

  lemma RivalsWait(m: Sync, a: Receipt, b: Receipt) returns (run: Run)
    requires a.clientID != b.clientID
    ensures IsRun(m, run) && Last(run) == Rivals(a, b)
  {
    hide ParsePending, Serialize, RequestOf, IsRun;
    run := TwoTabsOpen(m);
    run := Extend(m, run, Begin(0, a, true));
    run := Extend(m, run, Begin(1, b, true));
  }

  /** With neither locks nor uninterrupted blocks, two tabs pass the check one after the other and both write. */
  lemma UnprotectedOverwrite() returns (run: Run)
    ensures IsRun(Sync(false, false), run) && !NeverOverwritten(run)
  {
    hide ParsePending, Serialize, RequestOf, Example, Valid, IsRun;
    var m, a, b := Sync(false, false), Example(0x61), Example(0x62);
    ExampleClient(0x61);
    ExampleClient(0x62);
    assert a.clientID[0] != b.clientID[0];
    run := RivalsWait(m, a, b);
    NothingStored();
    run := Extend(m, run, Check(0));
    run := Extend(m, run, Check(1));
    run := Extend(m, run, Store(0));
    var i := |run.states| - 1;
    run := Extend(m, run, Store(1));
    ExampleIsValid(0x61);
    ExampleIsValid(0x62);
    StorageRoundTrip(a, true);
    StorageRoundTrip(b, true);
    Replaced(run, i);
  }

  /** Storing a new receipt over an empty storage, from the choice of the receipt to the write. */
  lemma Deposit(m: Sync, start: Run, t: TabID, r: Receipt) returns (run: Run)
    requires IsRun(m, start) &&
              (m.blocks ==> forall u <- Last(start).tabs.Keys :: u != t ==> !Midway(Last(start).tabs[u].phase))
    requires t in Last(start).tabs && Last(start).tabs[t] == Tab(None, Idle)
    requires Last(start).cell == None && Last(start).lock == None && r.clientID !in Last(start).minted
    ensures IsRun(m, run) && |run.states| == |start.states| + 3
    ensures Last(run) == Last(start).(
        cell := Some(Serialize(r, true)), tabs := Last(start).tabs[t := Tab(None, Saved(r))],
        minted := Last(start).minted[r.clientID := r])
  {
    hide ParsePending, Serialize, RequestOf, IsRun;
    NothingStored();
    run := Extend(m, start, Begin(t, r, true));
    run := Extend(m, run, Check(t));
    run := Extend(m, run, Store(t));
    RunShape(m, start);
    assert Last(run).tabs == Last(start).tabs[t := Tab(None, Saved(r))];
  }

  /** One tab's request is on its way and a second tab has picked up the receipt; then both go on to remove it. */
  ghost function Shared(a: Receipt, first: Phase, second: Phase): (s: State) {
    State(Some(Serialize(a, true)), map[0 := Tab(Some(a), first), 1 := Tab(Some(a), second)], None,
          [RequestOf(a)], map[a.clientID := a])
  }

  lemma SecondTabJoins(m: Sync, a: Receipt) returns (run: Run)
    requires Valid(a)
    ensures IsRun(m, run) && Last(run) == Shared(a, InFlight(a), Idle)
  {
    hide ParsePending, Serialize, RequestOf, IsRun, Valid;
    NothingStored();
    StartIsRun(m);
    StorageRoundTrip(a, true);
    run := Extend(m, Start(), Mount(0));
    run := Deposit(m, run, 0, a);
    run := Extend(m, run, Send(0));
    run := Extend(m, run, Mount(1));
    assert Last(run).tabs == Shared(a, InFlight(a), Idle).tabs;
  }

  lemma TwoTabsRemove(m: Sync, a: Receipt) returns (run: Run)
    requires !m.blocks && Valid(a)
    ensures IsRun(m, run) && Last(run) == Shared(a, Removing(a), Removing(a))
  {
    hide ParsePending, Serialize, RequestOf, IsRun, Valid;
    StorageRoundTrip(a, true);
    run := SecondTabJoins(m, a);
    run := Extend(m, run, Answer(0));
    run := Extend(m, run, EndRetry(1));
    assert Last(run).tabs == Shared(a, Removing(a), Removing(a)).tabs;
  }

  /** Locks do not cover removal: a tab can remove the receipt another tab stored after its check. */
  lemma UncoveredRemoval(m: Sync) returns (run: Run)
    requires !m.blocks
    ensures IsRun(m, run) && !RemovedByItsHolder(run)
  {
    hide ParsePending, Serialize, RequestOf, Example, Valid, IsRun;
    var a, b := Example(0x61), Example(0x62);
    ExampleClient(0x61);
    ExampleClient(0x62);
    assert a.clientID[0] != b.clientID[0];
    ExampleIsValid(0x61);
    ExampleIsValid(0x62);
    run := TwoTabsRemove(m, a);
    run := Extend(m, run, Remove(1));
    run := Deposit(m, run, 1, b);
    var i := |run.states| - 1;
    run := Extend(m, run, Remove(0));
    NothingStored();
    StorageRoundTrip(b, true);
    assert Stored(run.states[i]) == Some(b) && Stored(run.states[i + 1]) == None;
    assert |run.events| == |run.states| - 1 by { RunShape(m, run); }
    assert run.states[i].tabs[run.events[i].tab].phase.receipt == a;
    assert !RemovedRightly(run, i);
  }

  lemma RunShape(m: Sync, run: Run)
    requires IsRun(m, run)
    ensures run.states != [] && |run.events| == |run.states| - 1
  {
  }

  /** Exactly when no run overwrites a stored receipt: with named locks, or with uninterrupted blocks. */
  lemma NeverOverwrittenExactly(m: Sync)
    ensures (forall run :: IsRun(m, run) ==> NeverOverwritten(run)) <==> m.locks || m.blocks
  {
    hide IsRun, NeverOverwritten;
    if m.locks || m.blocks {
      forall run | IsRun(m, run)
        ensures NeverOverwritten(run)
      {
        ProtectedNeverOverwritten(m, run);
      }
    } else {
      var run := UnprotectedOverwrite();
    }
  }

  /** Exactly when every removal is by a holder of the removed receipt: with uninterrupted blocks; locks do not help. */
  lemma RemovedByItsHolderExactly(m: Sync)
    ensures (forall run :: IsRun(m, run) ==> RemovedByItsHolder(run)) <==> m.blocks
  {
    hide IsRun, RemovedByItsHolder;
    if m.blocks {
      forall run | IsRun(m, run)
        ensures RemovedByItsHolder(run)
      {
        AtomicBlocksRemoveOwn(m, run);
      }
    } else {
      var run := UncoveredRemoval(m);
    }
  }

  lemma ExampleClient(client: Unit)
    ensures Example(client).clientID == [client]
  {
  }

  lemma Replaced(run: Run, i: nat)
    requires i + 1 < |run.states| && Stored(run.states[i]).Some? && Stored(run.states[i + 1]).Some?
    requires Stored(run.states[i]) != Stored(run.states[i + 1])
    ensures !NeverOverwritten(run)
  {
  }
}
