/**
 * The stored state of one Agent task run under any number of workers, users and
 * operators.  A worker claims the run and receives a fencing token; every later
 * write of that worker is conditional on the token.  Claiming, settling, tool
 * calls and operator edits are transactions; a heartbeat is three statements
 * (renew the lease, read the payload, write it back) and a cancellation two
 * (read, write if the row's timestamp is unchanged), and other writers may come
 * in between.
 */
module TaskLease {
  import opened Optional

  datatype Status =
    | Pending | Running | RetryScheduled | WaitingApproval
    | Succeeded | Failed | Rejected | NoResult | ManualReview | Cancelled | DeadLetter

  predicate Terminal(s: Status) {
    s != Pending && s != Running && s != RetryScheduled && s != WaitingApproval
  }

  datatype Call = Call(cost: nat, finished: bool)

  /** The JSON payload; the ledger is its list of tool invocations. */
  datatype Payload = Payload(
    status: Status, attempt: nat, revision: nat, updatedAt: int, cancelled: bool, calls: nat, ledger: seq<Call>)

  /** The columns beside the payload. */
  datatype Row = Row(
    status: Status, owner: string, token: nat, leaseExpires: int, nextAttempt: int, updatedAt: int, payload: Payload)

  /** A heartbeat under way: the lease is renewed, the payload may have been read. */
  datatype Beat = Beat(owner: string, token: nat, stamp: int, snapshot: Option<Payload>)

  datatype State = State(row: Row, beats: map<nat, Beat>, cancels: map<nat, Payload>, edits: map<nat, Payload>)

  datatype Event =
    | Claim(owner: string, now: int, duration: int)
    | Renew(op: nat, owner: string, token: nat, now: int, duration: int)
    | BeatRead(op: nat)
    | WriteBack(op: nat)
    | BeginCall(owner: string, token: nat, now: int, cost: nat, maxCalls: nat, maxCost: nat)
    | FinishCall(owner: string, token: nat, now: int, call: nat)
    | Settle(owner: string, token: nat, now: int, copy: Payload, nextAttempt: int)
    | CancelRead(op: nat)
    | CancelWrite(op: nat, now: int)
    | EditRead(op: nat)
    | EditWrite(op: nat, now: int, status: Status, cancelled: bool)
    | Drop(op: nat)

  // ---------- guards ----------

  predicate Eligible(row: Row, now: int) {
    || ((row.status == Pending || row.status == RetryScheduled) && row.nextAttempt <= now)
    || (row.status == Running && row.leaseExpires <= now)
  }

  predicate HoldsLease(row: Row, owner: string, token: nat) {
    row.status == Running && row.owner == owner && row.token == token
  }

  function Cost(ledger: seq<Call>): (c: nat) {
    if ledger == [] then 0 else Cost(ledger[..|ledger| - 1]) + ledger[|ledger| - 1].cost
  }

  /** execution.Budget.Reserve for one call. */
  predicate Affordable(p: Payload, cost: nat, maxCalls: nat, maxCost: nat) {
    && p.calls < maxCalls
    && cost > 0 && Cost(p.ledger) + cost <= maxCost
  }

  /** What the environment guarantees: operations run in order, and with ticks a fresh stamp is later than the row's. */
  predicate Enabled(ticks: bool, s: State, e: Event) {
    match e
    case Claim(_, now, duration) => duration > 0 && Later(ticks, s, now)
    case Renew(op, _, token, now, duration) =>
      // One heartbeat loop per claim: it sends the next beat after the previous one has returned.
      op !in s.beats && duration > 0 && Later(ticks, s, now) && forall b <- s.beats.Keys :: s.beats[b].token != token
    case BeatRead(op) => op in s.beats && s.beats[op].snapshot.None?
    case WriteBack(op) => op in s.beats && s.beats[op].snapshot.Some?
    case BeginCall(_, _, now, _, _, _) => Later(ticks, s, now)
    case FinishCall(_, _, now, _) => Later(ticks, s, now)
    case Settle(_, _, now, copy, _) => Later(ticks, s, now) && copy.status != Running && copy.status != Pending
    case CancelRead(op) => op !in s.cancels
    case CancelWrite(op, now) => op in s.cancels && Later(ticks, s, now)
    case EditRead(op) => op !in s.edits
    case EditWrite(op, now, status, _) => op in s.edits && Later(ticks, s, now) && status != Running
    case Drop(op) => true
  }

  predicate Later(ticks: bool, s: State, now: int) {
    ticks ==> now > s.row.updatedAt
  }

  /** Whether the statement finds its row. */
  predicate Accepts(s: State, e: Event) {
    match e
    case Claim(_, now, _) => Eligible(s.row, now)
    case Renew(_, owner, token, now, _) => HoldsLease(s.row, owner, token) && s.row.leaseExpires > now
    case BeatRead(_) => true
    case WriteBack(op) => op in s.beats && HoldsLease(s.row, s.beats[op].owner, s.beats[op].token)
    case BeginCall(owner, token, _, cost, maxCalls, maxCost) =>
      HoldsLease(s.row, owner, token) && Affordable(s.row.payload, cost, maxCalls, maxCost)
    case FinishCall(owner, token, _, call) =>
      HoldsLease(s.row, owner, token) && call < |s.row.payload.ledger| && !s.row.payload.ledger[call].finished
    case Settle(owner, token, _, _, _) => HoldsLease(s.row, owner, token)
    case CancelRead(_) => !Terminal(s.row.payload.status) && !s.row.payload.cancelled
    case CancelWrite(op, _) => op in s.cancels && s.row.updatedAt == s.cancels[op].updatedAt
    case EditRead(_) => s.row.payload.status != Running
    case EditWrite(op, _, _, _) =>
      op in s.edits && s.row.status == s.edits[op].status && s.row.payload.revision == s.edits[op].revision
    case Drop(_) => true
  }

  // ---------- effects on the row ----------

  function ClaimRow(r: Row, owner: string, now: int, duration: int): (r': Row) {
    r.(status := Running, owner := owner, token := r.token + 1, leaseExpires := now + duration, updatedAt := now,
       payload := r.payload.(status := Running, attempt := r.payload.attempt + 1, revision := r.payload.revision + 1,
           updatedAt := now))
  }

  function BeginRow(r: Row, now: int, cost: nat): (r': Row) {
    r.(updatedAt := now,
       payload := r.payload.(calls := r.payload.calls + 1, revision := r.payload.revision + 1, updatedAt := now,
                             ledger := r.payload.ledger + [Call(cost, false)]))
  }

  function FinishRow(r: Row, now: int, call: nat): (r': Row)
    requires call < |r.payload.ledger|
  {
    r.(updatedAt := now,
       payload := r.payload.(revision := r.payload.revision + 1, updatedAt := now,
                             ledger := r.payload.ledger[call := r.payload.ledger[call].(finished := true)]))
  }

  /** The worker's copy of the run wins, except for the tool-call evidence, which is taken from the row. */
  function SettleRow(r: Row, now: int, copy: Payload, nextAttempt: int): (r': Row) {
    r.(status := copy.status, nextAttempt := nextAttempt, updatedAt := now,
       payload := copy.(calls := r.payload.calls, ledger := r.payload.ledger, updatedAt := now,
                        revision :=
                          if copy.revision <= r.payload.revision then r.payload.revision + 1 else copy.revision))
  }

  function CancelRow(r: Row, now: int, read: Payload): (r': Row) {
    var status := if read.status == Pending || read.status == RetryScheduled then Cancelled else read.status;
    r.(status := status, updatedAt := now,
       payload := read.(status := status, cancelled := true, updatedAt := now, revision := read.revision + 1))
  }

  function EditRow(r: Row, now: int, read: Payload, status: Status, cancelled: bool): (r': Row) {
    r.(status := status, updatedAt := now,
       payload := read.(status := status, cancelled := cancelled, updatedAt := now, revision := read.revision + 1))
  }

  function WriteBackRow(r: Row, beat: Beat, read: Payload): (r': Row) {
    r.(payload := read.(updatedAt := beat.stamp, revision := read.revision + 1))
  }

  function NextRow(s: State, e: Event): (r: Row) {
    if !Accepts(s, e) then s.row
    else match e
      case Claim(owner, now, duration) => ClaimRow(s.row, owner, now, duration)
      case Renew(_, _, _, now, duration) => s.row.(leaseExpires := now + duration, updatedAt := now)
      case WriteBack(op) =>
        if s.beats[op].snapshot.Some? then WriteBackRow(s.row, s.beats[op], s.beats[op].snapshot.value) else s.row
      case BeginCall(_, _, now, cost, _, _) => BeginRow(s.row, now, cost)
      case FinishCall(_, _, now, call) => FinishRow(s.row, now, call)
      case Settle(_, _, now, copy, nextAttempt) => SettleRow(s.row, now, copy, nextAttempt)
      case CancelWrite(op, now) => CancelRow(s.row, now, s.cancels[op])
      case EditWrite(op, now, status, cancelled) => EditRow(s.row, now, s.edits[op], status, cancelled)
      case _ => s.row
  }

  function NextBeats(s: State, e: Event): (bs: map<nat, Beat>) {
    match e
    case Renew(op, owner, token, now, _) =>
      if Accepts(s, e) then s.beats[op := Beat(owner, token, now, None)] else s.beats
    case BeatRead(op) => if op in s.beats then s.beats[op := s.beats[op].(snapshot := Some(s.row.payload))] else s.beats
    case WriteBack(op) => s.beats - {op}
    case Drop(op) => s.beats - {op}
    case _ => s.beats
  }

  function NextCancels(s: State, e: Event): (cs: map<nat, Payload>) {
    match e
    case CancelRead(op) => if Accepts(s, e) then s.cancels[op := s.row.payload] else s.cancels
    case CancelWrite(op, _) => s.cancels - {op}
    case Drop(op) => s.cancels - {op}
    case _ => s.cancels
  }

  function NextEdits(s: State, e: Event): (es: map<nat, Payload>) {
    match e
    case EditRead(op) => if Accepts(s, e) then s.edits[op := s.row.payload] else s.edits
    case EditWrite(op, _, _, _) => s.edits - {op}
    case Drop(op) => s.edits - {op}
    case _ => s.edits
  }

  function Next(s: State, e: Event): (s': State) {
    State(NextRow(s, e), NextBeats(s, e), NextCancels(s, e), NextEdits(s, e))
  }

  // ---------- runs ----------

  /** A run just created: never claimed, nothing called. */
  ghost predicate Init(s: State) {
    && s.beats == map[] && s.cancels == map[] && s.edits == map[]
    && s.row.status == Pending && s.row.token == 0
    && s.row.payload == Payload(Pending, 0, 1, s.row.updatedAt, false, 0, [])
  }

  datatype Run = Run(states: seq<State>, events: seq<Event>)

  ghost predicate IsRun(ticks: bool, run: Run) {
    && |run.states| == |run.events| + 1
    && Init(run.states[0])
    && forall i :: 0 <= i < |run.events| ==>
         Enabled(ticks, run.states[i], run.events[i]) && run.states[i + 1] == Next(run.states[i], run.events[i])
  }

  /** Advancing timestamps are one clock among others: what holds for runs without them holds for all. */
  lemma TickingIsARun(run: Run)
    requires IsRun(true, run)
    ensures IsRun(false, run)
  {
    hide Next, Init;
    forall i | 0 <= i < |run.events|
      ensures Enabled(false, run.states[i], run.events[i])
    {
      assert Enabled(true, run.states[i], run.events[i]);
    }
  }

  // ---------- fencing ----------

  /** Number of claims granted before step i. */
  ghost function Claims(run: Run, i: nat): (n: nat)
    requires i < |run.states| && i <= |run.events|
  {
    if i == 0 then 0
    else Claims(run, i - 1) + if run.events[i - 1].Claim? && Accepts(run.states[i - 1], run.events[i - 1]) then 1 else 0
  }

  /** The row's token counts the claims, so no two claims share one. */
  lemma {:induction false} TokenCountsClaims(ticks: bool, run: Run, i: nat)
    requires IsRun(ticks, run) && i < |run.states|
    ensures run.states[i].row.token == Claims(run, i)
  {
    hide Affordable;
    if i > 0 {
      TokenCountsClaims(ticks, run, i - 1);
      assert run.states[i].row == NextRow(run.states[i - 1], run.events[i - 1]);
    }
  }

  /** Writes a worker makes under its fencing token. */
  predicate WorkerWrite(e: Event) {
    e.Renew? || e.WriteBack? || e.BeginCall? || e.FinishCall? || e.Settle?
  }

  function TokenOf(s: State, e: Event): (t: nat)
    requires WorkerWrite(e) && Accepts(s, e)
  {
    match e
    case Renew(_, _, token, _, _) => token
    case WriteBack(op) => s.beats[op].token
    case BeginCall(_, token, _, _, _, _) => token
    case FinishCall(_, token, _, _) => token
    case Settle(_, token, _, _, _) => token
  }

  lemma {:induction false} ClaimsGrow(run: Run, j: nat, i: nat)
    requires j <= i < |run.states| && i <= |run.events|
    ensures Claims(run, j) <= Claims(run, i)
  {
    if j < i {
      ClaimsGrow(run, j, i - 1);
    }
  }

  /**
   * A write is accepted only from the latest claim; once another claim is granted, the earlier worker is shut
   * out for good.
   */
  lemma FencedWrites(ticks: bool, run: Run, i: nat)
    requires IsRun(ticks, run) && i < |run.events|
    requires WorkerWrite(run.events[i]) && Accepts(run.states[i], run.events[i])
    ensures run.states[i].row.status == Running
    ensures TokenOf(run.states[i], run.events[i]) == Claims(run, i)
    ensures forall j :: 0 <= j < i && run.events[j].Claim? && Accepts(run.states[j], run.events[j])
              ==> Claims(run, j) + 1 <= TokenOf(run.states[i], run.events[i])
  {
    hide Affordable;
    TokenCountsClaims(ticks, run, i);
    forall j | 0 <= j < i && run.events[j].Claim? && Accepts(run.states[j], run.events[j])
      ensures Claims(run, j) + 1 <= Claims(run, i)
    {
      ClaimsGrow(run, j + 1, i);
    }
  }

  // ---------- status ----------

  /** The events that write the row's timestamp; all other events leave timestamp, status and token alone. */
  predicate Stamps(s: State, e: Event) {
    Accepts(s, e) && (e.Claim? || e.Renew? || e.BeginCall? || e.FinishCall? || e.Settle? || e.CancelWrite? ||
        e.EditWrite?)
  }

  /** No snapshot is newer than the row, and a heartbeat belongs to a claim already granted. */
  ghost predicate Dated(ticks: bool, s: State) {
    && (forall op <- s.beats.Keys :: s.beats[op].token <= s.row.token)
    && (ticks ==>
          && s.row.payload.updatedAt <= s.row.updatedAt
          && (forall op <- s.cancels.Keys :: s.cancels[op].updatedAt <= s.row.updatedAt)
          && forall op <- s.beats.Keys :: s.beats[op].stamp <= s.row.updatedAt)
  }

  /** Payload and column agree on the status, and so do the snapshots that could still be written. */
  ghost predicate StatusAgrees(ticks: bool, s: State) {
    && s.row.payload.status == s.row.status
    && (ticks ==> forall op <- s.cancels.Keys ::
          s.cancels[op].updatedAt == s.row.updatedAt ==> s.cancels[op].status == s.row.status)
    && forall op <- s.beats.Keys ::
         s.beats[op].snapshot.Some? && s.beats[op].token == s.row.token && s.row.status == Running
         ==> s.beats[op].snapshot.value.status == Running
  }

  lemma StampAfter(ticks: bool, s: State, e: Event)
    requires Enabled(ticks, s, e)
    ensures Stamps(s, e) ==> NextRow(s, e).updatedAt == e.now && (ticks ==> e.now > s.row.updatedAt)
    ensures !Stamps(s, e) ==>
      NextRow(s, e).updatedAt == s.row.updatedAt && NextRow(s, e).status == s.row.status &&
          NextRow(s, e).token == s.row.token
    ensures NextRow(s, e).token >= s.row.token
  {
    hide Affordable;
  }

  lemma KeepsDated(ticks: bool, s: State, e: Event)
    requires Enabled(ticks, s, e) && Dated(ticks, s)
    ensures Dated(ticks, Next(s, e))
  {
    hide Affordable;
    StampAfter(ticks, s, e);
  }

  /** An accepted cancellation finds the status it has read. */
  predicate FindsStatus(s: State, e: Event) {
    e.CancelWrite? && Accepts(s, e) ==> s.cancels[e.op].status == s.row.status
  }

  /** The status moves only by claiming, settling, cancelling and editing, and only a claim makes it Running. */
  lemma StatusAfter(ticks: bool, s: State, e: Event)
    requires Enabled(ticks, s, e) && StatusAgrees(ticks, s) && FindsStatus(s, e)
    ensures NextRow(s, e).payload.status == NextRow(s, e).status
    ensures NextRow(s, e).status == Running ==>
              s.row.status == Running || (e.Claim? && NextRow(s, e).token > s.row.token)
  {
    hide Affordable;
  }

  lemma KeepsStatusAgrees(ticks: bool, s: State, e: Event)
    requires Enabled(ticks, s, e) && Dated(ticks, s) && StatusAgrees(ticks, s) && FindsStatus(s, e)
    ensures StatusAgrees(ticks, Next(s, e))
  {
    hide Affordable, NextRow, Accepts, FindsStatus;
    StampAfter(ticks, s, e);
    StatusAfter(ticks, s, e);
  }

  /** While timestamps advance, column and payload agree on the status and every cancellation finds the one it read. */
  lemma {:induction false} StatusInvariant(run: Run, i: nat)
    requires IsRun(true, run) && i < |run.states|
    ensures Dated(true, run.states[i]) && StatusAgrees(true, run.states[i])
  {
    hide Enabled, NextRow;
    if i > 0 {
      StatusInvariant(run, i - 1);
      KeepsDated(true, run.states[i - 1], run.events[i - 1]);
      KeepsStatusAgrees(true, run.states[i - 1], run.events[i - 1]);
    }
  }

  predicate Queued(s: Status) {
    s == Pending || s == RetryScheduled
  }

  /**
   * A finished run stays finished until an operator edits it, only a claim starts it, and a cancellation ends
   * only a queued one.
   */
  ghost predicate StatusDiscipline(run: Run) {
    forall i :: 0 <= i < |run.events| && i + 1 < |run.states| ==>
      Disciplined(run.events[i], run.states[i].row.status, run.states[i + 1].row.status)
  }

  predicate Disciplined(e: Event, before: Status, after: Status) {
    && (Terminal(before) && before != after ==> e.EditWrite?)
    && (before != Running && after == Running ==> e.Claim?)
    && (e.CancelWrite? && before != after ==> Queued(before) && after == Cancelled)
  }

  /**
   * What a cancellation would have to check: a queued run is still queued or already cancelled, any other has
   * kept its status.
   */
  predicate StillApplies(s: State, e: Event) {
    e.CancelWrite? && Accepts(s, e) ==>
      var read := s.cancels[e.op].status;
      if Queued(read) then Queued(s.row.status) || s.row.status == Cancelled else s.row.status == read
  }

  /** A cancellation is only begun on a run that has not finished. */
  ghost predicate CancelsUnfinished(s: State) {
    forall op <- s.cancels.Keys :: !Terminal(s.cancels[op].status)
  }

  lemma {:induction false} EveryCancelUnfinished(ticks: bool, run: Run, i: nat)
    requires IsRun(ticks, run) && i < |run.states|
    ensures CancelsUnfinished(run.states[i])
  {
    hide NextRow;
    if i > 0 {
      EveryCancelUnfinished(ticks, run, i - 1);
    }
  }

  lemma DisciplinedStep(ticks: bool, s: State, e: Event)
    requires Enabled(ticks, s, e) && CancelsUnfinished(s)
    ensures Disciplined(e, s.row.status, NextRow(s, e).status) <==> StillApplies(s, e)
  {
    hide Affordable;
  }

  /**
   * In every run, whatever the clock: the status discipline holds exactly when every accepted cancellation
   * still applies.
   */
  lemma StatusDisciplineExactly(ticks: bool, run: Run)
    requires IsRun(ticks, run)
    ensures StatusDiscipline(run) <==> forall i :: 0 <= i < |run.events| ==> StillApplies(run.states[i], run.events[i])
  {
    hide Enabled, NextRow, Disciplined, StillApplies;
    forall i | 0 <= i < |run.events|
      ensures Disciplined(run.events[i], run.states[i].row.status, run.states[i + 1].row.status)
              <==> StillApplies(run.states[i], run.events[i])
    {
      EveryCancelUnfinished(ticks, run, i);
      DisciplinedStep(ticks, run.states[i], run.events[i]);
    }
    if StatusDiscipline(run) {
      forall i | 0 <= i < |run.events|
        ensures StillApplies(run.states[i], run.events[i])
      {
        assert Disciplined(run.events[i], run.states[i].row.status, run.states[i + 1].row.status);
      }
    }
  }

  /** Advancing timestamps are enough: then no cancellation can miss a change. */
  lemma TickingKeepsDiscipline(run: Run)
    requires IsRun(true, run)
    ensures StatusDiscipline(run)
  {
    hide Enabled, NextRow;
    forall i | 0 <= i < |run.events|
      ensures StillApplies(run.states[i], run.events[i])
    {
      StatusInvariant(run, i);
    }
    StatusDisciplineExactly(true, run);
  }

  // ---------- what a run records ----------

  /** Calls stay on the ledger, in place, and finished ones stay finished. */
  predicate LedgerKept(a: seq<Call>, b: seq<Call>) {
    |a| <= |b| && forall i :: 0 <= i < |a| ==> b[i].cost == a[i].cost && (a[i].finished ==> b[i].finished)
  }

  /** A step loses nothing: no tool call, and no cancellation, unless the run ends or an operator edits it. */
  predicate NothingLost(s: State, e: Event, s': State) {
    && LedgerKept(s.row.payload.ledger, s'.row.payload.ledger)
    && (s.row.payload.cancelled && !s'.row.payload.cancelled ==> Terminal(s'.row.status) || e.EditWrite?)
  }

  ghost predicate NeverLoses(run: Run) {
    forall i :: 0 <= i < |run.events| && i + 1 < |run.states| ==>
        NothingLost(run.states[i], run.events[i], run.states[i + 1])
  }

  /** A worker that settles a cancelled run without ending it passes the cancellation on. */
  predicate Carries(s: State, e: Event) {
    e.Settle? && Accepts(s, e) && s.row.payload.cancelled && !Terminal(e.copy.status) ==> e.copy.cancelled
  }

  /** A heartbeat writes back a payload that has the cancellation, if the row has. */
  predicate BeatCarries(s: State, e: Event) {
    e.WriteBack? && Accepts(s, e) && s.beats[e.op].snapshot.Some? && s.row.payload.cancelled ==>
      s.beats[e.op].snapshot.value.cancelled
  }

  /** Whoever writes a payload read earlier finds the ledger it has read. */
  predicate Finds(s: State, e: Event) {
    match e
    case WriteBack(op) =>
      Accepts(s, e) && s.beats[op].snapshot.Some? ==> s.beats[op].snapshot.value.ledger == s.row.payload.ledger
    case CancelWrite(op, _) => Accepts(s, e) ==> s.cancels[op].ledger == s.row.payload.ledger
    case EditWrite(op, _, _, _) => Accepts(s, e) ==> s.edits[op].ledger == s.row.payload.ledger
    case _ => true
  }

  /** Nothing is in the way of a step: its writer finds the ledger, and a cancellation is passed on. */
  predicate Undisturbed(s: State, e: Event) {
    Finds(s, e) && BeatCarries(s, e) && Carries(s, e)
  }

  /** Every payload read so far is an earlier state of the row's ledger. */
  ghost predicate Historic(s: State) {
    && (forall op <- s.beats.Keys :: s.beats[op].snapshot.Some? ==>
         LedgerKept(s.beats[op].snapshot.value.ledger, s.row.payload.ledger))
    && (forall op <- s.cancels.Keys :: LedgerKept(s.cancels[op].ledger, s.row.payload.ledger))
    && forall op <- s.edits.Keys :: LedgerKept(s.edits[op].ledger, s.row.payload.ledger)
  }

  lemma KeptBothWays(a: seq<Call>, b: seq<Call>)
    requires LedgerKept(a, b) && LedgerKept(b, a)
    ensures a == b
  {
    assert forall i :: 0 <= i < |a| ==> a[i] == b[i];
  }

  /** On historic reads, a step that takes nothing off the ledger was made on the ledger as it is. */
  lemma KeptLedgerWasFound(ticks: bool, s: State, e: Event)
    requires Enabled(ticks, s, e) && Historic(s) && LedgerKept(s.row.payload.ledger, NextRow(s, e).payload.ledger)
    ensures Finds(s, e)
  {
    hide Affordable, LedgerKept;
    if Accepts(s, e) {
      match e {
        case WriteBack(op) => KeptBothWays(s.beats[op].snapshot.value.ledger, s.row.payload.ledger);
        case CancelWrite(op, _) => KeptBothWays(s.cancels[op].ledger, s.row.payload.ledger);
        case EditWrite(op, _, _, _) => KeptBothWays(s.edits[op].ledger, s.row.payload.ledger);
        case _ =>
      }
    }
  }

  lemma LosesNothingExactly(ticks: bool, s: State, e: Event)
    requires Enabled(ticks, s, e) && Historic(s)
    ensures NothingLost(s, e, Next(s, e)) <==> Undisturbed(s, e)
  {
    hide Affordable, LedgerKept, Finds, Historic;
    StepKeepsLedger(ticks, s, e);
    if LedgerKept(s.row.payload.ledger, NextRow(s, e).payload.ledger) {
      KeptLedgerWasFound(ticks, s, e);
    }
  }

  lemma StepKeepsLedger(ticks: bool, s: State, e: Event)
    requires Enabled(ticks, s, e)
    ensures Finds(s, e) ==> LedgerKept(s.row.payload.ledger, Next(s, e).row.payload.ledger)
  {
    hide Affordable;
  }

  lemma KeepsHistoric(ticks: bool, s: State, e: Event)
    requires Enabled(ticks, s, e) && Historic(s) && LedgerKept(s.row.payload.ledger, Next(s, e).row.payload.ledger)
    ensures Historic(Next(s, e))
  {
    hide NextRow, Accepts, Affordable;
  }

  ghost predicate KeepsLedger(run: Run, n: nat)
    requires n <= |run.events| < |run.states|
  {
    forall i :: 0 <= i < n ==> LedgerKept(run.states[i].row.payload.ledger, run.states[i + 1].row.payload.ledger)
  }

  lemma {:induction false} HistoricUpTo(ticks: bool, run: Run, n: nat)
    requires IsRun(ticks, run) && n <= |run.events| && KeepsLedger(run, n)
    ensures Historic(run.states[n])
  {
    hide Enabled, NextRow, LedgerKept;
    if n > 0 {
      HistoricUpTo(ticks, run, n - 1);
      assert run.states[n] == Next(run.states[n - 1], run.events[n - 1]);
      assert LedgerKept(run.states[n - 1].row.payload.ledger, run.states[n - 1 + 1].row.payload.ledger);
      KeepsHistoric(ticks, run.states[n - 1], run.events[n - 1]);
    }
  }

  lemma {:induction false} FindingKeeps(ticks: bool, run: Run, n: nat)
    requires IsRun(ticks, run) && n <= |run.events| && forall i :: 0 <= i < n ==> Finds(run.states[i], run.events[i])
    ensures KeepsLedger(run, n)
  {
    hide Enabled, NextRow, LedgerKept, Finds;
    if n > 0 {
      FindingKeeps(ticks, run, n - 1);
      StepKeepsLedger(ticks, run.states[n - 1], run.events[n - 1]);
    }
  }

  /**
   * In every run, whatever the clock: nothing recorded is lost exactly when every write of a payload
   * read earlier finds the ledger it has read and every heartbeat and worker passes a cancellation on.
   */
  lemma NeverLosesExactly(ticks: bool, run: Run)
    requires IsRun(ticks, run)
    ensures NeverLoses(run) <==>
            forall i :: 0 <= i < |run.events| ==> Undisturbed(run.states[i], run.events[i])
  {
    hide Enabled, Next, LedgerKept, Finds, Undisturbed, NothingLost;
    if NeverLoses(run) {
      NoLossKeepsLedger(run);
      forall i | 0 <= i < |run.events|
        ensures Undisturbed(run.states[i], run.events[i])
      {
        StepLosesExactly(ticks, run, i);
        assert NothingLost(run.states[i], run.events[i], run.states[i + 1]);
      }
    }
    if forall i :: 0 <= i < |run.events| ==> Undisturbed(run.states[i], run.events[i]) {
      forall i | 0 <= i < |run.events|
        ensures Finds(run.states[i], run.events[i])
      {
        UndisturbedFinds(run.states[i], run.events[i]);
      }
      FindingKeeps(ticks, run, |run.events|);
      forall i | 0 <= i < |run.events|
        ensures NothingLost(run.states[i], run.events[i], run.states[i + 1])
      {
        StepLosesExactly(ticks, run, i);
      }
    }
  }

  lemma UndisturbedFinds(s: State, e: Event)
    requires Undisturbed(s, e)
    ensures Finds(s, e)
  {
  }

  lemma StepLosesExactly(ticks: bool, run: Run, i: nat)
    requires IsRun(ticks, run) && i < |run.events| && KeepsLedger(run, |run.events|)
    ensures NothingLost(run.states[i], run.events[i], run.states[i + 1])
            <==> Undisturbed(run.states[i], run.events[i])
  {
    hide Enabled, Next, LedgerKept, Undisturbed, NothingLost;
    HistoricUpTo(ticks, run, i);
    LosesNothingExactly(ticks, run.states[i], run.events[i]);
  }

  lemma NoLossKeepsLedger(run: Run)
    requires NeverLoses(run) && |run.events| < |run.states|
    ensures KeepsLedger(run, |run.events|)
  {
    hide LedgerKept;
    forall i | 0 <= i < |run.events|
      ensures LedgerKept(run.states[i].row.payload.ledger, run.states[i + 1].row.payload.ledger)
    {
      assert NothingLost(run.states[i], run.events[i], run.states[i + 1]);
    }
  }

  // ---------- comparing revisions ----------

  /** The check the write-back does not make: nobody has written the payload since it was read. */
  predicate BackCurrent(s: State, e: Event) {
    e.WriteBack? && Accepts(s, e) && s.beats[e.op].snapshot.Some? ==>
      s.beats[e.op].snapshot.value.revision == s.row.payload.revision
  }

  /** The check the cancellation replaces by comparing timestamps. */
  predicate CancelCurrent(s: State, e: Event) {
    e.CancelWrite? && Accepts(s, e) ==> s.cancels[e.op].revision == s.row.payload.revision
  }

  /** Write-backs are current, and so are cancellations, unless advancing timestamps stand in for it. */
  predicate Current(ticks: bool, s: State, e: Event) {
    BackCurrent(s, e) && (ticks || CancelCurrent(s, e))
  }

  function Finished(ledger: seq<Call>): (n: nat) {
    if ledger == [] then 0 else Finished(ledger[..|ledger| - 1]) + if ledger[|ledger| - 1].finished then 1 else 0
  }

  /** How much has been recorded in a payload while its claim lasts. */
  function Work(p: Payload): (n: nat) {
    |p.ledger| + Finished(p.ledger) + if p.cancelled then 1 else 0
  }

  predicate SameContent(p: Payload, q: Payload) {
    p.(revision := 0, updatedAt := 0) == q.(revision := 0, updatedAt := 0)
  }

  ghost predicate OneBeatPerClaim(s: State) {
    forall a, b :: a in s.beats && b in s.beats && s.beats[a].token == s.beats[b].token ==> a == b
  }

  /** An edit whose revision still matches was made on the payload as it is. */
  ghost predicate EditsVersioned(s: State) {
    forall op <- s.edits.Keys ::
      var read := s.edits[op];
      read.status != Running && read.revision <= s.row.payload.revision
      && (read.revision == s.row.payload.revision ==> read == s.row.payload)
  }

  /** No heartbeat of the current claim is under way. */
  ghost predicate Quiet(s: State) {
    forall op <- s.beats.Keys :: s.beats[op].token != s.row.token
  }

  /**
   * A cancellation that could still be written was made on the payload as it is.  Without advancing
   * timestamps its revision says so; with them the timestamp does, apart from one write-back that may
   * have gone by unnoticed, since it does not touch the timestamp.
   */
  ghost predicate CancelVersioned(ticks: bool, s: State, read: Payload) {
    && !read.cancelled
    && (!ticks ==>
          && read.revision <= s.row.payload.revision
          && (read.revision == s.row.payload.revision ==> read == s.row.payload))
    && (ticks && read.updatedAt == s.row.updatedAt ==>
          && SameContent(read, s.row.payload)
          && (|| read.revision == s.row.payload.revision
              || (read.revision + 1 == s.row.payload.revision && s.row.status == Running && Quiet(s))))
  }

  /** What the current claim's heartbeat has read: the payload as it is, or one with exactly that much less recorded. */
  ghost predicate BeatVersioned(s: State, b: Beat) {
    b.snapshot.Some? && b.token == s.row.token && s.row.status == Running ==>
      var read := b.snapshot.value;
      && read.revision <= s.row.payload.revision
      && (read.revision == s.row.payload.revision ==> read == s.row.payload)
      && s.row.payload.revision - read.revision == Work(s.row.payload) - Work(read)
  }

  ghost predicate Versioned(ticks: bool, s: State) {
    && Dated(ticks, s) && StatusAgrees(ticks, s) && OneBeatPerClaim(s) && EditsVersioned(s)
    && (forall op <- s.cancels.Keys :: CancelVersioned(ticks, s, s.cancels[op]))
    && forall op <- s.beats.Keys :: BeatVersioned(s, s.beats[op])
  }

  lemma FinishedAppend(ledger: seq<Call>, c: Call)
    ensures Finished(ledger + [c]) == Finished(ledger) + if c.finished then 1 else 0
  {
    assert (ledger + [c])[..|ledger|] == ledger;
  }

  lemma {:induction false} FinishedUpdate(ledger: seq<Call>, i: nat)
    requires i < |ledger| && !ledger[i].finished
    ensures Finished(ledger[i := ledger[i].(finished := true)]) == Finished(ledger) + 1
  {
    var l := ledger[i := ledger[i].(finished := true)];
    if i < |ledger| - 1 {
      assert l[..|l| - 1] == ledger[..|ledger| - 1][i := ledger[i].(finished := true)];
      FinishedUpdate(ledger[..|ledger| - 1], i);
    } else {
      assert l[..|l| - 1] == ledger[..|ledger| - 1];
    }
  }

  lemma {:induction false} KeptIsNoLess(a: seq<Call>, b: seq<Call>)
    requires LedgerKept(a, b)
    ensures |a| + Finished(a) <= |b| + Finished(b)
    decreases |b|
  {
    if |a| < |b| {
      KeptIsNoLess(a, b[..|b| - 1]);
    } else if a != [] {
      KeptIsNoLess(a[..|a| - 1], b[..|b| - 1]);
    }
  }

  /** How a step moves the revision. */
  lemma RevisionAfter(ticks: bool, s: State, e: Event)
    requires Enabled(ticks, s, e) && Versioned(ticks, s) && Current(ticks, s, e)
    ensures var p, q := s.row.payload, NextRow(s, e).payload;
            p.revision <= q.revision && ((!ticks || s.row.status != Running) && q != p ==> p.revision < q.revision)
  {
    hide Affordable, Work, Finished;
  }

  lemma CurrentFindsStatus(ticks: bool, s: State, e: Event)
    requires Enabled(ticks, s, e) && Versioned(ticks, s) && Current(ticks, s, e)
    ensures FindsStatus(s, e)
  {
    hide BeatVersioned, EditsVersioned, Affordable;
  }

  lemma KeepsOneBeat(ticks: bool, s: State, e: Event)
    requires Enabled(ticks, s, e) && OneBeatPerClaim(s)
    ensures OneBeatPerClaim(Next(s, e))
  {
    hide NextRow, Accepts;
  }

  lemma KeepsEdits(ticks: bool, s: State, e: Event)
    requires Enabled(ticks, s, e) && Versioned(ticks, s) && Current(ticks, s, e)
    ensures EditsVersioned(Next(s, e))
  {
    hide NextRow, Work, CancelVersioned, BeatVersioned, HoldsLease, Affordable, Eligible;
    RevisionAfter(ticks, s, e);
  }

  /** A cancellation still to be written survives only steps that do not touch what it compares. */
  lemma KeepsCancels(ticks: bool, s: State, e: Event)
    requires Enabled(ticks, s, e) && Versioned(ticks, s) && Current(ticks, s, e)
    ensures forall op <- Next(s, e).cancels.Keys :: CancelVersioned(ticks, Next(s, e), Next(s, e).cancels[op])
  {
    if ticks {
      KeepsDatedCancels(s, e);
    } else {
      hide NextRow, Work, BeatVersioned, EditsVersioned, HoldsLease, Affordable, Eligible;
      RevisionAfter(ticks, s, e);
    }
  }

  lemma KeepsDatedCancels(s: State, e: Event)
    requires Enabled(true, s, e) && Versioned(true, s) && Current(true, s, e)
    ensures forall op <- Next(s, e).cancels.Keys :: CancelVersioned(true, Next(s, e), Next(s, e).cancels[op])
  {
    hide Work, Affordable, Eligible;
    StampAfter(true, s, e);
    forall op | op in Next(s, e).cancels.Keys
      ensures CancelVersioned(true, Next(s, e), Next(s, e).cancels[op])
    {
    }
  }

  lemma WorkAfter(ticks: bool, s: State, e: Event)
    requires Enabled(ticks, s, e) && Versioned(ticks, s) && Current(ticks, s, e) && Accepts(s, e)
    requires s.row.status == Running
    requires e.BeginCall? || e.FinishCall? || (e.CancelWrite? && !Quiet(s))
    ensures var p, q := s.row.payload, NextRow(s, e).payload;
            q.revision == p.revision + 1 && Work(q) == Work(p) + 1
  {
    hide Affordable, BeatVersioned;
    var l := s.row.payload.ledger;
    match e {
      case BeginCall(_, _, _, cost, _, _) => FinishedAppend(l, Call(cost, false));
      case FinishCall(_, _, _, call) => FinishedUpdate(l, call);
      case CancelWrite(_, _) =>
    }
  }

  lemma KeepsBeats(ticks: bool, s: State, e: Event)
    requires Enabled(ticks, s, e) && Versioned(ticks, s) && Current(ticks, s, e)
    ensures forall op <- Next(s, e).beats.Keys :: BeatVersioned(Next(s, e), Next(s, e).beats[op])
  {
    hide Work, CancelVersioned, SameContent, Affordable, Eligible, FindsStatus;
    CurrentFindsStatus(ticks, s, e);
    StatusAfter(ticks, s, e);
    if Accepts(s, e) && s.row.status == Running && (e.BeginCall? || e.FinishCall? || (e.CancelWrite? && !Quiet(s))) {
      WorkAfter(ticks, s, e);
    }
    forall op | op in Next(s, e).beats.Keys
      ensures BeatVersioned(Next(s, e), Next(s, e).beats[op])
    {
    }
  }

  lemma KeepsVersioned(ticks: bool, s: State, e: Event)
    requires Enabled(ticks, s, e) && Versioned(ticks, s) && Current(ticks, s, e)
    ensures Versioned(ticks, Next(s, e))
  {
    hide Enabled, NextRow, Current, CancelVersioned, BeatVersioned, EditsVersioned, Dated, StatusAgrees,
        OneBeatPerClaim, FindsStatus;
    CurrentFindsStatus(ticks, s, e);
    KeepsDated(ticks, s, e);
    KeepsStatusAgrees(ticks, s, e);
    KeepsOneBeat(ticks, s, e);
    KeepsEdits(ticks, s, e);
    KeepsCancels(ticks, s, e);
    KeepsBeats(ticks, s, e);
  }

  /** Whoever writes at the revision it has read finds what it has read. */
  lemma CurrentFinds(ticks: bool, s: State, e: Event)
    requires Enabled(ticks, s, e) && Versioned(ticks, s) && Current(ticks, s, e)
    ensures Finds(s, e) && BeatCarries(s, e)
  {
    hide Affordable, Work, Dated;
  }

  /** Where revisions identify payloads, a write-back on a stale one takes back something that had been recorded. */
  lemma StaleLoses(ticks: bool, s: State, e: Event)
    requires Enabled(ticks, s, e) && Versioned(ticks, s) && !BackCurrent(s, e)
    ensures !NothingLost(s, e, Next(s, e))
  {
    hide Affordable, Finished, CancelVersioned, EditsVersioned;
    var read := s.beats[e.op].snapshot.value;
    if NothingLost(s, e, Next(s, e)) {
      KeptIsNoLess(s.row.payload.ledger, read.ledger);
    }
  }

  // ---------- over whole runs ----------

  ghost predicate BacksCurrent(run: Run, n: nat)
    requires n <= |run.events| < |run.states|
  {
    forall i :: 0 <= i < n ==> BackCurrent(run.states[i], run.events[i])
  }

  ghost predicate CancelsCurrent(run: Run, n: nat)
    requires n <= |run.events| < |run.states|
  {
    forall i :: 0 <= i < n ==> CancelCurrent(run.states[i], run.events[i])
  }

  ghost predicate AllCarry(run: Run)
    requires |run.events| < |run.states|
  {
    forall i :: 0 <= i < |run.events| ==> Carries(run.states[i], run.events[i])
  }

  lemma InitVersioned(ticks: bool, s: State)
    requires Init(s)
    ensures Versioned(ticks, s)
  {
  }

  /** Up to the first stale write-back, revisions identify payloads. */
  lemma {:induction false} VersionedUpTo(ticks: bool, run: Run, n: nat)
    requires IsRun(ticks, run) && n <= |run.events| && BacksCurrent(run, n) && (ticks || CancelsCurrent(run, n))
    ensures Versioned(ticks, run.states[n])
  {
    hide Enabled, BackCurrent, CancelCurrent, Next, Versioned;
    if n == 0 {
      InitVersioned(ticks, run.states[0]);
    } else {
      VersionedUpTo(ticks, run, n - 1);
      KeepsVersioned(ticks, run.states[n - 1], run.events[n - 1]);
    }
  }

  /**
   * A stale write-back takes back something that had been recorded: in every run, the first one does, if
   * the cancellations before it were current, by revision or because timestamps advance.
   */
  lemma FirstStaleWriteBackLoses(ticks: bool, run: Run, i: nat)
    requires IsRun(ticks, run) && i < |run.events| && BacksCurrent(run, i) && (ticks || CancelsCurrent(run, i))
    requires !BackCurrent(run.states[i], run.events[i])
    ensures !NothingLost(run.states[i], run.events[i], run.states[i + 1])
  {
    hide Versioned, Enabled, BackCurrent, CancelCurrent, Next, NothingLost;
    VersionedUpTo(ticks, run, i);
    StaleLoses(ticks, run.states[i], run.events[i]);
  }

  /**
   * A check the heartbeat could make is both enough and needed: where cancellations are current, by
   * revision or because timestamps advance, a run loses nothing exactly when every write-back happens at
   * the revision it has read and every worker passes a cancellation on.
   */
  lemma RevisionsDecide(ticks: bool, run: Run)
    requires IsRun(ticks, run) && (ticks || CancelsCurrent(run, |run.events|))
    ensures NeverLoses(run) <==> BacksCurrent(run, |run.events|) && AllCarry(run)
  {
    hide Versioned, Enabled, BackCurrent, CancelCurrent, Next, NothingLost, Finds, BeatCarries, Carries;
    if BacksCurrent(run, |run.events|) {
      forall i | 0 <= i < |run.events|
        ensures Finds(run.states[i], run.events[i]) && BeatCarries(run.states[i], run.events[i])
      {
        VersionedUpTo(ticks, run, i);
        CurrentFinds(ticks, run.states[i], run.events[i]);
      }
    } else {
      var i := FirstStale(run, |run.events|);
      FirstStaleWriteBackLoses(ticks, run, i);
    }
    NeverLosesExactly(ticks, run);
  }

  /** What the budget needs: with current write-backs and cancellations no call is taken off the ledger. */
  lemma RevisionsKeepLedger(ticks: bool, run: Run)
    requires IsRun(ticks, run) && BacksCurrent(run, |run.events|) && (ticks || CancelsCurrent(run, |run.events|))
    ensures KeepsLedger(run, |run.events|) && AllBring(run, |run.events|)
  {
    hide Versioned, Enabled, BackCurrent, CancelCurrent, Next, LedgerKept, Finds, Brings;
    forall i | 0 <= i < |run.events|
      ensures Finds(run.states[i], run.events[i])
    {
      VersionedUpTo(ticks, run, i);
      CurrentFinds(ticks, run.states[i], run.events[i]);
    }
    FindingKeeps(ticks, run, |run.events|);
    KeptLedgerBrings(ticks, run, |run.events|);
  }

  lemma {:induction false} FirstStale(run: Run, n: nat) returns (i: nat)
    requires n <= |run.events| < |run.states| && !BacksCurrent(run, n)
    ensures i < n && BacksCurrent(run, i) && !BackCurrent(run.states[i], run.events[i])
  {
    hide BackCurrent;
    if BacksCurrent(run, n - 1) {
      i := n - 1;
    } else {
      i := FirstStale(run, n - 1);
    }
  }

  /** The same checks, whatever the clock: with current revisions the statuses agree and the status discipline holds. */
  lemma RevisionsKeepDiscipline(ticks: bool, run: Run)
    requires IsRun(ticks, run) && BacksCurrent(run, |run.events|) && CancelsCurrent(run, |run.events|)
    ensures StatusDiscipline(run)
    ensures forall i :: 0 <= i < |run.states| ==> run.states[i].row.payload.status == run.states[i].row.status
  {
    hide Enabled, BackCurrent, CancelCurrent, Next, StillApplies;
    if ticks {
      TickingIsARun(run);
    }
    forall i | 0 <= i < |run.states|
      ensures run.states[i].row.payload.status == run.states[i].row.status
    {
      VersionedUpTo(false, run, i);
    }
    forall i | 0 <= i < |run.events|
      ensures StillApplies(run.states[i], run.events[i])
    {
      VersionedUpTo(false, run, i);
      CurrentStillApplies(run.states[i], run.events[i]);
    }
    StatusDisciplineExactly(false, run);
  }

  lemma CurrentStillApplies(s: State, e: Event)
    requires Enabled(false, s, e) && Versioned(false, s) && Current(false, s, e)
    ensures StillApplies(s, e)
  {
    hide BeatVersioned, EditsVersioned, Affordable;
  }

  // ---------- the budget ----------

  /** Number of tool calls accepted before step i. */
  ghost function Begun(run: Run, i: nat): (n: nat)
    requires i <= |run.events| < |run.states|
  {
    if i == 0 then 0
    else
      Begun(run, i - 1)
      + if run.events[i - 1].BeginCall? && Accepts(run.states[i - 1], run.events[i - 1]) then 1 else 0
  }

  /** The call counter of a payload is the length of its ledger, in the row and in everything read from it. */
  ghost predicate Counted(s: State) {
    && s.row.payload.calls == |s.row.payload.ledger|
    && (forall op <- s.beats.Keys ::
          s.beats[op].snapshot.Some? ==> s.beats[op].snapshot.value.calls == |s.beats[op].snapshot.value.ledger|)
    && (forall op <- s.cancels.Keys :: s.cancels[op].calls == |s.cancels[op].ledger|)
    && forall op <- s.edits.Keys :: s.edits[op].calls == |s.edits[op].ledger|
  }

  lemma KeepsCounted(ticks: bool, s: State, e: Event)
    requires Enabled(ticks, s, e) && Counted(s)
    ensures Counted(Next(s, e))
  {
    hide Affordable;
  }

  lemma {:induction false} EveryStateCounted(ticks: bool, run: Run, i: nat)
    requires IsRun(ticks, run) && i < |run.states|
    ensures Counted(run.states[i])
  {
    hide Enabled, Next, Counted;
    if i == 0 {
      InitCounted(run.states[0]);
    } else {
      EveryStateCounted(ticks, run, i - 1);
      KeepsCounted(ticks, run.states[i - 1], run.events[i - 1]);
    }
  }

  lemma InitCounted(s: State)
    requires Init(s)
    ensures Counted(s)
  {
  }

  /** A payload read earlier charges the calls it holds as the row does. */
  predicate SameCharges(a: seq<Call>, b: seq<Call>) {
    |a| <= |b| && forall i :: 0 <= i < |a| ==> a[i].cost == b[i].cost
  }

  ghost predicate Charged(s: State) {
    && (forall op <- s.beats.Keys ::
          s.beats[op].snapshot.Some? ==> SameCharges(s.beats[op].snapshot.value.ledger, s.row.payload.ledger))
    && (forall op <- s.cancels.Keys :: SameCharges(s.cancels[op].ledger, s.row.payload.ledger))
    && forall op <- s.edits.Keys :: SameCharges(s.edits[op].ledger, s.row.payload.ledger)
  }

  /** A write-back, cancellation or edit brings at least as many calls as it finds. */
  predicate Brings(s: State, e: Event) {
    match e
    case WriteBack(op) =>
      Accepts(s, e) && s.beats[op].snapshot.Some? ==> |s.row.payload.ledger| <= |s.beats[op].snapshot.value.ledger|
    case CancelWrite(op, _) => Accepts(s, e) ==> |s.row.payload.ledger| <= |s.cancels[op].ledger|
    case EditWrite(op, _, _, _) => Accepts(s, e) ==> |s.row.payload.ledger| <= |s.edits[op].ledger|
    case _ => true
  }

  /** Which is to say that the step leaves no fewer calls than it found. */
  lemma ShortensExactly(ticks: bool, s: State, e: Event)
    requires Enabled(ticks, s, e)
    ensures |s.row.payload.ledger| <= |NextRow(s, e).payload.ledger| <==> Brings(s, e)
  {
    hide Affordable;
  }

  lemma RowKeepsCharges(ticks: bool, s: State, e: Event)
    requires Enabled(ticks, s, e) && Charged(s) && Brings(s, e)
    ensures SameCharges(s.row.payload.ledger, NextRow(s, e).payload.ledger)
  {
    hide Affordable;
  }

  lemma KeepsCharged(ticks: bool, s: State, e: Event)
    requires Enabled(ticks, s, e) && Charged(s) && Brings(s, e)
    ensures Charged(Next(s, e))
  {
    RowKeepsCharges(ticks, s, e);
    hide NextRow, Accepts, Affordable, Brings;
  }

  lemma {:induction false} SameChargesSameCost(a: seq<Call>, b: seq<Call>)
    requires SameCharges(a, b) && |a| == |b|
    ensures Cost(a) == Cost(b)
  {
    if a != [] {
      SameChargesSameCost(a[..|a| - 1], b[..|b| - 1]);
    }
  }

  /** Only accepted calls are charged. */
  lemma ChargeAfter(ticks: bool, s: State, e: Event)
    requires Enabled(ticks, s, e) && Counted(s) && Charged(s) && Brings(s, e)
    ensures var p, q := s.row.payload, NextRow(s, e).payload;
            if e.BeginCall? && Accepts(s, e)
            then |q.ledger| == |p.ledger| + 1 <= e.maxCalls && Cost(q.ledger) == Cost(p.ledger) + e.cost <= e.maxCost
            else |q.ledger| == |p.ledger| && Cost(q.ledger) == Cost(p.ledger)
  {
    hide Eligible, SameCharges, Counted;
    var l, l' := s.row.payload.ledger, NextRow(s, e).payload.ledger;
    if e.BeginCall? && Accepts(s, e) {
      CallsAreCounted(s);
      assert (l + [Call(e.cost, false)])[..|l|] == l;
    } else {
      RowKeepsCharges(ticks, s, e);
      LengthStays(ticks, s, e);
      SameChargesSameCost(l, l');
    }
  }

  lemma CallsAreCounted(s: State)
    requires Counted(s)
    ensures s.row.payload.calls == |s.row.payload.ledger|
  {
  }

  lemma LengthStays(ticks: bool, s: State, e: Event)
    requires Enabled(ticks, s, e) && Charged(s) && Brings(s, e) && !(e.BeginCall? && Accepts(s, e))
    ensures |NextRow(s, e).payload.ledger| == |s.row.payload.ledger|
  {
    hide Affordable;
  }

  ghost predicate AllBring(run: Run, n: nat)
    requires n <= |run.events| < |run.states|
  {
    forall i :: 0 <= i < n ==> Brings(run.states[i], run.events[i])
  }

  lemma {:induction false} ChargedUpTo(ticks: bool, run: Run, n: nat)
    requires IsRun(ticks, run) && n <= |run.events| && AllBring(run, n)
    ensures Charged(run.states[n])
  {
    hide Enabled, NextRow, Brings;
    if n > 0 {
      ChargedUpTo(ticks, run, n - 1);
      KeepsCharged(ticks, run.states[n - 1], run.events[n - 1]);
    }
  }

  /** The row holds as many calls as were begun. */
  ghost predicate Accounted(run: Run, k: nat)
    requires k <= |run.events| < |run.states|
  {
    |run.states[k].row.payload.ledger| == Begun(run, k)
  }

  lemma {:induction false} BringingAccounts(ticks: bool, run: Run, n: nat)
    requires IsRun(ticks, run) && n <= |run.events| && AllBring(run, n)
    ensures Accounted(run, n)
  {
    hide Enabled, NextRow, Accepts, Counted, Charged, Brings;
    if n > 0 {
      BringingAccounts(ticks, run, n - 1);
      ChargedUpTo(ticks, run, n - 1);
      EveryStateCounted(ticks, run, n - 1);
      ChargeAfter(ticks, run.states[n - 1], run.events[n - 1]);
    }
  }

  /**
   * In every run, whatever the clock: the calls on record are at all times the calls begun, exactly when
   * every write-back, cancellation and edit brings at least as many calls as it finds.
   */
  lemma AccountsExactly(ticks: bool, run: Run, n: nat)
    requires IsRun(ticks, run) && n <= |run.events|
    ensures AllBring(run, n) <==> forall k :: 0 <= k <= n ==> Accounted(run, k)
  {
    hide Enabled, NextRow, Accepts, Brings;
    if AllBring(run, n) {
      forall k | 0 <= k <= n
        ensures Accounted(run, k)
      {
        BringingAccounts(ticks, run, k);
      }
    }
    if forall k :: 0 <= k <= n ==> Accounted(run, k) {
      forall i | 0 <= i < n
        ensures Brings(run.states[i], run.events[i])
      {
        assert Accounted(run, i) && Accounted(run, i + 1);
        ShortensExactly(ticks, run.states[i], run.events[i]);
      }
    }
  }

  /**
   * The budget of a task run is then not replenished by retries, takeovers, cancellations or edits:
   * accepted calls and their cost stay within what every call asked for.
   */
  lemma {:induction false} BudgetIsSpentOnce(ticks: bool, run: Run, n: nat, maxCalls: nat, maxCost: nat)
    requires IsRun(ticks, run) && n <= |run.events| && AllBring(run, n)
    requires forall i :: 0 <= i < n && run.events[i].BeginCall? ==>
                           run.events[i].maxCalls <= maxCalls && run.events[i].maxCost <= maxCost
    ensures Begun(run, n) <= maxCalls && Cost(run.states[n].row.payload.ledger) <= maxCost
  {
    hide Enabled, NextRow, Accepts, Counted, Charged, Brings;
    if n > 0 {
      BudgetIsSpentOnce(ticks, run, n - 1, maxCalls, maxCost);
      ChargedUpTo(ticks, run, n - 1);
      EveryStateCounted(ticks, run, n - 1);
      ChargeAfter(ticks, run.states[n - 1], run.events[n - 1]);
      BringingAccounts(ticks, run, n);
    }
  }

  /** A run that takes nothing off its ledger brings it everywhere. */
  lemma KeptLedgerBrings(ticks: bool, run: Run, n: nat)
    requires IsRun(ticks, run) && n <= |run.events| && KeepsLedger(run, n)
    ensures AllBring(run, n)
  {
    hide Enabled, NextRow, Brings;
    forall i | 0 <= i < n
      ensures Brings(run.states[i], run.events[i])
    {
      assert LedgerKept(run.states[i].row.payload.ledger, run.states[i + 1].row.payload.ledger);
      ShortensExactly(ticks, run.states[i], run.events[i]);
    }
  }

  // ---------- answered cancellations ----------

  /** The payload carries the timestamp of the column beside it. */
  predicate InStep(r: Row) {
    r.payload.updatedAt == r.updatedAt
  }

  /**
   * A cancellation is answered either way; it is recorded exactly when the timestamp it has read is still the
   * column's.
   */
  lemma AnsweredIsRecordedExactly(s: State, op: nat, now: int)
    requires op in s.cancels && !s.row.payload.cancelled
    ensures Next(s, CancelWrite(op, now)).row.payload.cancelled <==> s.cancels[op].updatedAt == s.row.updatedAt
  {
  }

  /** So a row whose payload is out of step refuses every fresh cancellation, and any other row records it. */
  lemma FreshIsRecordedExactly(s: State, op: nat, now: int)
    requires Accepts(s, CancelRead(op))
    ensures Next(Next(s, CancelRead(op)), CancelWrite(op, now)).row.payload.cancelled <==> InStep(s.row)
  {
    var t := Next(s, CancelRead(op));
    AnsweredIsRecordedExactly(t, op, now);
  }

  /**
   * Every write of payload and column brings them in step; a renewal or write-back does only if the other
   * side has its timestamp.
   */
  lemma InStepExactly(ticks: bool, s: State, e: Event)
    requires Enabled(ticks, s, e)
    ensures InStep(NextRow(s, e)) <==>
      if e.Renew? && Accepts(s, e) then s.row.payload.updatedAt == e.now
      else if e.WriteBack? && Accepts(s, e) then s.beats[e.op].stamp == s.row.updatedAt
      else Stamps(s, e) || InStep(s.row)
  {
    hide Affordable;
  }

  /** With advancing timestamps a renewal always puts the row out of step, until it is stamped again or written back. */
  lemma {:induction false} RenewalRefusesCancellations(run: Run, j: nat, i: nat)
    requires IsRun(true, run) && j < i < |run.states|
    requires run.events[j].Renew? && Accepts(run.states[j], run.events[j])
    requires forall k :: j < k < i ==>
               !Stamps(run.states[k], run.events[k]) &&
                   !(run.events[k].WriteBack? && Accepts(run.states[k], run.events[k]))
    ensures !InStep(run.states[i].row)
  {
    hide Accepts, NextRow, Stamps, Affordable;
    StatusInvariant(run, j);
    InStepExactly(true, run.states[i - 1], run.events[i - 1]);
    if i == j + 1 {
      RenewalIsLater(run.states[j], run.events[j]);
    } else {
      RenewalRefusesCancellations(run, j, i - 1);
      QuietKeepsStep(run.states[i - 1], run.events[i - 1]);
    }
  }

  lemma RenewalIsLater(s: State, e: Event)
    requires Enabled(true, s, e) && Dated(true, s) && e.Renew?
    ensures s.row.payload.updatedAt < e.now
  {
  }

  lemma QuietKeepsStep(s: State, e: Event)
    requires !Stamps(s, e) && !(e.WriteBack? && Accepts(s, e))
    ensures InStep(NextRow(s, e)) <==> InStep(s.row)
  {
    hide Affordable;
  }

  // ---------- takeover ----------

  /** A claim displaces a running worker only once the lease it was last granted has run out. */
  lemma {:induction false} TakeoverAfterExpiry(ticks: bool, run: Run, j: nat, i: nat, expiry: int)
    requires IsRun(ticks, run) && j < i < |run.events|
    requires Accepts(run.states[j], run.events[j]) && (run.events[j].Claim? || run.events[j].Renew?)
    requires expiry == run.events[j].now + run.events[j].duration
    requires forall k :: j < k < i && Accepts(run.states[k], run.events[k]) ==>
              !run.events[k].Claim? && !run.events[k].Renew?
    requires run.events[i].Claim? && Accepts(run.states[i], run.events[i]) && run.states[i].row.status == Running
    ensures run.events[i].now >= expiry
  {
    LeaseStands(ticks, run, j, i, expiry);
  }

  lemma {:induction false} LeaseStands(ticks: bool, run: Run, j: nat, i: nat, expiry: int)
    requires IsRun(ticks, run) && j < i < |run.states|
    requires Accepts(run.states[j], run.events[j]) && (run.events[j].Claim? || run.events[j].Renew?)
    requires expiry == run.events[j].now + run.events[j].duration
    requires forall k :: j < k < i && Accepts(run.states[k], run.events[k]) ==>
              !run.events[k].Claim? && !run.events[k].Renew?
    ensures run.states[i].row.leaseExpires == expiry
  {
    hide Affordable;
    if j < i - 1 {
      LeaseStands(ticks, run, j, i - 1, expiry);
    }
    assert run.states[i].row == NextRow(run.states[i - 1], run.events[i - 1]);
  }
}
